# Link Shield: a verified model of the link-risk checker

Link Shield is a browser page that rates how dangerous a link looks. The user
pastes a link and presses "scan". `startScan` first checks that the input
looks like a link. `analyzeLink` then runs five fixed heuristics over the
string and adds up a risk score of 0 to 100. Each heuristic can also add a
finding (a row on the dashboard) and a tip. `updateResultUI` turns the score
into one of four risk tiers and a "danger" highlight, and adds a reassurance
tip when no heuristic gave one. Everything else in `Js.js` is page
plumbing.

This project models that pipeline in Dafny:

- `Text`: the JavaScript string primitives it uses. These are `startsWith`,
  `endsWith`, `includes`, `length` in UTF-16 units, the `trim`/`\s`
  whitespace set and `toLowerCase` as far as ASCII words can tell.
- `Gate`: the input check of `startScan`, as a function returning
  `Accepted(url)`, `RejectEmpty` or `RejectNotLink`.
- `Domain`: the domain extraction `url.match(/:\/\/(.[^/]+)/)`, with the
  regular expression's semantics written out by hand.
- `Rules`: the five heuristics as a table of rule outcomes (points,
  findings, tips), and `Assess`, the capped tally of that table. `Assess` is
  the reference result of `analyzeLink`.
- `Properties`: what the table adds up to. This covers:
  - the closed form of the score and its bounds;
  - where each rule's finding and tip land;
  - when the score is zero;
  - how tips pair with dangerous findings.
- `Analysis`: `analyzeLink` as the source runs it.
  - A running score and two lists are updated step by step.
  - A `for` loop runs over the known brands, and the cap comes last.
  - It is proved to return `Assess(url)`.
- `Risk`: the tier and colour chain and the danger highlight.
- `Display`: the decisions `updateResultUI` makes, including the default
  tip.
- `Scanner`: `startScan` end to end.
- `Scenarios`: a few concrete inputs.

The Arabic labels, statuses, tips and alerts are modelled as datatype tags.

## Behaviour of the code worth knowing

- **Gate branches.** Input that is empty after trimming gets its own alert
  (Js.js:121-124). Input that is not link-shaped and input that contains
  whitespace get the same second alert (Js.js:131-133).
- **Domain.** The domain is the leftmost capture of an unanchored regular
  expression (Js.js:175-176). This has consequences:
  - the first captured character may be `/`, since `.` matches it;
  - a `://` followed by fewer than two usable units is skipped in favour of
    a later one;
  - with no match, the domain is the whole link, scheme and path included.
- **Cap.** The cap is `Math.min(score, 100)` only (Js.js:215). There is no
  lower clamp; every rule adds a non-negative amount.
- **Lengths.** Lengths are JavaScript lengths: a character beyond the Basic
  Multilingual Plane counts as two UTF-16 units (Js.js:208).

## Model

| member | source | states |
|---|---|---|
| Text.StartsWith | Js.js:163 | definition, no contract: `startsWith`, the leading characters equal the prefix, case-sensitive; Properties.ProtocolEntry and Properties.SchemesExclusive state what the protocol rule gets from it |
| Text.EndsWith | Js.js:180 | definition, no contract: `endsWith`, the trailing characters equal the suffix; Properties.TldEntry states its use |
| Text.Contains | Js.js:190 | definition, no contract: `includes`, an occurrence starts at the first position or later; Text.ContainsAt states that an occurrence at any index is found |
| Text.IsWhitespace | Js.js:119 | definition, no contract: the ECMAScript white space and line terminators, which `trim()` removes and `\s` matches; Gate.Trim and Gate.AcceptedIff state its use |
| Text.FoldAscii | Js.js:128 | definition, no contract: the case folding of a regular expression with the `i` flag and without `u`, ASCII capitals to lower case |
| Text.StartsWithIgnoringCase | Js.js:128 | definition, no contract: `/^prefix/i` for a literal prefix; Gate.AcceptedIff states its use |
| Text.LowerChar | Js.js:190 | definition, no contract: one character of `toLowerCase` as far as ASCII words can tell |
| Text.JsLength | Js.js:208 | `url.length` counts UTF-16 units: between the number of characters and twice it |
| Text.JsLengthOfPlaneZero | Js.js:208 | without astral characters the JavaScript length is the character count |
| Text.Lower | Js.js:190 | no ASCII capital survives `toLowerCase`; Text.LowerIgnoresAsciiCase and Properties.KeywordsIgnoreAsciiCase state the case-insensitivity the keyword rule relies on |
| Text.LowerIdempotent | Js.js:190 | lowering an already lowered string changes nothing |
| Text.LowerIgnoresAsciiCase | Js.js:190 | strings that differ only in the case of ASCII letters lower to the same string |
| Text.ContainsAt | Js.js:190 | `includes` finds an occurrence at any index |
| Gate.TrimStart | Js.js:119 | removes exactly the leading whitespace: the result is a suffix, what was cut is all whitespace, and the result does not start with whitespace |
| Gate.TrimEnd | Js.js:119 | removes exactly the trailing whitespace, symmetrically |
| Gate.Trim | Js.js:119 | `trim()` gives an infix padded on both sides by whitespace that neither starts nor ends with whitespace |
| Gate.TrimStartSkips | Js.js:119 | leading whitespace before a core that does not start with whitespace is all that is cut |
| Gate.TrimEndSkips | Js.js:119 | trailing whitespace after a core that does not end with whitespace is all that is cut |
| Gate.TrimPadded | Js.js:119 | trimming a whitespace-padded core gives back exactly the core |
| Gate.TrimIgnoresPadding | Js.js:119 | extra whitespace around the input does not change what trimming gives |
| Gate.TrimEmptyIff | Js.js:119-124 | the trimmed input is empty iff the input is all whitespace |
| Gate.TrimIsInfix | Js.js:119 | the trimmed input occurs in the raw input |
| Gate.LooksLikeLink | Js.js:128 | definition, no contract: contains '.' or starts, ignoring ASCII case, with `http://`, `https://` or `www.`; Gate.AcceptedIff states its role |
| Gate.HasWhitespace | Js.js:129 | definition, no contract: some character is `\s` white space; Gate.CheckUntrimmed and Scenarios.InnerWhitespaceRejected state its role |
| Gate.Check | Js.js:119-134 | the empty-input alert comes exactly for all-whitespace input; an accepted link is non-empty, whitespace-free, link-shaped and part of the input |
| Gate.CheckUntrimmed | Js.js:119-134 | on input without whitespace at its ends, the verdict is decided by the link-shape and whitespace tests alone |
| Gate.AcceptedIff | Js.js:119-134 | accepted with `url` iff `url` is non-empty, has no whitespace, contains '.' or starts case-insensitively with `http://`, `https://` or `www.`, and the input is `url` padded with whitespace |
| Gate.PaddingIgnored | Js.js:119 | surrounding whitespace never changes the verdict |
| Domain.Capture | Js.js:175 | definition, no contract: what the pattern captures from a start index, read off the regular expression; Domain.CaptureIffMatches ties it to the engine's test |
| Domain.MatchesAt | Js.js:175 | definition, no contract: the engine's test at one start index; Domain.CaptureIffMatches ties it to the capture |
| Domain.RunEnd | Js.js:175 | the greedy `[^/]+` run stops at the first '/' or the end |
| Domain.CaptureIffMatches | Js.js:175 | a capture at a start index exists iff the engine's test succeeds there, and it ends where the greedy run ends |
| Domain.FirstMatch | Js.js:175 | finds the leftmost start index where the pattern matches, and none before it |
| Domain.NoMatchNoCapture | Js.js:175-176 | when the engine's test fails at every index, the pattern captures nothing |
| Domain.FirstMatchIsLeftmostCapture | Js.js:175-176 | the first index where the engine's test succeeds gives the leftmost capture, which ends where the greedy run ends |
| Domain.ExtractDomain | Js.js:175-176 | never fails: the whole link when nothing matches, otherwise the leftmost capture, which begins right after a `://` and has no '/' after its first character |
| Rules.Cap | Js.js:215 | `Math.min(score, 100)`: at most 100 and at most the score, and one of the two |
| Rules.Found | Js.js:190 | the `filter` keeps exactly the listed words the text includes, without repeats when the list has none |
| Rules.ProtocolRule | Js.js:163-172 | definition, no contract: 30 points, an insecure finding and the no-encryption tip for `http://`; 0 and a secure finding for `https://`; 10 and an unknown finding otherwise; Properties.ProtocolEntry and Properties.ProtocolTip state them |
| Rules.HasSuspiciousTld | Js.js:179-180 | definition, no contract: the domain ends with one of the seven listed endings |
| Rules.TldRule | Js.js:179-186 | definition, no contract: 25 points, a suspicious finding and the free-domain tip for a listed ending, else 0 and an ordinary finding; Properties.TldEntry states it |
| Rules.FoundKeywords | Js.js:189-190 | definition, no contract: the listed words the lower-cased link includes, in list order; Rules.Found and Properties.KeywordsIgnoreAsciiCase state its properties |
| Rules.KeywordRule | Js.js:191-195 | definition, no contract: 15 points per found word, one finding and one tip naming the words, silent when none is found; Properties.KeywordPoints states it |
| Rules.Imitates | Js.js:200 | definition, no contract: the domain includes the brand, does not start with it and is not `brand.com`; Properties.SiteRuleIff states it |
| Rules.SiteRule | Js.js:200-204 | definition, no contract: 40 points, a look-alike finding and a tip naming the brand when the domain imitates it, else nothing |
| Rules.SiteRules | Js.js:198-205 | one outcome per brand, in list order; Properties.SiteLoopTally states what they add up to |
| Rules.LengthRule | Js.js:208-212 | definition, no contract: 20 points, a length finding and the hidden-domain tip above 100 UTF-16 units; Properties.LongLinkFlagged states it |
| Rules.RuleTable | Js.js:157-212 | definition, no contract: the rule outcomes in evaluation order; Properties.Layout and Properties.RawScore state what they give |
| Rules.Tally | Js.js:158-212 | definition, no contract: points added, findings and tips concatenated in order; Properties.TallyConcat states how it splits |
| Rules.Assess | Js.js:157-216 | definition, no contract: the capped tally of the rule table, the reference result of `analyzeLink`; Properties.ScoreClosedForm, Properties.ReportShape and Analysis.AnalyzeLink state its properties |
| Properties.TallyConcat | Js.js:158-212 | the tally of two runs of rules in sequence adds their points and concatenates their findings and tips in order |
| Properties.TallyLeading | Js.js:163-195 | the first three rules report their points, findings and tips in that order |
| Properties.Imitated | Js.js:198-205 | the brands the site rule fires for are exactly the listed brands the domain imitates, in list order |
| Properties.ImitatedStep | Js.js:199-205 | each brand in turn adds itself to the hits exactly when the domain imitates it |
| Properties.SiteLoopTally | Js.js:198-205 | the site loop adds 40 per imitated brand, one look-alike finding each and one tip naming each brand, in list order |
| Properties.RulePoints | Js.js:163-212 | the points per rule: 30/0/10 for `http://`/`https://`/other, 25 or 0 for the ending, 15 per word, 20 or 0 for the length |
| Properties.ScoreClosedForm | Js.js:158-215 | score = min(RawPoints, 100), where RawPoints = p + t + 15·words + 40·brands + l: 30/0/10 for the scheme, 25/0 for the ending, 15 per distinct word, 40 per imitated brand, 20/0 for the length |
| Properties.ScoreRange | Js.js:215 | the score always lies in [0, 100] |
| Properties.Layout | Js.js:157-212 | the findings and tips are the rules' own, concatenated in evaluation order |
| Properties.DetailsLayout | Js.js:157-212 | the findings are the protocol, ending, keyword, look-alike and length findings in that order |
| Properties.TipsLayout | Js.js:157-212 | the tips are laid out in the same order |
| Properties.StepsGiveAssessment | Js.js:157-215 | the five steps applied in order to an empty state, then capped, give the reference report |
| Properties.SchemesExclusive | Js.js:163-168 | no link starts with both `http://` and `https://` |
| Properties.RawScore | Js.js:158-212 | the uncapped tally of the rule table is RawPoints, the sum of the five rules' points |
| Properties.KeywordsIgnoreAsciiCase | Js.js:189-190 | links that differ only in the case of ASCII letters find the same words and get the same keyword outcome |
| Properties.KeywordPoints | Js.js:189-195 | 15 points per distinct found word, so at most 135, and one finding and one tip iff some word is found |
| Properties.ZeroScoreOnlyIf | Js.js:158-215 | a zero score means an `https://` link on which rules 2 to 5 stay quiet |
| Properties.ZeroScoreIf | Js.js:158-215 | such a link scores zero |
| Properties.ZeroScoreIff | Js.js:158-215 | both directions together |
| Properties.ProtocolEntry | Js.js:163-172 | the first finding is the protocol finding: insecure iff exact `http://`, secure iff exact `https://`, unknown otherwise |
| Properties.ProtocolTip | Js.js:163-172 | the no-encryption tip appears iff the link starts with exact `http://` |
| Properties.TldEntry | Js.js:175-186 | the second finding is the ending finding, dangerous and with the free-domain tip iff the domain ends with a listed ending |
| Properties.ReportShape | Js.js:157-215 | every report has a score in [0, 100], the protocol and ending findings first, and a zero score exactly for a quiet `https://` link |
| Properties.SiteRuleIff | Js.js:200 | a brand fires iff the domain includes it without starting with it; `brand.com` never fires, so the third test never decides |
| Properties.LongLinkFlagged | Js.js:208-212 | a link longer than 100 UTF-16 units ends its findings and tips with the length entries |
| Properties.NoTipsIff | Js.js:159-212 | no rule gives a tip iff the link is not `http://` and rules 2 to 5 are quiet |
| Properties.TipsMatchDangers | Js.js:163-212 | dangerous findings = tips, plus one for an unknown protocol |
| Properties.RuleDangers | Js.js:163-212 | per rule: one tip per dangerous finding, except the unknown-protocol finding |
| Analysis.AnalyzeLink | Js.js:157-216 | the step-by-step analysis returns the reference report, with score in [0, 100], the protocol and ending findings first, and zero exactly for a quiet `https://` link |
| Analysis.CheckProtocol | Js.js:163-172 | the state after step 1 is the state before plus the protocol rule's outcome |
| Analysis.CheckDomainEnding | Js.js:179-186 | the state after step 2 is the state before plus the ending rule's outcome |
| Analysis.CheckKeywords | Js.js:189-195 | the state after step 3 is the state before plus the keyword rule's outcome |
| Analysis.CheckSites | Js.js:198-205 | the loop adds 40, a look-alike finding and a tip naming the brand for each imitated brand, in list order |
| Analysis.CheckLength | Js.js:208-212 | the state after step 5 is the state before plus the length rule's outcome |
| Risk.TierOf | Js.js:239-243 | the tier bands: at most 30, 31 to 60, 61 to 80, above 80 |
| Risk.Classify | Js.js:239-243 | the overwrite chain ends with the tier of the score's band and its colour: the last threshold passed wins |
| Risk.ColorOf | Js.js:239-243 | definition, no contract: the colour of each tier; Risk.ColorOfInjective states that it tells the tiers apart |
| Risk.DangerActive | Js.js:246 | definition, no contract: the highlight is on for a score above 70; Risk.DangerWithinTiers relates it to the tiers |
| Risk.TierMonotone | Js.js:239-243 | a higher score never gives a lower tier |
| Risk.ColorOfInjective | Js.js:239-243 | the four colours tell the four tiers apart |
| Risk.DangerWithinTiers | Js.js:239-250 | the danger highlight (above 70) is always on for a confirmed scam, never below high risk, and within high risk on exactly for 71 to 80 |
| Display.ShownTips | Js.js:266 | the shown tips are never empty: the rules' tips, or the one reassurance tip |
| Display.EnsureTip | Js.js:266 | the conditional push gives exactly the shown tips |
| Display.UpdateResultUI | Js.js:238-266 | the view carries the score and findings, the tier and colour of the score, the highlight above 70 and the shown tips |
| Display.NoRuleReassures | Js.js:266 | rules that never give the reassurance tip never tally to it |
| Display.RuleTableNeverReassures | Js.js:163-212 | no rule gives the reassurance tip |
| Display.ReassuranceIff | Js.js:266 | the reassurance tip is shown iff no rule gave a tip, iff the link is not `http://` and rules 2 to 5 are quiet |
| Scanner.StartScan | Js.js:117-146 | the empty alert iff all-whitespace input, the invalid alert iff the gate rejects the link, otherwise the dashboard showing the assessment of the trimmed link with its tier, highlight and non-empty tips |
| Scenarios.EmptyInputRejected | Js.js:119-124 | empty and blank input get the empty-input alert |
| Scenarios.PlainTextRejected | Js.js:128-133 | text with no dot and no scheme is rejected as not a link |
| Scenarios.NotLinkShapedRejected | Js.js:128-133 | trimmed text with no dot whose first letter starts none of the schemes is rejected as not a link |
| Scenarios.InnerWhitespaceRejected | Js.js:128-133 | trimmed text with whitespace inside it is rejected as not a link |
| Scenarios.SpacedTextRejected | Js.js:128-133 | text with inner whitespace is rejected on the same branch |
| Scenarios.WwwBrandFlagged | Js.js:200 | the domain `www.google.com` counts as imitating `google` |

## Left out

- Service-worker registration, theme toggling, page navigation, reveal
  effects and every `localStorage` read and write (Js.js:7-115, 230). These
  are browser I/O with no decision logic.
- Restoring a stored result (`isRestoring`). The stored copy is written
  before the default tip is pushed, and that ordering is not modelled.
- `animateValue`, the meter's `strokeDashoffset` and the transition delays
  of the tips. These are floating-point presentation.
- The 1500 ms scanning delay and the Enter-key listener (Js.js:142-155).
  `Scanner.StartScan` runs the analysis directly; the result does not depend
  on the delay.
- `alert`, the DOM writes and the Arabic texts. Each alert, label, status
  and tip is a datatype tag. Two tips carry the interpolated words or brand,
  but not the surrounding sentence.
- Text.Lower: models `toLowerCase` only for ASCII capitals and the Kelvin
  sign. These are the only characters whose lower case is an ASCII letter on
  its own, and the keywords are ASCII. U+0130 lowers to two characters in
  JavaScript; it is left unchanged here because that cannot create or
  destroy an occurrence of any keyword.
- Lone surrogates. Strings are sequences of Unicode scalar values, so a
  JavaScript string holding an unpaired surrogate code unit cannot be
  represented, and `Text.JsLength` counts only well-formed text.
- Worked examples of whole links (such as `https://example.com` scoring 0)
  are not included. Character-level reasoning over long string literals is
  beyond the verifier's budget. The general lemmas in `Properties` state
  these outcomes for all links.
