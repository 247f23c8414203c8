# project-teapot résumé scanner, modelled in Dafny

project-teapot is a web page on which a robot ("HR-418, designation Teapot") reviews a
résumé. The visitor talks to the robot through a dialog:

- The dialog moves between screens: welcome, menu, what, privacy, upload-consent,
  upload-ready, sample-list, scanning, results and error.
- An uploaded `.pdf`/`.docx` file, or one of five canned sample résumés, is scanned.
- The scan runs a rule-based scorer over the text. The scorer returns a score from 0 to
  100, a band, a confidence and the reasons behind the score.
- A review is assembled from the scan: a summary, up to three highlights, up to three
  improvements and a joke verdict.
- A scene controller plays the robot's videos and tracks its phase. The dialog drives
  the scene through two effects.

This project models that core as Dafny modules, one per source file:

| module | source | form |
|---|---|---|
| `Text` | JavaScript `trim`, `split`, `join`, `toLowerCase` and `String(n)`, as the parser and the scorer use them | functions and lemmas |
| `Helpers` | `lib/helpers.ts` (`clamp`) | functions |
| `ResumeFiles` | `lib/services/resume-parser/helpers.ts` and `constants.ts` (upload checks) | functions and lemmas |
| `ResumeParser` | `parseResumeText` in `lib/services/resume-parser/resumeParser.ts` | a method with a loop, proved against functions |
| `Regex` | the regular expressions' behaviour, passed in as an engine value | datatype |
| `ScoringTypes`, `ScoringConstants` | `types.ts` and `constants.ts` of the scorer | datatypes and constants |
| `ScoringHelpers` | `lib/services/resume-scoring/helpers.ts` | functions; `buildReasons` as a class |
| `Scoring`, `ScoringProperties` | `scoreResume` in `scoring.ts` | methods that change the reason log, proved against the rule table; lemmas |
| `ReviewHelpers`, `ReviewService` | `lib/review-service/helpers.ts`, `lib/reviewService.ts` | functions and lemmas |
| `DialogConfig`, `DialogState` | `lib/dialogConfig.ts`, `lib/dialogState.ts` | functions and lemmas |
| `DialogActions` | `useDialogActions.ts`; the `dispatch` target is a class `DialogStore` | methods over the store, proved against reducer chains |
| `ResumeDialog` | the derivations and handlers of `ResumeDialog.tsx` | functions and methods |
| `ScannerEffects`, `ScanReviews` | `useDialogScannerEffects.ts`; the refs are a class `Scanner` | methods, proved against functions on a `Refs` value |
| `SceneController` | `lib/sceneController.ts`; the controller is a class | functions, methods with loops, lemmas |
| `SceneEffects` | `useDialogSceneEffects.ts`; the previous-state ref is a class field | methods and lemmas |

How the model handles some features of the source:

- **Random draws.** Every random draw (`Math.random()`) is a parameter in [0, 1).
- **Regular expressions.** Each regular expression is an abstract predicate supplied by
  an engine value.
- **Asynchronous work.** Each asynchronous step of the scanner is a separate operation:
  the file extraction settling, a timer firing, and the review settling. The order in
  which they happen is left to the caller.
- **React state.** `dispatch` is the method `DialogStore.Dispatch`, which reduces the
  store's state. A hook's refs are the fields of a class.

## Model

| member | source | states |
|---|---|---|
| Helpers.Clamp | lib/helpers.ts:8-9 | the result lies in [min, max] when min <= max, equals the value inside the range, max above it, min below it, and max when the bounds cross |
| Helpers.ClampReal | lib/helpers.ts:8-9 | the same clamp on exact reals lies in the range and keeps a value already inside it |
| Text.Trim | lib/services/resume-parser/resumeParser.ts:58 | `trim` removes a blank prefix and a blank suffix and leaves neither a leading nor a trailing space |
| Text.TrimStart | lib/services/resume-parser/resumeParser.ts:58 | the result is a suffix of the input whose removed part is blank and which does not start with a space |
| Text.TrimEnd | lib/services/resume-parser/resumeParser.ts:58 | the result is a prefix of the input whose removed part is blank and which does not end with a space |
| Text.TrimEmptyIffBlank | lib/services/resume-parser/resumeParser.ts:54 | `trim()` is empty exactly for blank text |
| Text.TrimOmits | lib/services/resume-parser/resumeParser.ts:58 | trimming never introduces a character the text lacked |
| Text.TrimOfTrimmed | lib/services/resume-parser/resumeParser.ts:58 | trimming is idempotent on already trimmed text |
| Text.Split | lib/services/resume-parser/resumeParser.ts:58 | `split` returns at least one part, and no part contains the separator |
| Text.JoinSplit | lib/services/resume-parser/resumeParser.ts:58 | joining the parts of a split restores the text |
| Text.SplitJoin | lib/services/resume-parser/resumeParser.ts:58 | splitting a join of separator-free parts restores the parts |
| Text.SplitNoSeparator | lib/services/resume-parser/resumeParser.ts:58 | text without the separator splits into itself alone |
| Text.SplitPrefix | lib/services/resume-parser/resumeParser.ts:58 | a separator-free prefix followed by the separator splits off as the first part |
| Text.JoinSnoc | lib/services/resume-parser/resumeParser.ts:83-86 | appending a line with a "\n" only when content is non-empty is joining the lines with "\n" |
| Text.Join | lib/services/resume-parser/resumeParser.ts:82-86 | `join(sep)` of the parts; `JoinSplit`, `SplitJoin` and `JoinSnoc` state its round trips with `split` |
| Text.ToLower | lib/services/resume-parser/resumeParser.ts:65 | lower-casing keeps the length and maps every character by itself |
| Text.CountWordsZeroIffBlank | lib/services/resume-scoring/scoring.ts:31-32 | the word count is zero exactly when the text is blank |
| Text.CountWords | lib/services/resume-scoring/scoring.ts:31-32 | the number of maximal non-blank runs; `CountWordsIsNormalizedCount` ties it to the source's collapse, trim and split count |
| Text.CollapseSpaces | lib/services/resume-scoring/scoring.ts:31 | `replace(/\s+/g, " ")` is empty iff the text is, ends in white space iff the text does, leaves only plain single spaces, and keeps the non-space characters in order (`NonSpace(r) == NonSpace(s)`) |
| Text.CollapseSpacesOfWord | lib/services/resume-scoring/scoring.ts:31 | text without white space is left unchanged |
| Text.CollapseSpacesOfRun | lib/services/resume-scoring/scoring.ts:31 | a non-empty run of white space of any kind becomes exactly " " |
| Text.CollapseSpacesConcat | lib/services/resume-scoring/scoring.ts:31 | the replacement works piece by piece wherever the cut is not inside a white-space run |
| Text.CollapseSpacesRun | lib/services/resume-scoring/scoring.ts:31 | each maximal white-space run between non-space text becomes one " " in the same place |
| Text.SplitLength | lib/services/resume-scoring/scoring.ts:32 | `split(" ")` gives one part more than the text has spaces |
| Text.CountWordsCollapse | lib/services/resume-scoring/scoring.ts:31 | collapsing white-space runs does not change the number of words |
| Text.CountWordsIsNormalizedCount | lib/services/resume-scoring/scoring.ts:31-32 | for every text, the word count equals `normalizedText ? normalizedText.split(" ").length : 0`, and the normalised text is empty exactly for blank text |
| Text.CountWordsConcat | lib/services/resume-scoring/scoring.ts:31-32 | texts glued at white space have as many words as the two parts together |
| Text.CountWordsOfJoin | lib/services/resume-scoring/scoring.ts:31-32 | non-empty space-free words joined by single spaces count as exactly that many words |
| Text.CountWordsSpaceRun | lib/services/resume-scoring/scoring.ts:31-32 | any run of white space between two texts counts the same as a single space |
| Text.NatToString | lib/services/resume-scoring/scoring.ts:142 | `String(n)` is a non-empty string of decimal digits in canonical form: it starts with "0" exactly for zero and otherwise has no leading zero |
| Text.NatToStringRoundTrip | lib/services/resume-scoring/scoring.ts:142 | reading the printed digits back gives the number |
| ResumeFiles.PrettyFileSize | lib/services/resume-parser/helpers.ts:3-6 | the size of a whole number of MiB prints as that count's canonical digits, without a leading zero, followed by "MB" |
| ResumeFiles.SizeErrorText | lib/services/resume-parser/helpers.ts:18-19 | the size message names the 5MB limit |
| ResumeFiles.ValidationOrder | lib/services/resume-parser/helpers.ts:8-23 | the checks run as extension, then media type, then size; the first failure's message is returned, and none when all pass |
| ResumeFiles.SizeBoundary | lib/services/resume-parser/helpers.ts:18 | exactly 5 MiB is accepted and one byte more is refused |
| ResumeFiles.LastSegmentIsAfterLastDot | lib/services/resume-parser/helpers.ts:9 | the extension is the text after the last ".", so it contains no "." |
| ResumeFiles.DotlessNameIsItsOwnExtension | lib/services/resume-parser/helpers.ts:8-23 | for every name with no ".", the extension is the whole lower-cased name, and the file is accepted exactly when that name is an allowed extension and the media type and size pass (so a file named "PDF" passes) |
| ResumeFiles.UpperCaseExtension | lib/services/resume-parser/helpers.ts:8-23 | for every stem and dot-free suffix, the extension of "stem.suffix" is the lower-cased suffix, and the file is accepted exactly when that is an allowed extension and the media type and size pass, whatever the suffix's case |
| ResumeFiles.ValidateResumeFile | lib/services/resume-parser/helpers.ts:8-23 | `validateResumeFile` returns the first failing check's message or none; its order and boundaries are stated by `ValidationOrder`, `SizeBoundary` and the two extension lemmas above |
| ResumeParser.TrimAndDropEmpty | lib/services/resume-parser/resumeParser.ts:58 | the kept lines are non-empty, trimmed, and no more numerous than the parts |
| ResumeParser.KeptLines | lib/services/resume-parser/resumeParser.ts:58 | every line kept from the text is non-empty, trimmed and free of line breaks |
| ResumeParser.KeptLinesOfBlank | lib/services/resume-parser/resumeParser.ts:54-58 | blank text keeps no lines |
| ResumeParser.KeptLinesOfJoin | lib/services/resume-parser/resumeParser.ts:58 | kept lines joined with "\n" are kept again unchanged |
| ResumeParser.FindHeader | lib/services/resume-parser/resumeParser.ts:72 | a header is found exactly when the lower-cased line is one of the header words, and it is that word |
| ResumeParser.ParseResumeText | lib/services/resume-parser/resumeParser.ts:53-99 | blank text gives no name and no sections; otherwise the name and the sections are those of the kept lines |
| ResumeParser.ScanLines | lib/services/resume-parser/resumeParser.ts:63-98 | the loop over the kept lines yields the name and the header-delimited sections |
| ResumeParser.MentionsOwnHeader | lib/services/resume-parser/resumeParser.ts:67-72 | a line that equals a header word also mentions one, so it is never taken as the name |
| ResumeParser.SectionsSnoc | lib/services/resume-parser/resumeParser.ts:74-91 | one more line either opens a new empty section, extends the last one, or is dropped before the first header |
| ResumeParser.NoHeaderNoSections | lib/services/resume-parser/resumeParser.ts:74-96 | lines without a header give no section |
| ResumeParser.SectionsFollowHeaders | lib/services/resume-parser/resumeParser.ts:74-81 | there is one section per header line, repeats included, in input order, each named by its capitalised header |
| ResumeParser.StoredHeaderIsWord | lib/services/resume-parser/resumeParser.ts:79 | the stored header starts with a capital letter and lower-cases back to its header word |
| ResumeParser.PreambleDropped | lib/services/resume-parser/resumeParser.ts:87-91 | non-header lines before every header do not reach any section |
| ResumeParser.JoinedBodyHasNoOuterBreaks | lib/services/resume-parser/resumeParser.ts:83-86 | section content never starts or ends with a line break |
| ResumeParser.SectionContentIsItsLines | lib/services/resume-parser/resumeParser.ts:82-86 | a section's content is its following non-header lines joined by "\n" |
| ResumeParser.BodyNotHeaders | lib/services/resume-parser/resumeParser.ts:72-86 | no line of a section body is a header |
| ResumeParser.ReparseOne | lib/services/resume-parser/resumeParser.ts:53-99 | a header word followed by kept non-header lines parses to exactly that one section |
| ResumeParser.ReparseSections | lib/services/resume-parser/resumeParser.ts:53-99 | every section built from kept lines re-parses, header and content, to itself alone |
| ResumeParser.ReparseIsIdempotent | lib/services/resume-parser/resumeParser.ts:53-99 | printing any parsed section as its header, a line break and its content, and parsing that again, gives back exactly that section with no name |
| ScoringHelpers.DetectSections | lib/services/resume-scoring/helpers.ts:19-25 | a section is listed exactly when one of its matchers fires; the list keeps the order of SECTION_MATCHERS without repeats and has at most five entries |
| ScoringHelpers.FiringSections | lib/services/resume-scoring/helpers.ts:20-22 | the filter keeps exactly the sections whose matchers fire, in order |
| ScoringHelpers.RankIncreasingBounded | lib/services/resume-scoring/helpers.ts:19-25 | a list in matcher order without repeats has at most five sections |
| ScoringHelpers.SeqMin | lib/services/resume-scoring/helpers.ts:32 | `Math.min` of the years is one of them and no greater than any |
| ScoringHelpers.SeqMax | lib/services/resume-scoring/helpers.ts:33 | `Math.max` of the years is one of them and no smaller than any |
| ScoringHelpers.EstimateYears | lib/services/resume-scoring/helpers.ts:27-38 | fewer than two years give no estimate, and an estimate lies in 1..45 |
| ScoringHelpers.EstimateYearsIsWidestSpan | lib/services/resume-scoring/helpers.ts:27-38 | an estimate exists exactly when there are two years, some positive gap and no gap over 45; it is then the widest gap |
| ScoringHelpers.SeniorityOfEstimate | lib/services/resume-scoring/helpers.ts:40-48 | on an estimate the guess is unknown exactly without one, junior below 3 years, mid below 6 and senior from 6 |
| ScoringHelpers.DetermineSeniority | lib/services/resume-scoring/helpers.ts:40-48 | the seniority guess of an estimate; its thresholds are stated by `SeniorityOfEstimate` |
| ScoringHelpers.MatchedSkills | lib/services/resume-scoring/helpers.ts:57-62 | a skill is matched exactly when it is in the bank and the lower-cased text contains it |
| ScoringHelpers.MatchedPlusUnmatched | lib/services/resume-scoring/helpers.ts:57-66 | matched and unmatched skills together are as many as the bank |
| ScoringHelpers.NotFoundIsUnmatched | lib/services/resume-scoring/helpers.ts:64-66 | the core skills not in the matched list are those the text does not mention |
| ScoringHelpers.ExtractSkills | lib/services/resume-scoring/helpers.ts:50-74 | matched is the order-preserving filter of the core skills followed by that of the bonus skills; missingCore is the filter of the unmentioned core skills; the counts are the lengths and add up |
| ScoringHelpers.MatchedSkillsAppend | lib/services/resume-scoring/helpers.ts:57-62 | filtering a concatenation of banks is filtering each bank and concatenating, in order |
| ScoringHelpers.MatchedSkillsSingle | lib/services/resume-scoring/helpers.ts:57-62 | a one-skill bank keeps its skill exactly when the text mentions it |
| ScoringHelpers.UnmatchedMembers | lib/services/resume-scoring/helpers.ts:64-66 | a skill is unmatched exactly when it is in the list and not mentioned |
| ScoringHelpers.ReasonLog.AddReason | lib/services/resume-scoring/helpers.ts:77-79 | appends one reason and leaves the warnings alone |
| ScoringHelpers.ReasonLog.AddWarning | lib/services/resume-scoring/helpers.ts:80-82 | appends one warning and leaves the reasons alone |
| Scoring.BandThresholds | lib/services/resume-scoring/scoring.ts:225 | the band is strong from 70, medium from 40 and weak below |
| Scoring.ConfidenceBumps | lib/services/resume-scoring/scoring.ts:228-230 | at most three +0.1 bonuses apply |
| Scoring.ConfidenceWithinBounds | lib/services/resume-scoring/scoring.ts:227-232 | the clamp to [0.3, 0.95] never binds; each bonus raises the double and the short-text penalty lowers it |
| Scoring.TotalWeightConcat | lib/services/resume-scoring/scoring.ts:73-222 | the running score of two blocks of rules is the sum of their weights |
| Scoring.ApplySections | lib/services/resume-scoring/scoring.ts:75-97 | the section rules append their reasons and add exactly their weights to the score |
| Scoring.ApplyContact | lib/services/resume-scoring/scoring.ts:99-117 | the contact rules append their reasons and warnings and add their weights |
| Scoring.ApplyLinks | lib/services/resume-scoring/scoring.ts:119-134 | the link rules append their reasons and add their weights |
| Scoring.ApplySkills | lib/services/resume-scoring/scoring.ts:136-157 | the skill rules append their reasons and add their weights |
| Scoring.ApplyExperience | lib/services/resume-scoring/scoring.ts:159-186 | the experience rules append their reasons and warning and add their weights |
| Scoring.ApplyImpact | lib/services/resume-scoring/scoring.ts:188-205 | the impact rules append their reasons and add their weights |
| Scoring.ApplyPenalties | lib/services/resume-scoring/scoring.ts:207-222 | the penalty rules append their reasons and add their weights |
| Scoring.ApplyRules | lib/services/resume-scoring/scoring.ts:73-222 | after every rule the log holds the rule table's reasons and warnings, and the running score is the sum of the reason weights |
| Scoring.Rate | lib/services/resume-scoring/scoring.ts:224-232 | the overall result is the clamped sum, its band and the confidence |
| Scoring.ScoreEvidence | lib/services/resume-scoring/scoring.ts:73-275 | the scan built step by step equals the rule table's scan of the same evidence |
| Scoring.ScoreResume | lib/services/resume-scoring/scoring.ts:28-275 | `scoreResume` returns the rule table's scan of the text |
| Scoring.GatherCountsNormalizedWords | lib/services/resume-scoring/scoring.ts:29-32 | the evidence's word count is the source's normalised count, and the text counts as empty exactly when its normalised form is |
| ScoringProperties.HasCodeWitness | lib/services/resume-scoring/scoring.ts:34-36 | a code is recorded exactly when some reason carries it |
| ScoringProperties.ScoreIsClampedSum | lib/services/resume-scoring/scoring.ts:224-225 | the score is the sum of the recorded weights clamped to 0..100, and its band is the band of that score |
| ScoringProperties.OwnedBySection | lib/services/resume-scoring/scoring.ts:75-97 | a section code is recorded exactly when the section block records it |
| ScoringProperties.OwnedByContact | lib/services/resume-scoring/scoring.ts:99-117 | a contact code is recorded exactly when the contact block records it |
| ScoringProperties.OwnedByLink | lib/services/resume-scoring/scoring.ts:119-134 | a link code is recorded exactly when the link block records it |
| ScoringProperties.OwnedBySkill | lib/services/resume-scoring/scoring.ts:136-157 | a skill code is recorded exactly when the skill block records it |
| ScoringProperties.OwnedByExperience | lib/services/resume-scoring/scoring.ts:159-186 | an experience code is recorded exactly when the experience block records it |
| ScoringProperties.OwnedByImpact | lib/services/resume-scoring/scoring.ts:188-205 | an impact code is recorded exactly when the impact block records it |
| ScoringProperties.OwnedByPenalty | lib/services/resume-scoring/scoring.ts:207-222 | a penalty code is recorded exactly when the penalty block records it |
| ScoringProperties.EmailRule | lib/services/resume-scoring/scoring.ts:99-105 | an email earns CONTACT_EMAIL and its absence PENALTY_NO_EMAIL (−20); exactly one of the two |
| ScoringProperties.SkillsSectionRule | lib/services/resume-scoring/scoring.ts:83-89 | a skills section earns SEC_SKILLS_PRESENT and its absence PENALTY_NO_SKILLS; exactly one of the two |
| ScoringProperties.LinkRule | lib/services/resume-scoring/scoring.ts:119-134 | each link code is recorded exactly when that link was detected |
| ScoringProperties.CoreSkillRule | lib/services/resume-scoring/scoring.ts:136-147 | matched core skills earn SKILL_CORE_MATCH and none earns PENALTY_NO_CORE_SKILLS; exactly one of the two |
| ScoringProperties.CoreSkillPointsRule | lib/services/resume-scoring/scoring.ts:136-143 | the core reward is 3 points per skill capped at 18, and its detail names the count |
| ScoringProperties.ExperienceRule | lib/services/resume-scoring/scoring.ts:159-177 | exactly the bracket of the years estimate is recorded, and EXP_UNKNOWN exactly without an estimate |
| ScoringProperties.ExperienceWeightMonotone | lib/services/resume-scoring/scoring.ts:160-172 | a longer estimate never weighs less |
| ScoringProperties.ExperienceWarningRule | lib/services/resume-scoring/scoring.ts:173-177 | EXP_UNCERTAIN is warned exactly without an estimate |
| ScoringProperties.LengthRule | lib/services/resume-scoring/scoring.ts:207-214 | PENALTY_SHORT exactly under 200 words, PENALTY_LONG exactly over 1200, never both |
| ScoringProperties.NoProjectsRule | lib/services/resume-scoring/scoring.ts:215-222 | PENALTY_NO_PROJECTS exactly when there is neither a projects section nor a GitHub link |
| ScoringProperties.ContactGapsAreWarnings | lib/services/resume-scoring/scoring.ts:106-117 | a missing location or phone is warned, exactly then |
| ScoringProperties.ContactWeight | lib/services/resume-scoring/scoring.ts:99-117 | the contact block weighs +2 with an email or −20 without, +1 with a location and +1 with a phone |
| ScoringProperties.ReasonsWeight | lib/services/resume-scoring/scoring.ts:73-222 | the recorded weight is the sum of the seven blocks' weights |
| ScoringProperties.ContactGapsCostNoPenalty | lib/services/resume-scoring/scoring.ts:106-117 | a missing location or phone only forgoes its +1: the total weight is exactly one lower than with it |
| ScoringProperties.ContactPenaltyIsEmailOnly | lib/services/resume-scoring/scoring.ts:99-117 | the only negative reason the contact block can record is the missing email's PENALTY_NO_EMAIL, so NO_LOCATION and NO_PHONE are never penalties |
| ScoringProperties.BonusSkillRule | lib/services/resume-scoring/scoring.ts:149-157 | SKILL_BONUS_MATCH is recorded exactly when some bonus skill is matched |
| ScoringProperties.BonusSkillPointsRule | lib/services/resume-scoring/scoring.ts:149-157 | the bonus reward is 1 point per bonus skill capped at 7, and its detail names the count |
| ScoringProperties.EmptyResumeWarning | lib/services/resume-scoring/scoring.ts:240-242 | EMPTY_RESUME is warned exactly for blank text, and last |
| ReviewHelpers.SortBySorted | lib/review-service/helpers.ts:24 | the comparator sort orders its result by the key |
| ReviewHelpers.SortByPermutes | lib/review-service/helpers.ts:24 | the sort is a permutation of its input |
| ReviewHelpers.SortByStable | lib/review-service/helpers.ts:24 | reasons with equal keys keep their recorded order |
| ReviewHelpers.FilterBy | lib/review-service/helpers.ts:23 | the filter keeps exactly the matching reasons |
| ReviewHelpers.Take | lib/review-service/helpers.ts:25 | `slice(0, n)` is the first min(n, length) elements |
| ReviewHelpers.BuildHighlights | lib/review-service/helpers.ts:21-27 | at most three highlights |
| ReviewHelpers.BuildImprovements | lib/review-service/helpers.ts:29-38 | at most three improvements |
| ReviewHelpers.HighlightsAreGains | lib/review-service/helpers.ts:21-27 | every highlight is the detail of a positive reason |
| ReviewHelpers.HighlightsHeaviestFirst | lib/review-service/helpers.ts:22-26 | highlights come heaviest first, and no positive reason left out outweighs one listed |
| ReviewHelpers.HighlightsKeepTies | lib/review-service/helpers.ts:24 | positive reasons of equal weight are highlighted in recorded order |
| ReviewHelpers.ImprovementsLayout | lib/review-service/helpers.ts:29-38 | improvements are the penalties, most negative first, then the warnings, cut to three |
| ReviewHelpers.ImprovementsAreLosses | lib/review-service/helpers.ts:30-33 | the penalties listed are exactly the negative reasons, most negative first |
| ReviewHelpers.HighlightsAvoidImprovements | lib/review-service/helpers.ts:21-33 | no reason is both highlighted and listed as an improvement |
| ReviewHelpers.SummaryWording | lib/review-service/helpers.ts:3-19 | the summary pairs the band's tone with the lower-cased confidence note |
| ReviewHelpers.BuildSummary | lib/review-service/helpers.ts:3-19 | the summary sentence; see `SummaryWording` |
| ReviewHelpers.BuildHumor | lib/review-service/helpers.ts:41-52 | the verdict for a score; see `HumorFollowsBand` |
| ReviewService.ReviewTextChoice | lib/reviewService.ts:38-39 | a provided text is scored even when empty; an absent one falls back to the sample text, else to "" |
| ReviewService.ReviewResume | lib/reviewService.ts:37-57 | `reviewResume`; see `ReviewTextChoice`, `ReviewCarriesScore` and `ReviewListsBounded` |
| ReviewService.ReviewUsesDefaultTrack | lib/reviewService.ts:40 | the review scores with the default track |
| ReviewService.ReviewCarriesScore | lib/reviewService.ts:44-55 | the review's score is the scan's; the summary and the verdict are built from it |
| ReviewService.ReviewScoreInRange | lib/reviewService.ts:45 | a review's score lies in 0..100 |
| ReviewService.ReviewListsBounded | lib/reviewService.ts:47-54 | highlights and improvements hold one to three entries; an empty list becomes its fixed sentence |
| ReviewService.HumorFollowsBand | lib/review-service/helpers.ts:41-52 | the verdict's thresholds agree with the bands: 4-5 whirs for strong, 3 for medium, 2 for weak |
| ReviewService.ConfidenceNoteTiers | lib/review-service/helpers.ts:11-16 | "high" exactly with all three bonuses and no short text; "limited" exactly for short text with at most two bonuses |
| DialogConfig.ConfigMatchesId | lib/dialogConfig.ts:36-129 | every entry of the table, written with its own id field, has the id it is looked up under and the robot's speaker |
| DialogConfig.DialogStates | lib/dialogConfig.ts:36-125 | the `DIALOG_STATES` table, entry by entry; its shape is stated by the lemmas on this and the next rows |
| DialogConfig.GetDialogStateConfig | lib/dialogConfig.ts:127-129 | the lookup of a screen's entry; see `ConfigMatchesId` |
| DialogConfig.EmptyOptionScreens | lib/dialogConfig.ts:36-125 | exactly welcome, scanning and error have no static options |
| DialogConfig.OptionsAreWellFormed | lib/dialogConfig.ts:36-125 | every static option has exactly one outcome, and the only actions used are start-scan and close |
| DialogConfig.BackLeadsToMenu | lib/dialogConfig.ts:36-125 | every "back" option leads to the menu |
| DialogConfig.CloseOptions | lib/dialogConfig.ts:44-118 | the menu's "close" moves to welcome, while the results' "close" is the close action |
| DialogState.InitialState | lib/dialogState.ts:50-67 | the dialog starts open on welcome with nothing selected, held or pending |
| DialogState.DialogReducer | lib/dialogState.ts:69-151 | the reducer, case by case; its frame and writes are stated by `ReducerFrame`, `SetEventsWriteTheirValue`, `SidebarEvents` and `StaysOpen` |
| DialogState.ReducerFrame | lib/dialogState.ts:69-151 | each event changes at most the field it is named after |
| DialogState.RunFrame | lib/dialogState.ts:69-151 | a sequence of events changes at most the fields its events name |
| DialogState.RunAppend | lib/dialogState.ts:69-151 | dispatching a then b is dispatching a + b |
| DialogState.SetEventsWriteTheirValue | lib/dialogState.ts:76-147 | each setter event writes the value it carries |
| DialogState.SidebarEvents | lib/dialogState.ts:116-132 | opening the sidebar records mode and sample; closing drops both |
| DialogState.StaysOpen | lib/dialogState.ts:69-151 | no event closes the dialog, and OPEN_DIALOG opens it |
| DialogState.ReachableIsOpen | lib/dialogState.ts:50-151 | every state reached from an open one is open |
| DialogState.IdOnlyBySetState | lib/dialogState.ts:76-80 | the screen changes only through SET_STATE |
| DialogState.RunWithoutSetStateKeepsId | lib/dialogState.ts:69-151 | a run without SET_STATE stays on its screen |
| DialogState.AnimatedWelcomeIsMonotone | lib/dialogState.ts:133-137 | once the welcome has animated it stays animated |
| DialogState.UndeclaredEventIsIgnored | lib/dialogState.ts:148-149 | SET_SCAN_ANIMATION_COMPLETED falls to the default branch and changes nothing |
| DialogActions.DialogStore.Dispatch | lib/dialogState.ts:69-151 | the store's state becomes the reducer's result |
| DialogActions.AfterClearScanState | components/scene/hooks/useDialogActions.ts:26-34 | the state after `clearScanState`; see `ResetScanClears` |
| DialogActions.AfterResetScan | components/scene/hooks/useDialogActions.ts:26-46 | the state after `clearScanState` then deselecting and closing the sidebar; see `ResetScanClears` |
| DialogActions.AfterSetState | components/scene/hooks/useDialogActions.ts:36-46 | the state after `setState`; see `SetStateToMenuClears` and `SetStateElsewhere` |
| DialogActions.AfterFileSelect | components/scene/hooks/useDialogActions.ts:52-70 | the state after `handleFileSelect`; see `FileSelectOutcomes` |
| DialogActions.FileSelectResult | components/scene/hooks/useDialogActions.ts:52-70 | the state after the file `handleFileSelect` returns; see `FileSelectOutcomes` |
| DialogActions.AfterClearFile | components/scene/hooks/useDialogActions.ts:72-75 | the state after `handleClearFile`; see `ClearFileDropsFile` |
| DialogActions.AfterStartScan | components/scene/hooks/useDialogActions.ts:77-100 | the state after `handleStartScan`; see `StartScanWithoutFile` and `StartScanWithFile` |
| DialogActions.AfterSampleSelect | components/scene/hooks/useDialogActions.ts:102-110 | the state after `handleSampleSelect`; see `SampleSelectOpensSidebar` |
| DialogActions.AfterUploadResumeSelect | components/scene/hooks/useDialogActions.ts:112-117 | the state after `handleUploadResumeSelect`; see `UploadResumeSelectMovesToUpload` |
| DialogActions.AfterStartSampleScan | components/scene/hooks/useDialogActions.ts:119-140 | the state after `handleStartSampleScan`; see `StartSampleScanChaos` and `StartSampleScanOther` |
| DialogActions.AfterMenuOption | components/scene/hooks/useDialogActions.ts:142-168 | the state after `handleMenuOption`; see `MenuCloseReturnsToWelcome`, `ResultsCloseGoesToMenu`, `ScanAgainResets`, `PlainNavigation` and `InertOptions` |
| DialogActions.AfterSidebarOpenChange | components/scene/hooks/useDialogActions.ts:170-177 | the state after `handleSidebarOpenChange`; see `SidebarOpenChange` |
| DialogActions.DialogStore.ClearScanState | components/scene/hooks/useDialogActions.ts:26-34 | the seven dispatches of `clearScanState`, in order |
| DialogActions.DialogStore.SetState | components/scene/hooks/useDialogActions.ts:36-46 | going to the menu clears the scan, the sample and the sidebar first; then the screen is set |
| DialogActions.DialogStore.OpenMenu | components/scene/hooks/useDialogActions.ts:48-50 | `openMenu` is `setState("menu")` |
| DialogActions.DialogStore.HandleFileSelect | components/scene/hooks/useDialogActions.ts:52-70 | the state after a file choice and the file returned |
| DialogActions.DialogStore.HandleClearFile | components/scene/hooks/useDialogActions.ts:72-75 | the file and its error are cleared |
| DialogActions.DialogStore.HandleStartScan | components/scene/hooks/useDialogActions.ts:77-100 | the dispatches of `handleStartScan` for the given or held file |
| DialogActions.DialogStore.HandleSampleSelect | components/scene/hooks/useDialogActions.ts:102-110 | the dispatches of `handleSampleSelect` |
| DialogActions.DialogStore.HandleUploadResumeSelect | components/scene/hooks/useDialogActions.ts:112-117 | the dispatches of `handleUploadResumeSelect` |
| DialogActions.DialogStore.HandleStartSampleScan | components/scene/hooks/useDialogActions.ts:119-140 | the dispatches of `handleStartSampleScan`, chaos sample included |
| DialogActions.DialogStore.HandleMenuOption | components/scene/hooks/useDialogActions.ts:142-168 | the action precedence of `handleMenuOption` and its two special cases |
| DialogActions.DialogStore.HandleSidebarOpenChange | components/scene/hooks/useDialogActions.ts:170-177 | only a close request closes the sidebar |
| DialogActions.ResetScanClears | components/scene/hooks/useDialogActions.ts:26-41 | resetting clears file, error, upload flag, review, pending scan, last source, sample and sidebar, on the same screen |
| DialogActions.SetStateToMenuClears | components/scene/hooks/useDialogActions.ts:36-46 | going to the menu clears the scan and keeps the open flag and the three welcome flags |
| DialogActions.SetStateElsewhere | components/scene/hooks/useDialogActions.ts:36-46 | going anywhere but the menu changes only the screen |
| DialogActions.MenuCloseReturnsToWelcome | components/scene/hooks/useDialogActions.ts:154-164 | the menu's "Never mind", chosen on the menu, goes to welcome and marks the return; nothing else changes |
| DialogActions.ResultsCloseGoesToMenu | components/scene/hooks/useDialogActions.ts:144-147 | the results "Close" action goes to the menu, which clears the scan |
| DialogActions.ScanAgainResets | components/scene/hooks/useDialogActions.ts:155-164 | "Scan another resume" on results clears the scan and goes to the sample list |
| DialogActions.PlainNavigation | components/scene/hooks/useDialogActions.ts:154-164 | any other option with a next state other than the menu only moves there |
| DialogActions.InertOptions | components/scene/hooks/useDialogActions.ts:142-166 | an option with neither outcome does nothing, and other actions are ignored unless a next state is named |
| DialogActions.StartScanWithoutFile | components/scene/hooks/useDialogActions.ts:79-86 | with no file given or held: the missing-file error on the error screen; pending scan and sidebar untouched |
| DialogActions.StartScanWithFile | components/scene/hooks/useDialogActions.ts:79-97 | with a file: it is held, an upload scan of it is queued, the sidebar closes and the screen is scanning |
| DialogActions.BeginScanOption | components/scene/hooks/useDialogActions.ts:149-152 | "Begin scan" scans the held file or reports that there is none |
| DialogActions.StartSampleScanChaos | components/scene/hooks/useDialogActions.ts:125-131 | the chaos sample reports its fixed error, drops any pending scan and shows the error screen |
| DialogActions.StartSampleScanOther | components/scene/hooks/useDialogActions.ts:119-138 | any other sample is selected and a sample scan of it is queued on the scanning screen |
| DialogActions.SampleSelectOpensSidebar | components/scene/hooks/useDialogActions.ts:102-110 | picking a sample selects it, drops the file and error and shows it in the sidebar, on the same screen |
| DialogActions.UploadResumeSelectMovesToUpload | components/scene/hooks/useDialogActions.ts:112-117 | choosing to upload deselects, clears the error, closes the sidebar and moves to upload-ready |
| DialogActions.FileSelectOutcomes | components/scene/hooks/useDialogActions.ts:52-70 | no file changes nothing; a refused file records the validator's message and drops the file; an accepted file is held, clears the error and is returned |
| DialogActions.ClearFileDropsFile | components/scene/hooks/useDialogActions.ts:72-75 | clearing drops the file and its error and nothing else |
| DialogActions.SidebarOpenChange | components/scene/hooks/useDialogActions.ts:170-177 | an open request changes nothing; a close request closes the sidebar |
| DialogActions.MenuOptionFlags | components/scene/hooks/useDialogActions.ts:142-168 | the flags are kept, and the return to welcome is marked exactly for the menu's own "close" move |
| DialogActions.PerformKeepsFlags | components/scene/hooks/useDialogActions.ts:25-191 | no handler opens or closes the dialog or touches the welcome-animation and greeting flags |
| DialogActions.HandlersKeepDialogOpen | components/scene/hooks/useDialogActions.ts:25-191 | any sequence of handler calls from an open dialog leaves it open with those flags unchanged |
| DialogActions.ReturnedToWelcomeOnlyFromMenuClose | components/scene/hooks/useDialogActions.ts:161-163 | only the menu's "close" move chosen on the menu marks the return to welcome |
| ResumeDialog.BuildErrorOptions | components/scene/ResumeDialog.tsx:68-88 | the options pushed one by one are the error options |
| ResumeDialog.ResolvedPrompt | components/scene/ResumeDialog.tsx:55-63 | the prompt shown; see `PromptNeverEmpty` and `PromptIsConfiguredElsewhere` |
| ResumeDialog.ShouldAnimatePrompt | components/scene/ResumeDialog.tsx:64-66 | whether the prompt animates; see `WelcomeAnimatesOnce` and `ChaosSampleScreen` |
| ResumeDialog.ErrorOptions | components/scene/ResumeDialog.tsx:68-88 | the error screen's options; see `ErrorOptionsShape` and `ErrorOptionsWellFormed` |
| ResumeDialog.OptionsCount | components/scene/ResumeDialog.tsx:141-155 | the number of keys offered; see `OutOfRangeKeyIgnored` |
| ResumeDialog.IsRendered | components/scene/ResumeDialog.tsx:171-173 | the visibility guard; see `RenderedIffOpenOrScanView` |
| ResumeDialog.HandleSourceOptionSelect | components/scene/ResumeDialog.tsx:90-105 | the store's state becomes that of `handleSourceOptionSelect`: upload or sample choice, nothing for an unknown id |
| ResumeDialog.HandleNumberPress | components/scene/ResumeDialog.tsx:107-139 | the store's state becomes that of `handleNumberPress` on the error, sample-list or configured options |
| ResumeDialog.HandlePromptComplete | components/scene/ResumeDialog.tsx:165-169 | the store's state becomes that of `handlePromptComplete`: WELCOME_ANIMATED on welcome only |
| ResumeDialog.ErrorOptionsShape | components/scene/ResumeDialog.tsx:68-88 | "Try scan again" comes first exactly when a file is held; "Go back" is last and leads to the sample list exactly after a sample scan, else to upload-ready |
| ResumeDialog.ErrorOptionsWellFormed | components/scene/ResumeDialog.tsx:68-88 | every error option has exactly one outcome |
| ResumeDialog.FindSource | components/scene/ResumeDialog.tsx:92 | the first source with the id, and none exactly when no source has it |
| ResumeDialog.PromptNeverEmpty | components/scene/ResumeDialog.tsx:56-63 | the resolved prompt is never empty |
| ResumeDialog.PromptIsConfiguredElsewhere | components/scene/ResumeDialog.tsx:56-63 | off the error and welcome screens, and on error without error text, the prompt is the configured one |
| ResumeDialog.ChaosSampleScreen | components/scene/ResumeDialog.tsx:55-88 | after the chaos sample: the error screen speaks "..." and its error, animated, with only "Go back" to the sample list |
| ResumeDialog.MissingFileScreen | components/scene/ResumeDialog.tsx:55-88 | after a scan without a file: the missing-file message, with only "Go back" to upload-ready; it is "..."-prefixed and animated exactly when a chaos sample is still selected |
| ResumeDialog.RetryScansHeldFile | components/scene/ResumeDialog.tsx:107-115 | key 1 on the error screen with a file held retries the scan of that file |
| ResumeDialog.OutOfRangeKeyIgnored | components/scene/ResumeDialog.tsx:107-155 | a number key outside the counted options does nothing |
| ResumeDialog.SampleListKeyPicksSource | components/scene/ResumeDialog.tsx:117-125 | on the sample list a key picks the source at that position |
| ResumeDialog.UnknownSourceIgnored | components/scene/ResumeDialog.tsx:90-95 | an unknown source id does nothing |
| ResumeDialog.WelcomeAnimatesOnce | components/scene/ResumeDialog.tsx:64-169 | the welcome prompt animates until it has completed once |
| ResumeDialog.PromptCompleteElsewhere | components/scene/ResumeDialog.tsx:165-169 | finishing a prompt off welcome changes nothing |
| ResumeDialog.RenderedIffOpenOrScanView | components/scene/ResumeDialog.tsx:171-173 | the dialog is drawn exactly when it is open or on the scanning or results screen |
| ResumeDialog.AlwaysRenderedFromStart | components/scene/ResumeDialog.tsx:171-173 | after any handler calls from the initial state the dialog is drawn |
| ScannerEffects.Scanner.OnOpenChange | components/scene/hooks/useDialogScannerEffects.ts:18-25 | the refs after the open-state effect |
| ScannerEffects.Scanner.OnUnmount | components/scene/hooks/useDialogScannerEffects.ts:27-33 | the held timer is cleared on unmount |
| ScannerEffects.Scanner.OnPendingScan | components/scene/hooks/useDialogScannerEffects.ts:35-101 | the refs, the dialog and the extraction started by the pending-scan effect |
| ScannerEffects.Scanner.OnExtractionSettled | components/scene/hooks/useDialogScannerEffects.ts:103-130 | the refs and the dialog after the extraction settles |
| ScannerEffects.Scanner.OnTimerFires | components/scene/hooks/useDialogScannerEffects.ts:83-116 | the fired timer is removed and its review job returned |
| ScannerEffects.Scanner.OnReviewSettled | components/scene/hooks/useDialogScannerEffects.ts:51-81 | the dialog after the review settles |
| ScannerEffects.AfterOpenChange | components/scene/hooks/useDialogScannerEffects.ts:18-25 | the refs after the open-state effect; see `CloseInvalidatesScan` and `OpenChangeKeepsValid` |
| ScannerEffects.Activate | components/scene/hooks/useDialogScannerEffects.ts:35-132 | the pending-scan effect; see `ActivationConsumesScan`, `SampleScanSchedulesReview`, `UploadWithoutFileFails` and `UploadStartsExtraction` |
| ScannerEffects.AfterExtraction | components/scene/hooks/useDialogScannerEffects.ts:103-130 | the world after the extraction settles; see `ExtractionOutcomes` |
| ScannerEffects.AfterReview | components/scene/hooks/useDialogScannerEffects.ts:51-81 | the dialog after the review settles; see `ReviewOutcomes` |
| ScannerEffects.InitialRefsValid | components/scene/hooks/useDialogScannerEffects.ts:14-16 | the refs start valid |
| ScannerEffects.NoPendingScanNoEffect | components/scene/hooks/useDialogScannerEffects.ts:36-38 | without a pending scan the effect does nothing |
| ScannerEffects.ActivationConsumesScan | components/scene/hooks/useDialogScannerEffects.ts:40-101 | activation bumps the token, consumes the pending scan and drops the old review; the upload error is cleared on every path except an upload with no file, which writes its own |
| ScannerEffects.ActivationCancelsHeldTimer | components/scene/hooks/useDialogScannerEffects.ts:47-49 | activation cancels the timer whose handle is held |
| ScannerEffects.ScanConsumedOnce | components/scene/hooks/useDialogScannerEffects.ts:35-45 | running the effect again on what activation left does nothing |
| ScannerEffects.SampleScanSchedulesReview | components/scene/hooks/useDialogScannerEffects.ts:83-91 | a sample scan starts no extraction and schedules, after 2200 ms, the review of its sample, or of "sample" without an id |
| ScannerEffects.UploadWithoutFileFails | components/scene/hooks/useDialogScannerEffects.ts:93-101 | an upload scan with no file reports it on the error screen, if open, and starts nothing |
| ScannerEffects.UploadStartsExtraction | components/scene/hooks/useDialogScannerEffects.ts:93-132 | an upload scan with a file marks uploading and extracts the descriptor's file, else the held one |
| ScannerEffects.StaleCompletionsIgnored | components/scene/hooks/useDialogScannerEffects.ts:64-126 | a completion with a stale token or while closed writes nothing |
| ScannerEffects.ExtractionOutcomes | components/scene/hooks/useDialogScannerEffects.ts:103-130 | success schedules the review of the text; failure shows the message or the fixed one on the error screen; both clear the uploading flag |
| ScannerEffects.ReviewOutcomes | components/scene/hooks/useDialogScannerEffects.ts:56-80 | a current review shows its result on the results screen with the results sidebar; a failure shows the message or the fixed one on the error screen |
| ScannerEffects.CloseInvalidatesScan | components/scene/hooks/useDialogScannerEffects.ts:18-25 | closing while a handle is held cancels the timer and makes every earlier token stale |
| ScannerEffects.ActivationSupersedes | components/scene/hooks/useDialogScannerEffects.ts:40-66 | a newer activation makes every earlier review completion stale |
| ScannerEffects.ScheduleKeepsValid | components/scene/hooks/useDialogScannerEffects.ts:83-116 | scheduling keeps the refs valid |
| ScannerEffects.OpenChangeKeepsValid | components/scene/hooks/useDialogScannerEffects.ts:18-25 | the open-state effect keeps the refs valid and the token never decreases |
| ScannerEffects.ActivateKeepsValid | components/scene/hooks/useDialogScannerEffects.ts:35-101 | activation keeps the refs valid and the token never decreases |
| ScannerEffects.ExtractionKeepsValid | components/scene/hooks/useDialogScannerEffects.ts:103-130 | a settled extraction keeps the refs valid and the token unchanged |
| ScannerEffects.TimerAndUnmountKeepValid | components/scene/hooks/useDialogScannerEffects.ts:27-89 | a firing timer and the unmount cleanup keep the refs valid and the token unchanged |
| ScannerEffects.TimerFiresOnce | components/scene/hooks/useDialogScannerEffects.ts:84-89 | a fired job's token is not newer than the current one, and a timer fires once |
| ScanReviews.SampleJobReviewsSampleText | components/scene/hooks/useDialogScannerEffects.ts:83-89 | a sample job reviews that sample's canned text, and the empty text without an id |
| ScanReviews.UploadJobReviewsExtractedText | components/scene/hooks/useDialogScannerEffects.ts:110-116 | an upload job reviews exactly the extracted text under the captured token |
| SceneController.GetIdleWeights | lib/sceneController.ts:55-67 | every phase has clips: its override when given, else its default |
| SceneController.IdleWeightsDefaults | lib/sceneController.ts:45-53 | the idle phases default to the idle clip at weight 1; boot, greeting and error default to none |
| SceneController.IdleDelayInRange | lib/sceneController.ts:81-87 | the delay is at least the non-negative minimum and below a larger maximum; crossed or equal bounds give the minimum |
| SceneController.GetRandomIdleDelayMs | lib/sceneController.ts:81-87 | the delay for a draw; see `IdleDelayInRange` |
| SceneController.DefaultIdleDelay | lib/sceneController.ts:75-79 | the default delay lies in [8000, 16000) |
| SceneController.WithoutVideo | lib/sceneController.ts:100 | the filter keeps exactly the clips of other videos |
| SceneController.PickIdleClip | lib/sceneController.ts:89-121 | the clip picked by the cumulative loop is the first whose running weight reaches the scaled draw |
| SceneController.PickFromPool | lib/sceneController.ts:110-120 | the loop returns the first clip whose running total reaches the target, else the last clip |
| SceneController.PickNothing | lib/sceneController.ts:94-108 | no clips, or a pool without positive total weight, picks nothing |
| SceneController.PoolAvoidsRepeat | lib/sceneController.ts:98-103 | the pool leaves out the last video when repeats are avoided and another clip remains; otherwise it is all clips |
| SceneController.SoleClipRepeats | lib/sceneController.ts:98-103 | a sole clip equal to the last video is still picked |
| SceneController.FirstReachingInPool | lib/sceneController.ts:113-120 | the cumulative search returns a clip of the pool, and nothing only for an empty pool |
| SceneController.FirstReachingIsLeast | lib/sceneController.ts:113-120 | the search returns the clip at the first running total that reaches the target |
| SceneController.PickIsWeightedChoice | lib/sceneController.ts:110-120 | for a draw in [0, 1) and a positive total, the pick is the clip of the first running total reaching the scaled draw, so the last-clip fallback never decides |
| SceneController.PickIsFromPool | lib/sceneController.ts:89-121 | whatever is picked is a clip of the pool and of the given clips |
| SceneController.VideoEndedRemembersVideo | lib/sceneController.ts:156-166 | at the end of a video nothing is active or visible and the last video is the one that played |
| SceneController.PhaseAfterVideo | lib/sceneController.ts:123-133 | greeting becomes idle, scanning becomes reviewing, and every other phase stays |
| SceneController.GetPhaseAfterVideo | lib/sceneController.ts:123-133 | the phase after a video ends; see `PhaseAfterVideo` |
| SceneController.ReduceSceneState | lib/sceneController.ts:135-186 | the scene reducer; see `PlayEvents`, `VideoEndedRemembersVideo`, `PhaseAndWeightEventsAreLocal` and `ReduceKeepsValid` |
| SceneController.InitialSceneState | lib/sceneController.ts:191-197 | the controller's first state; see `InitialSceneIsValid` |
| SceneController.ErrorSurvivesVideoEnd | lib/sceneController.ts:123-173 | the error phase survives the end of the video |
| SceneController.PlayEvents | lib/sceneController.ts:136-154 | INIT plays the greeting; PLAY_VIDEO shows its video, records it and moves to its phase or stays |
| SceneController.PhaseAndWeightEventsAreLocal | lib/sceneController.ts:168-183 | SET_PHASE changes only the phase; UPDATE_IDLE_WEIGHTS changes only that phase's clips |
| SceneController.InitialSceneIsValid | lib/sceneController.ts:191-197 | the controller starts valid, in the requested phase or boot, with nothing playing |
| SceneController.ReduceKeepsValid | lib/sceneController.ts:135-186 | every event keeps a video visible exactly while one is active, and every phase's clips present |
| SceneController.Controller.GetState | lib/sceneController.ts:207 | `getState` returns the current state |
| SceneController.Controller.Send | lib/sceneController.ts:201-205 | the state becomes the reduced one and every listener is called with it, in subscription order |
| SceneController.Controller.Subscribe | lib/sceneController.ts:209-210 | a listener is added once |
| SceneController.Controller.Unsubscribe | lib/sceneController.ts:211-213 | the listener is removed |
| SceneController.RemoveListener | lib/sceneController.ts:212 | exactly that listener is removed |
| SceneController.SubscribeRoundTrip | lib/sceneController.ts:209-213 | subscribing keeps listeners distinct, and unsubscribing a new listener restores the list |
| SceneController.UnsubscribeKeepsOthers | lib/sceneController.ts:211-213 | unsubscribing leaves the listener absent, every other listener present exactly when it was, and the list distinct |
| SceneEffects.SceneEffectsHook.GreetingEffect | components/scene/hooks/useDialogSceneEffects.ts:24-32 | the greeting calls, and SET_PLAYED_GREETING dispatched exactly when greeting |
| SceneEffects.SceneEffectsHook.TransitionEffect | components/scene/hooks/useDialogSceneEffects.ts:34-62 | the transition calls for the previous snapshot, and the new snapshot stored |
| SceneEffects.GreetingConditions | components/scene/hooks/useDialogSceneEffects.ts:24-31 | the greeting plays exactly on an open, ungreeted welcome screen: greeting phase, then the greet video in it |
| SceneEffects.GreetingCommands | components/scene/hooks/useDialogSceneEffects.ts:24-32 | the greeting effect's calls; see `GreetingConditions` |
| SceneEffects.TransitionCommands | components/scene/hooks/useDialogSceneEffects.ts:34-62 | the transition effect's calls; see `FirstTransition`, `ClosingIdles`, `EnteringScreens` and `LeavingResults` |
| SceneEffects.FirstRenderGreets | components/scene/hooks/useDialogSceneEffects.ts:24-31 | the initial dialog state greets |
| SceneEffects.GreetingPlaysOnce | components/scene/hooks/useDialogSceneEffects.ts:25-31 | once greeted, no sequence of events without SET_PLAYED_GREETING(false) greets again |
| SceneEffects.GreetingDrivesScene | components/scene/hooks/useDialogSceneEffects.ts:29-30 | after greeting the scene is in the greeting phase with the greet video showing |
| SceneEffects.ApplyAppend | components/scene/Scene.tsx:129-141 | sending a + b is sending a, then b |
| SceneEffects.RepeatedTransitionIsQuiet | components/scene/hooks/useDialogSceneEffects.ts:34-62 | rerunning on the state last seen makes no call |
| SceneEffects.FirstTransition | components/scene/hooks/useDialogSceneEffects.ts:35-37 | the first run enters the open dialog's screen and makes no close or leave calls |
| SceneEffects.ClosingIdles | components/scene/hooks/useDialogSceneEffects.ts:39-42 | closing makes exactly the idle calls |
| SceneEffects.ClosedStaysQuiet | components/scene/hooks/useDialogSceneEffects.ts:39-59 | a closed dialog that was not open makes no call |
| SceneEffects.EnteringScreens | components/scene/hooks/useDialogSceneEffects.ts:44-54 | entering scanning, results or error makes exactly that screen's calls |
| SceneEffects.LeavingResults | components/scene/hooks/useDialogSceneEffects.ts:56-59 | leaving results for another screen returns to idle; moves between other screens make no call |
| SceneEffects.ResultsToErrorEndsIdle | components/scene/hooks/useDialogSceneEffects.ts:50-59 | results to error plays the error video, then the idle clip over it |
| SceneEffects.ScanDrivesScene | components/scene/hooks/useDialogSceneEffects.ts:45-47 | entering scanning shows the scan video in the scanning phase; when it ends the scene is reviewing |
| SceneEffects.NoClosingFromOpenDialog | components/scene/hooks/useDialogSceneEffects.ts:39-59 | since the reducer never closes the dialog, the close calls never happen from an open snapshot |

## Left out

- **Files and extraction.** PDF and DOCX text extraction (`parsePdfResume`, `parseDocxResume`, `parseResumeFile`) is I/O. The scanner receives its outcome, text or error message, as a parameter.
- **Regular expressions.** The scorer's regular expressions are not implemented. An engine value supplies their `test`, `match` and year-matching results, so every scoring property holds for any regex semantics.
- **Case mapping.** `toLowerCase` is modelled for ASCII letters only; Unicode case mapping is not modelled.
- **Doubles.** The only doubles are the confidence values, weights and random draws. The confidence values are given as the exact doubles JavaScript computes. Clip weights and random draws are exact reals, so rounding in `sum + clip.weight` and `Math.random() * totalWeight` is not modelled.
- ResumeFiles.PrettyFileSize: only sizes that are a whole number of MiB are modelled; the fractional digits `toFixed(2)` prints for other sizes are left out, because doubles are not modelled.
- SceneController.GetRandomIdleDelayMs: the bounds are integers, not doubles, so fractional or NaN bounds are not modelled.
- **React scheduling.** React's effect scheduling is not modelled. Each effect is an operation the caller runs after a render. Dependency lists are not modelled: `SceneEffects.RepeatedTransitionIsQuiet` shows that rerunning the transition effect without a change is harmless.
- **Handler snapshots.** A handler reads the store's state when it starts. This stands in for the state captured by React's render.
- **Interleaving.** Asynchronous interleavings are not modelled. The extraction, timer and review completions are separate operations that the caller may call in any order.
- ScannerEffects.Scanner.OnPendingScan: an extraction in flight is not tracked by the refs. Its completion is an explicit operation that carries its token.
- **Component parameters.** `RESUME_SOURCE_OPTIONS` (the sample list's entries) is a parameter of the ResumeDialog operations. Its contents are not part of this model.
- **Listeners.** Scene listeners are named by numbers. A call of a listener is a recorded `Notification` rather than running foreign code.
- **Rendering.** Rendering, styling, audio, keyboard hints (`useDialogShortcuts`) and the sidebar's contents are left out. The model keeps only whether the dialog is drawn.
- **The scene's own timers.** The idle-clip timers and video playback in `Scene.tsx` are left out. Only the mapping of the dialog's two callbacks to scene events is modelled.
- **Review errors.** The review service never rejects in the source. A rejection is still modelled as an outcome parameter, because the scanner handles one.
