/** `scoreResume` (lib/services/resume-scoring/scoring.ts): every weight the
    scorer applies is recorded as a reason, the sum is clamped to 0..100 and
    banded, and the confidence is counted from three bonuses and one penalty. */
module Scoring {
  import opened Wrappers
  import opened Text
  import opened Regex
  import opened Helpers
  import opened ScoringTypes
  import opened ScoringConstants
  import opened ScoringHelpers

  // ---------------------------------------------------------- evidence

  /** `words.reduce((count, word) => count + countMatches(lowered, \bword\b), 0)` */
  function SumWholeWordMatches(engine: RegexEngine, lowered: string, words: seq<string>): nat {
    if words == [] then 0
    else (SumWholeWordMatches(engine, lowered, words[..|words| - 1])
      + CountMatches(engine, lowered, WholeWord(words[|words| - 1])))
  }

  /** `terms.some((term) => lowered.includes(term))` */
  predicate AnyIncluded(lowered: string, terms: seq<string>) {
    terms != [] && (Contains(lowered, terms[0]) || AnyIncluded(lowered, terms[1..]))
  }

  /** Everything `scoreResume` reads off the text before it applies a weight. */
  datatype Evidence = Evidence(
    track: ResumeTrack,
    wordCount: nat,
    normalizedEmpty: bool,
    sections: seq<ResumeSection>,
    contact: Contact,
    links: Links,
    yearsEstimate: Option<int>,
    seniority: Seniority,
    metricsMentions: nat,
    actionVerbCount: nat,
    leadershipMentions: nat,
    scaleMentioned: bool,
    skills: SkillMatch)

  /** The constants computed at the top of `scoreResume`. The whitespace-collapsed
      text is empty exactly when the text is blank, and its word count is the
      number of white-space-separated runs. */
  function Gather(input: ResumeScoringInput, engine: RegexEngine): Evidence {
    var track := input.track.GetOr(DEFAULT_TRACK);
    var text := input.resumeText;
    var lowered := ToLower(text);
    var yearsEstimate := EstimateYears(engine.groupNumbers(YEAR_PATTERN, text));
    Evidence(
      track,
      CountWords(text),
      IsBlank(text),
      DetectSections(engine, text),
      Contact(engine.test(EMAIL_PATTERN, text), engine.test(PHONE_PATTERN, text), engine.test(LOCATION_PATTERN, text)),
      Links(engine.test(GITHUB_PATTERN, text), engine.test(LINKEDIN_PATTERN, text),
            engine.test(PORTFOLIO_PATTERN, text), engine.test(LIVE_PROJECT_PATTERN, text)),
      yearsEstimate,
      DetermineSeniority(yearsEstimate),
      CountMatches(engine, text, METRICS_PATTERN),
      SumWholeWordMatches(engine, lowered, ACTION_VERBS),
      SumWholeWordMatches(engine, lowered, LEADERSHIP_KEYWORDS),
      AnyIncluded(lowered, SCALE_TERMS),
      ExtractSkills(text, Some(track)))
  }

  /** The word count and the emptiness test are those of the normalised text
      `resumeText.replace(/\s+/g, " ").trim()`. */
  lemma GatherCountsNormalizedWords(input: ResumeScoringInput, engine: RegexEngine)
    ensures Gather(input, engine).wordCount == NormalizedWordCount(input.resumeText)
    ensures Gather(input, engine).normalizedEmpty <==> Trim(CollapseSpaces(input.resumeText)) == []
  {
    CountWordsIsNormalizedCount(input.resumeText);
  }

  // ------------------------------------------------------ the rule table

  function When(condition: bool, reason: ScanReason): seq<ScanReason> {
    if condition then [reason] else []
  }

  function Min(a: int, b: int): int {
    if a <= b then a else b
  }

  function CoreSkillPoints(ev: Evidence): int {
    Min(ev.skills.matchedCoreCount * 3, 18)
  }

  function BonusSkillPoints(ev: Evidence): int {
    Min(ev.skills.matchedBonusCount, 7)
  }

  function MetricPoints(ev: Evidence): int {
    Min(ev.metricsMentions * 2, 8)
  }

  function VerbPoints(ev: Evidence): int {
    Min(ev.actionVerbCount / 3, 5)
  }

  function Either(condition: bool, yes: ScanReason, no: ScanReason): seq<ScanReason> {
    if condition then [yes] else [no]
  }

  const EXPERIENCE_PRESENT := ScanReason("SEC_EXPERIENCE_PRESENT", 8, "Experience section detected")
  const PROJECTS_PRESENT := ScanReason("SEC_PROJECTS_PRESENT", 8, "Projects section detected")
  const SKILLS_PRESENT := ScanReason("SEC_SKILLS_PRESENT", 4, "Skills section detected")
  const NO_SKILLS := ScanReason("PENALTY_NO_SKILLS", -6, "No skills section detected")
  const EDUCATION_PRESENT := ScanReason("SEC_EDUCATION_PRESENT", 2, "Education section detected")
  const SUMMARY_PRESENT := ScanReason("SEC_SUMMARY_PRESENT", 3, "Summary/profile section detected")

  const CONTACT_EMAIL := ScanReason("CONTACT_EMAIL", 2, "Email address detected")
  const NO_EMAIL := ScanReason("PENALTY_NO_EMAIL", -20, "No email address detected")
  const CONTACT_LOCATION := ScanReason("CONTACT_LOCATION", 1, "Location detected")
  const CONTACT_PHONE := ScanReason("CONTACT_PHONE", 1, "Phone number detected")

  const LINK_GITHUB := ScanReason("LINK_GITHUB", 8, "GitHub profile found")
  const LINK_PORTFOLIO := ScanReason("LINK_PORTFOLIO", 6, "Portfolio link found")
  const LINK_LINKEDIN := ScanReason("LINK_LINKEDIN", 4, "LinkedIn profile found")
  const LINK_LIVE_PROJECT := ScanReason("LINK_LIVE_PROJECT", 2, "Live project link found")

  const NO_CORE_SKILLS := ScanReason("PENALTY_NO_CORE_SKILLS", -8, "No core skills detected")

  const EXP_UNKNOWN := ScanReason("EXP_UNKNOWN", 4, "Experience timeframe unclear")
  const EXP_YEARS_0_1 := ScanReason("EXP_YEARS_0_1", 2, "Estimated 0\U{2013}1 years experience")
  const EXP_YEARS_1_3 := ScanReason("EXP_YEARS_1_3", 6, "Estimated 1\U{2013}3 years experience")
  const EXP_YEARS_3_6 := ScanReason("EXP_YEARS_3_6", 10, "Estimated 3\U{2013}6 years experience")
  const EXP_YEARS_6_PLUS := ScanReason("EXP_YEARS_6_PLUS", 12, "Estimated 6+ years experience")

  const LEADERSHIP := ScanReason("EXP_LEADERSHIP", 3, "Leadership or ownership keywords detected")
  const SCALE := ScanReason("IMPACT_SCALE", 2, "Performance or scale mentioned")

  const SHORT := ScanReason("PENALTY_SHORT", -10, "Resume is under 200 words")
  const LONG := ScanReason("PENALTY_LONG", -5, "Resume exceeds 1200 words")
  const NO_PROJECTS := ScanReason("PENALTY_NO_PROJECTS", -10, "No projects section or GitHub detected")

  function CoreSkillMatch(ev: Evidence): ScanReason {
    ScanReason("SKILL_CORE_MATCH", CoreSkillPoints(ev), NatToString(ev.skills.matchedCoreCount) + " core skills matched")
  }

  function BonusSkillMatch(ev: Evidence): ScanReason {
    ScanReason("SKILL_BONUS_MATCH", BonusSkillPoints(ev), NatToString(ev.skills.matchedBonusCount) + " bonus skills matched")
  }

  function MetricsReason(ev: Evidence): ScanReason {
    ScanReason("IMPACT_METRICS", MetricPoints(ev), "Metrics and KPIs referenced")
  }

  function VerbsReason(ev: Evidence): ScanReason {
    ScanReason("IMPACT_ACTION_VERBS", VerbPoints(ev), "Strong action verbs used")
  }

  function SectionReasons(ev: Evidence): seq<ScanReason> {
    When(Experience in ev.sections, EXPERIENCE_PRESENT)
    + When(Projects in ev.sections, PROJECTS_PRESENT)
    + Either(Skills in ev.sections, SKILLS_PRESENT, NO_SKILLS)
    + When(Education in ev.sections, EDUCATION_PRESENT)
    + When(Summary in ev.sections, SUMMARY_PRESENT)
  }

  function ContactReasons(ev: Evidence): seq<ScanReason> {
    Either(ev.contact.email, CONTACT_EMAIL, NO_EMAIL)
    + When(ev.contact.location, CONTACT_LOCATION)
    + When(ev.contact.phone, CONTACT_PHONE)
  }

  function LinkReasons(ev: Evidence): seq<ScanReason> {
    When(ev.links.github, LINK_GITHUB)
    + When(ev.links.portfolio, LINK_PORTFOLIO)
    + When(ev.links.linkedin, LINK_LINKEDIN)
    + When(ev.links.liveProject, LINK_LIVE_PROJECT)
  }

  function SkillReasons(ev: Evidence): seq<ScanReason> {
    Either(CoreSkillPoints(ev) > 0, CoreSkillMatch(ev), NO_CORE_SKILLS)
    + When(BonusSkillPoints(ev) > 0, BonusSkillMatch(ev))
  }

  function ExperienceReason(years: Option<int>): ScanReason {
    match years
    case None => EXP_UNKNOWN
    case Some(y) =>
      if y < 1 then EXP_YEARS_0_1
      else if y < 3 then EXP_YEARS_1_3
      else if y < 6 then EXP_YEARS_3_6
      else EXP_YEARS_6_PLUS
  }

  function ExperienceReasons(ev: Evidence): seq<ScanReason> {
    [ExperienceReason(ev.yearsEstimate)]
  }

  function ImpactReasons(ev: Evidence): seq<ScanReason> {
    When(ev.leadershipMentions > 0, LEADERSHIP)
    + When(ev.metricsMentions > 0, MetricsReason(ev))
    + When(ev.actionVerbCount > 0 && VerbPoints(ev) > 0, VerbsReason(ev))
    + When(ev.scaleMentioned, SCALE)
  }

  function PenaltyReasons(ev: Evidence): seq<ScanReason> {
    When(ev.wordCount < 200, SHORT)
    + When(ev.wordCount > 1200, LONG)
    + When(Projects !in ev.sections && !ev.links.github, NO_PROJECTS)
  }

  /** Every reason `scoreResume` records, in the order it records them. */
  function Reasons(ev: Evidence): seq<ScanReason> {
    SectionReasons(ev) + ContactReasons(ev) + LinkReasons(ev) + SkillReasons(ev)
    + ExperienceReasons(ev) + ImpactReasons(ev) + PenaltyReasons(ev)
  }

  function LocationWarnings(ev: Evidence): seq<ScanWarning> {
    if ev.contact.location then [] else [ScanWarning("NO_LOCATION", "No location detected")]
  }

  function PhoneWarnings(ev: Evidence): seq<ScanWarning> {
    if ev.contact.phone then [] else [ScanWarning("NO_PHONE", "No phone number detected")]
  }

  function ExperienceWarnings(ev: Evidence): seq<ScanWarning> {
    if ev.yearsEstimate.None? then [ScanWarning("EXP_UNCERTAIN", "Could not estimate years of experience")] else []
  }

  function EmptyWarnings(ev: Evidence): seq<ScanWarning> {
    if ev.normalizedEmpty then [ScanWarning("EMPTY_RESUME", "No readable text detected")] else []
  }

  /** Every warning `scoreResume` records, in order. */
  function Warnings(ev: Evidence): seq<ScanWarning> {
    LocationWarnings(ev) + PhoneWarnings(ev) + ExperienceWarnings(ev) + EmptyWarnings(ev)
  }

  /** The sum of the weights of the reasons. */
  function TotalWeight(reasons: seq<ScanReason>): int {
    if reasons == [] then 0
    else TotalWeight(reasons[..|reasons| - 1]) + reasons[|reasons| - 1].weight
  }

  lemma TotalWeightSnoc(a: seq<ScanReason>, reason: ScanReason)
    ensures TotalWeight(a + [reason]) == TotalWeight(a) + reason.weight
  {
    assert (a + [reason])[..|a + [reason]| - 1] == a;
  }

  lemma {:induction false} TotalWeightConcat(a: seq<ScanReason>, b: seq<ScanReason>)
    ensures TotalWeight(a + b) == TotalWeight(a) + TotalWeight(b)
  {
    if b == [] {
      assert a + b == a;
    } else {
      assert (a + b)[..|a + b| - 1] == a + b[..|b| - 1];
      TotalWeightConcat(a, b[..|b| - 1]);
    }
  }

  lemma TotalWeightConcat4(a: seq<ScanReason>, b: seq<ScanReason>, c: seq<ScanReason>, d: seq<ScanReason>)
    ensures TotalWeight(a + b + c + d) == TotalWeight(a) + TotalWeight(b) + TotalWeight(c) + TotalWeight(d)
  {
    TotalWeightConcat(a, b);
    TotalWeightConcat(a + b, c);
    TotalWeightConcat(a + b + c, d);
  }

  // ------------------------------------------------------ band and confidence

  /** `SCORE_BANDS.find((entry) => score >= entry.min)?.band ?? "weak"` */
  function FindBand(score: int, bands: seq<BandEntry>): ScoreBand {
    if bands == [] then Weak
    else if score >= bands[0].min then bands[0].band
    else FindBand(score, bands[1..])
  }

  function BandFor(score: int): ScoreBand {
    FindBand(score, SCORE_BANDS)
  }

  /** Strong from 70, medium from 40, weak below. */
  lemma BandThresholds(score: int)
    ensures BandFor(score) == Strong <==> score >= 70
    ensures BandFor(score) == Medium <==> 40 <= score < 70
    ensures BandFor(score) == Weak <==> score < 40
  {
    var rest := [BandEntry(40, Medium), BandEntry(0, Weak)];
    assert SCORE_BANDS[1..] == rest;
    assert rest[1..] == [BandEntry(0, Weak)];
    assert [BandEntry(0, Weak)][1..] == [];
    if score >= 70 {
      assert BandFor(score) == Strong;
    } else if score >= 40 {
      assert BandFor(score) == FindBand(score, rest) == Medium;
    } else if score >= 0 {
      assert BandFor(score) == FindBand(score, rest) == FindBand(score, [BandEntry(0, Weak)]) == Weak;
    } else {
      assert BandFor(score) == FindBand(score, rest) == FindBand(score, [BandEntry(0, Weak)]) == FindBand(score, []) == Weak;
    }
  }

  /** The doubles 0.3 and 0.95, the confidence bounds. */
  const CONFIDENCE_FLOOR: real := 0.299999999999999988897769753748434595763683319091796875
  const CONFIDENCE_CEILING: real := 0.9499999999999999555910790149937383830547332763671875

  /** The double `0.6 (+ 0.1)^bumps (- 0.2 if short)` as JavaScript computes it,
      one rounding after each operation. */
  function DoubleConfidence(bumps: nat, short: bool): real
    requires bumps <= 3
  {
    if !short then
      if bumps == 0 then 0.59999999999999997779553950749686919152736663818359375
      else if bumps == 1 then 0.6999999999999999555910790149937383830547332763671875
      else if bumps == 2 then 0.79999999999999993338661852249060757458209991455078125
      else 0.899999999999999911182158029987476766109466552734375
    else
      if bumps == 0 then 0.399999999999999966693309261245303787291049957275390625
      else if bumps == 1 then 0.499999999999999944488848768742172978818416595458984375
      else if bumps == 2 then 0.5999999999999998667732370449812151491641998291015625
      else 0.6999999999999999555910790149937383830547332763671875
  }

  /** The number of +0.1 bonuses: three or more sections, a years estimate, a GitHub link. */
  function ConfidenceBumps(ev: Evidence): (n: nat)
    ensures n <= 3
  {
    (if |ev.sections| >= 3 then 1 else 0) + (if ev.yearsEstimate.Some? then 1 else 0) + (if ev.links.github then 1 else 0)
  }

  function ConfidenceOf(ev: Evidence): real {
    ClampReal(DoubleConfidence(ConfidenceBumps(ev), ev.wordCount < 200), CONFIDENCE_FLOOR, CONFIDENCE_CEILING)
  }

  /** The clamp to [0.3, 0.95] never binds: every reachable double already lies
      strictly inside, and each +0.1 raises the confidence while −0.2 lowers it. */
  lemma ConfidenceWithinBounds(ev: Evidence)
    ensures CONFIDENCE_FLOOR < ConfidenceOf(ev) < CONFIDENCE_CEILING
    ensures ConfidenceOf(ev) == DoubleConfidence(ConfidenceBumps(ev), ev.wordCount < 200)
    ensures forall b: nat, short: bool :: b < 3 ==> DoubleConfidence(b, short) < DoubleConfidence(b + 1, short)
    ensures forall b: nat :: b <= 3 ==> DoubleConfidence(b, true) < DoubleConfidence(b, false)
  {
    forall b: nat, short: bool | b < 3
      ensures DoubleConfidence(b, short) < DoubleConfidence(b + 1, short)
    {
      if b == 0 {
      } else if b == 1 {
      } else {
      }
    }
  }

  // ------------------------------------------------------------ result

  function SignalsOf(ev: Evidence): ScanSignals {
    ScanSignals(
      ev.wordCount,
      ev.sections,
      ev.contact,
      ev.links,
      SkillSignals(ev.skills.matched, ev.skills.missingCore, |ev.skills.matched|),
      ExperienceSignals(ev.yearsEstimate, ev.seniority),
      ImpactSignals(ev.metricsMentions, ev.actionVerbCount))
  }

  /** The score is the sum of the reason weights clamped to 0..100, with its band. */
  function OverallOf(ev: Evidence): Overall {
    var score := Clamp(TotalWeight(Reasons(ev)), 0, 100);
    Overall(score, BandFor(score), ConfidenceOf(ev))
  }

  /** The scan as a value: the reasons and warnings of the rule table, the score
      as the clamped sum of the reason weights, its band, and the confidence. */
  function ScanOf(input: ResumeScoringInput, engine: RegexEngine): ScanResult {
    ScanFrom(Gather(input, engine))
  }

  function ScanFrom(ev: Evidence): ScanResult {
    ScanResult(OverallOf(ev), SignalsOf(ev), Reasons(ev), Warnings(ev), VERSION, ev.track)
  }

  /** One rule of `scoreResume` that fires: the weight goes onto the running
      score and the reason onto the log. `base + added` is what the log holds. */
  method Apply(log: ReasonLog, score: int, ghost base: seq<ScanReason>, ghost added: seq<ScanReason>, reason: ScanReason)
      returns (total: int, ghost now: seq<ScanReason>)
    requires log.reasons == base + added
    modifies log
    ensures log.reasons == base + now
    ensures log.warnings == old(log.warnings)
    ensures now == added + [reason]
    ensures total - TotalWeight(now) == score - TotalWeight(added)
  {
    log.AddReason(reason.code, reason.weight, reason.detail);
    total := score + reason.weight;
    now := added + [reason];
    TotalWeightSnoc(added, reason);
  }

  /** Records `reason` when `condition` holds, as each `if (…) addReason(…)` of the scorer does. */
  method ApplyWhen(log: ReasonLog, score: int, ghost base: seq<ScanReason>, ghost added: seq<ScanReason>,
                   condition: bool, reason: ScanReason)
      returns (total: int, ghost now: seq<ScanReason>)
    requires log.reasons == base + added
    modifies log
    ensures log.reasons == base + now
    ensures log.warnings == old(log.warnings)
    ensures now == added + When(condition, reason)
    ensures total - TotalWeight(now) == score - TotalWeight(added)
  {
    if condition {
      total, now := Apply(log, score, base, added, reason);
    } else {
      total, now := score, added;
    }
  }

  /** Records `yes` when `condition` holds and `no` otherwise, as the scorer's
      `if (…) addReason(…) else addReason(…)` rules do. */
  method ApplyEither(log: ReasonLog, score: int, ghost base: seq<ScanReason>, ghost added: seq<ScanReason>,
                     condition: bool, yes: ScanReason, no: ScanReason)
      returns (total: int, ghost now: seq<ScanReason>)
    requires log.reasons == base + added
    modifies log
    ensures log.reasons == base + now
    ensures log.warnings == old(log.warnings)
    ensures now == added + Either(condition, yes, no)
    ensures total - TotalWeight(now) == score - TotalWeight(added)
  {
    if condition {
      total, now := Apply(log, score, base, added, yes);
    } else {
      total, now := Apply(log, score, base, added, no);
    }
  }

  method ApplySections(ev: Evidence, log: ReasonLog, score: int) returns (total: int)
    modifies log
    ensures log.reasons == old(log.reasons) + SectionReasons(ev)
    ensures log.warnings == old(log.warnings)
    ensures total == score + TotalWeight(SectionReasons(ev))
  {
    ghost var base := log.reasons;
    ghost var added: seq<ScanReason> := [];
    total := score;
    total, added := ApplyWhen(log, total, base, added, Experience in ev.sections, EXPERIENCE_PRESENT);
    total, added := ApplyWhen(log, total, base, added, Projects in ev.sections, PROJECTS_PRESENT);
    total, added := ApplyEither(log, total, base, added, Skills in ev.sections, SKILLS_PRESENT, NO_SKILLS);
    total, added := ApplyWhen(log, total, base, added, Education in ev.sections, EDUCATION_PRESENT);
    total, added := ApplyWhen(log, total, base, added, Summary in ev.sections, SUMMARY_PRESENT);
  }

  method ApplyContact(ev: Evidence, log: ReasonLog, score: int) returns (total: int)
    modifies log
    ensures log.reasons == old(log.reasons) + ContactReasons(ev)
    ensures log.warnings == old(log.warnings) + LocationWarnings(ev) + PhoneWarnings(ev)
    ensures total == score + TotalWeight(ContactReasons(ev))
  {
    ghost var base := log.reasons;
    ghost var added: seq<ScanReason> := [];
    total := score;
    if ev.contact.email {
      total, added := Apply(log, total, base, added, CONTACT_EMAIL);
    } else {
      total, added := Apply(log, total, base, added, NO_EMAIL);
    }
    ghost var want := Either(ev.contact.email, CONTACT_EMAIL, NO_EMAIL);
    assert added == want;
    ghost var warned := log.warnings;
    if ev.contact.location {
      total, added := Apply(log, total, base, added, CONTACT_LOCATION);
    } else {
      log.AddWarning("NO_LOCATION", "No location detected");
    }
    want := want + When(ev.contact.location, CONTACT_LOCATION);
    assert added == want;
    warned := warned + LocationWarnings(ev);
    assert log.warnings == warned;
    if ev.contact.phone {
      total, added := Apply(log, total, base, added, CONTACT_PHONE);
    } else {
      log.AddWarning("NO_PHONE", "No phone number detected");
    }
    want := want + When(ev.contact.phone, CONTACT_PHONE);
    assert added == want;
    warned := warned + PhoneWarnings(ev);
    assert log.warnings == warned;
  }

  method ApplyLinks(ev: Evidence, log: ReasonLog, score: int) returns (total: int)
    modifies log
    ensures log.reasons == old(log.reasons) + LinkReasons(ev)
    ensures log.warnings == old(log.warnings)
    ensures total == score + TotalWeight(LinkReasons(ev))
  {
    ghost var base := log.reasons;
    ghost var added: seq<ScanReason> := [];
    total := score;
    total, added := ApplyWhen(log, total, base, added, ev.links.github, LINK_GITHUB);
    total, added := ApplyWhen(log, total, base, added, ev.links.portfolio, LINK_PORTFOLIO);
    total, added := ApplyWhen(log, total, base, added, ev.links.linkedin, LINK_LINKEDIN);
    total, added := ApplyWhen(log, total, base, added, ev.links.liveProject, LINK_LIVE_PROJECT);
  }

  method ApplySkills(ev: Evidence, log: ReasonLog, score: int) returns (total: int)
    modifies log
    ensures log.reasons == old(log.reasons) + SkillReasons(ev)
    ensures log.warnings == old(log.warnings)
    ensures total == score + TotalWeight(SkillReasons(ev))
  {
    ghost var base := log.reasons;
    ghost var added: seq<ScanReason> := [];
    total := score;
    var coreSkillPoints := Min(ev.skills.matchedCoreCount * 3, 18);
    if coreSkillPoints > 0 {
      total, added := Apply(log, total, base, added,
        ScanReason("SKILL_CORE_MATCH", coreSkillPoints, NatToString(ev.skills.matchedCoreCount) + " core skills matched"));
    } else {
      total, added := Apply(log, total, base, added, NO_CORE_SKILLS);
    }
    ghost var want := Either(CoreSkillPoints(ev) > 0, CoreSkillMatch(ev), NO_CORE_SKILLS);
    assert added == want;
    var bonusSkillPoints := Min(ev.skills.matchedBonusCount, 7);
    if bonusSkillPoints > 0 {
      total, added := Apply(log, total, base, added,
        ScanReason("SKILL_BONUS_MATCH", bonusSkillPoints, NatToString(ev.skills.matchedBonusCount) + " bonus skills matched"));
    }
    want := want + When(BonusSkillPoints(ev) > 0, BonusSkillMatch(ev));
    assert added == want;
  }

  method ApplyExperience(ev: Evidence, log: ReasonLog, score: int) returns (total: int)
    modifies log
    ensures log.reasons == old(log.reasons) + ExperienceReasons(ev)
    ensures log.warnings == old(log.warnings) + ExperienceWarnings(ev)
    ensures total == score + TotalWeight(ExperienceReasons(ev))
  {
    ghost var base := log.reasons;
    ghost var added: seq<ScanReason> := [];
    total := score;
    if ev.yearsEstimate.Some? {
      var years := ev.yearsEstimate.value;
      if years < 1 {
        total, added := Apply(log, total, base, added, EXP_YEARS_0_1);
      } else if years < 3 {
        total, added := Apply(log, total, base, added, EXP_YEARS_1_3);
      } else if years < 6 {
        total, added := Apply(log, total, base, added, EXP_YEARS_3_6);
      } else {
        total, added := Apply(log, total, base, added, EXP_YEARS_6_PLUS);
      }
    } else {
      total, added := Apply(log, total, base, added, EXP_UNKNOWN);
      log.AddWarning("EXP_UNCERTAIN", "Could not estimate years of experience");
    }
    assert added == ExperienceReasons(ev);
  }

  method ApplyImpact(ev: Evidence, log: ReasonLog, score: int) returns (total: int)
    modifies log
    ensures log.reasons == old(log.reasons) + ImpactReasons(ev)
    ensures log.warnings == old(log.warnings)
    ensures total == score + TotalWeight(ImpactReasons(ev))
  {
    ghost var base := log.reasons;
    ghost var added: seq<ScanReason> := [];
    total := score;
    total, added := ApplyWhen(log, total, base, added, ev.leadershipMentions > 0, LEADERSHIP);
    var metricPoints := Min(ev.metricsMentions * 2, 8);
    total, added := ApplyWhen(log, total, base, added, ev.metricsMentions > 0,
                              ScanReason("IMPACT_METRICS", metricPoints, "Metrics and KPIs referenced"));
    var verbPoints := Min(ev.actionVerbCount / 3, 5);
    total, added := ApplyWhen(log, total, base, added, ev.actionVerbCount > 0 && verbPoints > 0,
                              ScanReason("IMPACT_ACTION_VERBS", verbPoints, "Strong action verbs used"));
    total, added := ApplyWhen(log, total, base, added, ev.scaleMentioned, SCALE);
  }

  method ApplyPenalties(ev: Evidence, log: ReasonLog, score: int) returns (total: int)
    modifies log
    ensures log.reasons == old(log.reasons) + PenaltyReasons(ev)
    ensures log.warnings == old(log.warnings)
    ensures total == score + TotalWeight(PenaltyReasons(ev))
  {
    ghost var base := log.reasons;
    ghost var added: seq<ScanReason> := [];
    total := score;
    total, added := ApplyWhen(log, total, base, added, ev.wordCount < 200, SHORT);
    total, added := ApplyWhen(log, total, base, added, ev.wordCount > 1200, LONG);
    total, added := ApplyWhen(log, total, base, added, Projects !in ev.sections && !ev.links.github, NO_PROJECTS);
  }

  /** The clamp, the band lookup and the confidence count at the end of `scoreResume`. */
  method Rate(ev: Evidence, score: int) returns (overall: Overall)
    requires score == TotalWeight(Reasons(ev))
    ensures overall == OverallOf(ev)
  {
    var rawScore := Clamp(score, 0, 100);
    var band := FindBand(rawScore, SCORE_BANDS);
    var bumps := 0;
    if |ev.sections| >= 3 { bumps := bumps + 1; }
    if ev.yearsEstimate.Some? { bumps := bumps + 1; }
    if ev.links.github { bumps := bumps + 1; }
    var confidence := DoubleConfidence(bumps, ev.wordCount < 200);
    confidence := ClampReal(confidence, CONFIDENCE_FLOOR, CONFIDENCE_CEILING);
    overall := Overall(rawScore, band, confidence);
  }

  /** `scoreResume`: applies the rules one by one, adding each weight to the
      running score as it records the reason for it. */
  method ScoreResume(input: ResumeScoringInput, engine: RegexEngine) returns (r: ScanResult)
    ensures r == ScanOf(input, engine)
  {
    var ev := Gather(input, engine);
    r := ScoreEvidence(ev);
  }

  /** The rules of `scoreResume` applied to the evidence, in the source's order. */
  /** The section, contact, link and skill blocks of `scoreResume`, run on an empty log. */
  method ApplyProfileRules(ev: Evidence, log: ReasonLog) returns (score: int)
    requires log.reasons == [] && log.warnings == []
    modifies log
    ensures log.reasons == SectionReasons(ev) + ContactReasons(ev) + LinkReasons(ev) + SkillReasons(ev)
    ensures log.warnings == LocationWarnings(ev) + PhoneWarnings(ev)
    ensures score == TotalWeight(SectionReasons(ev) + ContactReasons(ev) + LinkReasons(ev) + SkillReasons(ev))
  {
    ghost var a, b, c, d := SectionReasons(ev), ContactReasons(ev), LinkReasons(ev), SkillReasons(ev);
    score := ApplySections(ev, log, 0);
    assert [] + a == a;
    score := ApplyContact(ev, log, score);
    assert [] + LocationWarnings(ev) + PhoneWarnings(ev) == LocationWarnings(ev) + PhoneWarnings(ev);
    score := ApplyLinks(ev, log, score);
    score := ApplySkills(ev, log, score);
    TotalWeightConcat4(a, b, c, d);
  }

  /** The experience, impact and penalty blocks of `scoreResume`. */
  method ApplyCareerRules(ev: Evidence, log: ReasonLog, score: int) returns (total: int)
    modifies log
    ensures log.reasons == old(log.reasons) + ExperienceReasons(ev) + ImpactReasons(ev) + PenaltyReasons(ev)
    ensures log.warnings == old(log.warnings) + ExperienceWarnings(ev)
    ensures total == score + TotalWeight(ExperienceReasons(ev)) + TotalWeight(ImpactReasons(ev)) + TotalWeight(PenaltyReasons(ev))
  {
    total := ApplyExperience(ev, log, score);
    total := ApplyImpact(ev, log, total);
    total := ApplyPenalties(ev, log, total);
  }

  /** The seven blocks of rules of `scoreResume`, run in order on an empty log. */
  method ApplyRules(ev: Evidence, log: ReasonLog) returns (score: int)
    requires log.reasons == [] && log.warnings == []
    modifies log
    ensures log.reasons == Reasons(ev)
    ensures log.warnings == LocationWarnings(ev) + PhoneWarnings(ev) + ExperienceWarnings(ev)
    ensures score == TotalWeight(Reasons(ev))
  {
    score := ApplyProfileRules(ev, log);
    score := ApplyCareerRules(ev, log, score);
    TotalWeightConcat4(SectionReasons(ev) + ContactReasons(ev) + LinkReasons(ev) + SkillReasons(ev),
                       ExperienceReasons(ev), ImpactReasons(ev), PenaltyReasons(ev));
  }

  method ScoreEvidence(ev: Evidence) returns (r: ScanResult)
    ensures r == ScanFrom(ev)
  {
    var log := new ReasonLog([], []);
    var score := ApplyRules(ev, log);
    var overall := Rate(ev, score);
    ghost var warned := log.warnings;
    if ev.normalizedEmpty {
      log.AddWarning("EMPTY_RESUME", "No readable text detected");
    }
    assert log.warnings == warned + EmptyWarnings(ev);
    r := ScanResult(overall, SignalsOf(ev), log.reasons, log.warnings, VERSION, ev.track);
  }
}

module ScoringProperties {
  import opened Wrappers
  import opened Text
  import opened ScoringTypes
  import opened Scoring
  import opened Helpers

  /** Some reason in the list carries `code`. */
  predicate HasCode(reasons: seq<ScanReason>, code: string) {
    reasons != [] && (reasons[0].code == code || HasCode(reasons[1..], code))
  }

  /** `HasCode` holds exactly when some reason in the list carries the code. */
  lemma {:induction false} HasCodeWitness(reasons: seq<ScanReason>, code: string)
    ensures HasCode(reasons, code) <==> exists r :: r in reasons && r.code == code
  {
    if reasons != [] {
      HasCodeWitness(reasons[1..], code);
      assert forall r :: r in reasons <==> r == reasons[0] || r in reasons[1..];
    }
  }

  predicate WarnsOf(warnings: seq<ScanWarning>, code: string) {
    exists w :: w in warnings && w.code == code
  }

  /** The seven blocks of rules in `scoreResume`, in order. */
  datatype RulePhase = SectionPhase | ContactPhase | LinkPhase | SkillPhase | ExperiencePhase | ImpactPhase | PenaltyPhase

  /** The codes a block of rules can record. */
  function PhaseCodes(phase: RulePhase): set<string> {
    match phase
    case SectionPhase => {"SEC_EXPERIENCE_PRESENT", "SEC_PROJECTS_PRESENT", "SEC_SKILLS_PRESENT", "PENALTY_NO_SKILLS", "SEC_EDUCATION_PRESENT", "SEC_SUMMARY_PRESENT"}
    case ContactPhase => {"CONTACT_EMAIL", "PENALTY_NO_EMAIL", "CONTACT_LOCATION", "CONTACT_PHONE"}
    case LinkPhase => {"LINK_GITHUB", "LINK_PORTFOLIO", "LINK_LINKEDIN", "LINK_LIVE_PROJECT"}
    case SkillPhase => {"SKILL_CORE_MATCH", "PENALTY_NO_CORE_SKILLS", "SKILL_BONUS_MATCH"}
    case ExperiencePhase => {"EXP_UNKNOWN", "EXP_YEARS_0_1", "EXP_YEARS_1_3", "EXP_YEARS_3_6", "EXP_YEARS_6_PLUS"}
    case ImpactPhase => {"EXP_LEADERSHIP", "IMPACT_METRICS", "IMPACT_ACTION_VERBS", "IMPACT_SCALE"}
    case PenaltyPhase => {"PENALTY_SHORT", "PENALTY_LONG", "PENALTY_NO_PROJECTS"}
  }

  // Each block records only codes it owns.

  lemma SectionLacks(ev: Evidence, code: string)
    requires code !in PhaseCodes(SectionPhase)
    ensures !HasCode(SectionReasons(ev), code)
  {
    HasCodeWitness(SectionReasons(ev), code);
  }

  lemma ContactLacks(ev: Evidence, code: string)
    requires code !in PhaseCodes(ContactPhase)
    ensures !HasCode(ContactReasons(ev), code)
  {
    HasCodeWitness(ContactReasons(ev), code);
  }

  lemma LinkLacks(ev: Evidence, code: string)
    requires code !in PhaseCodes(LinkPhase)
    ensures !HasCode(LinkReasons(ev), code)
  {
    HasCodeWitness(LinkReasons(ev), code);
  }

  lemma SkillLacks(ev: Evidence, code: string)
    requires code !in PhaseCodes(SkillPhase)
    ensures !HasCode(SkillReasons(ev), code)
  {
    HasCodeWitness(SkillReasons(ev), code);
  }

  lemma ExperienceLacks(ev: Evidence, code: string)
    requires code !in PhaseCodes(ExperiencePhase)
    ensures !HasCode(ExperienceReasons(ev), code)
  {
    HasCodeWitness(ExperienceReasons(ev), code);
  }

  lemma ImpactLacks(ev: Evidence, code: string)
    requires code !in PhaseCodes(ImpactPhase)
    ensures !HasCode(ImpactReasons(ev), code)
  {
    HasCodeWitness(ImpactReasons(ev), code);
  }

  lemma PenaltyLacks(ev: Evidence, code: string)
    requires code !in PhaseCodes(PenaltyPhase)
    ensures !HasCode(PenaltyReasons(ev), code)
  {
    HasCodeWitness(PenaltyReasons(ev), code);
  }

  lemma HasCodeConcat(a: seq<ScanReason>, b: seq<ScanReason>, code: string)
    ensures HasCode(a + b, code) <==> HasCode(a, code) || HasCode(b, code)
  {
    HasCodeWitness(a, code);
    HasCodeWitness(b, code);
    HasCodeWitness(a + b, code);
    if HasCode(a, code) {
      var r :| r in a && r.code == code;
      assert r in a + b;
    }
    if HasCode(b, code) {
      var r :| r in b && r.code == code;
      assert r in a + b;
    }
  }

  /** A code is in seven concatenated blocks when it is in one of them. */
  lemma HasCodeInParts(a: seq<ScanReason>, b: seq<ScanReason>, c: seq<ScanReason>, d: seq<ScanReason>,
                       e: seq<ScanReason>, f: seq<ScanReason>, g: seq<ScanReason>, code: string)
    ensures HasCode(a + b + c + d + e + f + g, code) <==>
      HasCode(a, code) || HasCode(b, code) || HasCode(c, code) || HasCode(d, code)
      || HasCode(e, code) || HasCode(f, code) || HasCode(g, code)
  {
    HasCodeConcat(a, b, code);
    HasCodeConcat(a + b, c, code);
    HasCodeConcat(a + b + c, d, code);
    HasCodeConcat(a + b + c + d, e, code);
    HasCodeConcat(a + b + c + d + e, f, code);
    HasCodeConcat(a + b + c + d + e + f, g, code);
  }

  /** No other block owns a code of the section block. */
  lemma SectionCodesUnique(code: string)
    requires code in PhaseCodes(SectionPhase)
    ensures code !in PhaseCodes(ContactPhase)
    ensures code !in PhaseCodes(LinkPhase)
    ensures code !in PhaseCodes(SkillPhase)
    ensures code !in PhaseCodes(ExperiencePhase)
    ensures code !in PhaseCodes(ImpactPhase)
    ensures code !in PhaseCodes(PenaltyPhase)
  {
  }

  /** A code of the section block is recorded exactly when that block records it. */
  lemma OwnedBySection(ev: Evidence, code: string)
    requires code in PhaseCodes(SectionPhase)
    ensures HasCode(Reasons(ev), code) <==> HasCode(SectionReasons(ev), code)
  {
    SectionCodesUnique(code);
    ContactLacks(ev, code);
    LinkLacks(ev, code);
    SkillLacks(ev, code);
    ExperienceLacks(ev, code);
    ImpactLacks(ev, code);
    PenaltyLacks(ev, code);
    HasCodeInParts(SectionReasons(ev), ContactReasons(ev), LinkReasons(ev), SkillReasons(ev),
                   ExperienceReasons(ev), ImpactReasons(ev), PenaltyReasons(ev), code);
  }

  /** No other block owns a code of the contact block. */
  lemma ContactCodesUnique(code: string)
    requires code in PhaseCodes(ContactPhase)
    ensures code !in PhaseCodes(SectionPhase)
    ensures code !in PhaseCodes(LinkPhase)
    ensures code !in PhaseCodes(SkillPhase)
    ensures code !in PhaseCodes(ExperiencePhase)
    ensures code !in PhaseCodes(ImpactPhase)
    ensures code !in PhaseCodes(PenaltyPhase)
  {
  }

  /** A code of the contact block is recorded exactly when that block records it. */
  lemma OwnedByContact(ev: Evidence, code: string)
    requires code in PhaseCodes(ContactPhase)
    ensures HasCode(Reasons(ev), code) <==> HasCode(ContactReasons(ev), code)
  {
    ContactCodesUnique(code);
    SectionLacks(ev, code);
    LinkLacks(ev, code);
    SkillLacks(ev, code);
    ExperienceLacks(ev, code);
    ImpactLacks(ev, code);
    PenaltyLacks(ev, code);
    HasCodeInParts(SectionReasons(ev), ContactReasons(ev), LinkReasons(ev), SkillReasons(ev),
                   ExperienceReasons(ev), ImpactReasons(ev), PenaltyReasons(ev), code);
  }

  /** No other block owns a code of the link block. */
  lemma LinkCodesUnique(code: string)
    requires code in PhaseCodes(LinkPhase)
    ensures code !in PhaseCodes(SectionPhase)
    ensures code !in PhaseCodes(ContactPhase)
    ensures code !in PhaseCodes(SkillPhase)
    ensures code !in PhaseCodes(ExperiencePhase)
    ensures code !in PhaseCodes(ImpactPhase)
    ensures code !in PhaseCodes(PenaltyPhase)
  {
  }

  /** A code of the link block is recorded exactly when that block records it. */
  lemma OwnedByLink(ev: Evidence, code: string)
    requires code in PhaseCodes(LinkPhase)
    ensures HasCode(Reasons(ev), code) <==> HasCode(LinkReasons(ev), code)
  {
    LinkCodesUnique(code);
    SectionLacks(ev, code);
    ContactLacks(ev, code);
    SkillLacks(ev, code);
    ExperienceLacks(ev, code);
    ImpactLacks(ev, code);
    PenaltyLacks(ev, code);
    HasCodeInParts(SectionReasons(ev), ContactReasons(ev), LinkReasons(ev), SkillReasons(ev),
                   ExperienceReasons(ev), ImpactReasons(ev), PenaltyReasons(ev), code);
  }

  /** No other block owns a code of the skill block. */
  lemma SkillCodesUnique(code: string)
    requires code in PhaseCodes(SkillPhase)
    ensures code !in PhaseCodes(SectionPhase)
    ensures code !in PhaseCodes(ContactPhase)
    ensures code !in PhaseCodes(LinkPhase)
    ensures code !in PhaseCodes(ExperiencePhase)
    ensures code !in PhaseCodes(ImpactPhase)
    ensures code !in PhaseCodes(PenaltyPhase)
  {
  }

  /** A code of the skill block is recorded exactly when that block records it. */
  lemma OwnedBySkill(ev: Evidence, code: string)
    requires code in PhaseCodes(SkillPhase)
    ensures HasCode(Reasons(ev), code) <==> HasCode(SkillReasons(ev), code)
  {
    SkillCodesUnique(code);
    SectionLacks(ev, code);
    ContactLacks(ev, code);
    LinkLacks(ev, code);
    ExperienceLacks(ev, code);
    ImpactLacks(ev, code);
    PenaltyLacks(ev, code);
    HasCodeInParts(SectionReasons(ev), ContactReasons(ev), LinkReasons(ev), SkillReasons(ev),
                   ExperienceReasons(ev), ImpactReasons(ev), PenaltyReasons(ev), code);
  }

  /** No other block owns a code of the experience block. */
  lemma ExperienceCodesUnique(code: string)
    requires code in PhaseCodes(ExperiencePhase)
    ensures code !in PhaseCodes(SectionPhase)
    ensures code !in PhaseCodes(ContactPhase)
    ensures code !in PhaseCodes(LinkPhase)
    ensures code !in PhaseCodes(SkillPhase)
    ensures code !in PhaseCodes(ImpactPhase)
    ensures code !in PhaseCodes(PenaltyPhase)
  {
  }

  /** A code of the experience block is recorded exactly when that block records it. */
  lemma OwnedByExperience(ev: Evidence, code: string)
    requires code in PhaseCodes(ExperiencePhase)
    ensures HasCode(Reasons(ev), code) <==> HasCode(ExperienceReasons(ev), code)
  {
    ExperienceCodesUnique(code);
    SectionLacks(ev, code);
    ContactLacks(ev, code);
    LinkLacks(ev, code);
    SkillLacks(ev, code);
    ImpactLacks(ev, code);
    PenaltyLacks(ev, code);
    HasCodeInParts(SectionReasons(ev), ContactReasons(ev), LinkReasons(ev), SkillReasons(ev),
                   ExperienceReasons(ev), ImpactReasons(ev), PenaltyReasons(ev), code);
  }

  /** No other block owns a code of the impact block. */
  lemma ImpactCodesUnique(code: string)
    requires code in PhaseCodes(ImpactPhase)
    ensures code !in PhaseCodes(SectionPhase)
    ensures code !in PhaseCodes(ContactPhase)
    ensures code !in PhaseCodes(LinkPhase)
    ensures code !in PhaseCodes(SkillPhase)
    ensures code !in PhaseCodes(ExperiencePhase)
    ensures code !in PhaseCodes(PenaltyPhase)
  {
  }

  /** A code of the impact block is recorded exactly when that block records it. */
  lemma OwnedByImpact(ev: Evidence, code: string)
    requires code in PhaseCodes(ImpactPhase)
    ensures HasCode(Reasons(ev), code) <==> HasCode(ImpactReasons(ev), code)
  {
    ImpactCodesUnique(code);
    SectionLacks(ev, code);
    ContactLacks(ev, code);
    LinkLacks(ev, code);
    SkillLacks(ev, code);
    ExperienceLacks(ev, code);
    PenaltyLacks(ev, code);
    HasCodeInParts(SectionReasons(ev), ContactReasons(ev), LinkReasons(ev), SkillReasons(ev),
                   ExperienceReasons(ev), ImpactReasons(ev), PenaltyReasons(ev), code);
  }

  /** No other block owns a code of the penalty block. */
  lemma PenaltyCodesUnique(code: string)
    requires code in PhaseCodes(PenaltyPhase)
    ensures code !in PhaseCodes(SectionPhase)
    ensures code !in PhaseCodes(ContactPhase)
    ensures code !in PhaseCodes(LinkPhase)
    ensures code !in PhaseCodes(SkillPhase)
    ensures code !in PhaseCodes(ExperiencePhase)
    ensures code !in PhaseCodes(ImpactPhase)
  {
  }

  /** A code of the penalty block is recorded exactly when that block records it. */
  lemma OwnedByPenalty(ev: Evidence, code: string)
    requires code in PhaseCodes(PenaltyPhase)
    ensures HasCode(Reasons(ev), code) <==> HasCode(PenaltyReasons(ev), code)
  {
    PenaltyCodesUnique(code);
    SectionLacks(ev, code);
    ContactLacks(ev, code);
    LinkLacks(ev, code);
    SkillLacks(ev, code);
    ExperienceLacks(ev, code);
    ImpactLacks(ev, code);
    HasCodeInParts(SectionReasons(ev), ContactReasons(ev), LinkReasons(ev), SkillReasons(ev),
                   ExperienceReasons(ev), ImpactReasons(ev), PenaltyReasons(ev), code);
  }

  /** The score is the sum of the recorded reason weights clamped to 0..100, and its
      band is the one the thresholds give. */
  lemma ScoreIsClampedSum(ev: Evidence)
    ensures var scan := ScanFrom(ev);
      scan.overall.score == Clamp(TotalWeight(scan.reasons), 0, 100)
      && 0 <= scan.overall.score <= 100
      && scan.overall.band == BandFor(scan.overall.score)
  {
  }

  /** Within the contact block the email rule is all-or-nothing. */
  lemma ContactBlockEmail(ev: Evidence)
    ensures HasCode(ContactReasons(ev), "CONTACT_EMAIL") <==> ev.contact.email
    ensures HasCode(ContactReasons(ev), "PENALTY_NO_EMAIL") <==> !ev.contact.email
  {
    HasCodeWitness(ContactReasons(ev), "CONTACT_EMAIL");
    HasCodeWitness(ContactReasons(ev), "PENALTY_NO_EMAIL");
    if ev.contact.email {
      assert CONTACT_EMAIL in ContactReasons(ev);
    } else {
      assert NO_EMAIL in ContactReasons(ev);
    }
  }

  /** The email rule is all-or-nothing: a bonus with an address, a −20 penalty without. */
  lemma EmailRule(ev: Evidence)
    ensures HasCode(Reasons(ev), "CONTACT_EMAIL") <==> ev.contact.email
    ensures HasCode(Reasons(ev), "PENALTY_NO_EMAIL") <==> !ev.contact.email
  {
    OwnedByContact(ev, "CONTACT_EMAIL");
    OwnedByContact(ev, "PENALTY_NO_EMAIL");
    ContactBlockEmail(ev);
  }

  lemma SectionBlockSkills(ev: Evidence)
    ensures HasCode(SectionReasons(ev), "SEC_SKILLS_PRESENT") <==> Skills in ev.sections
    ensures HasCode(SectionReasons(ev), "PENALTY_NO_SKILLS") <==> Skills !in ev.sections
  {
    HasCodeWitness(SectionReasons(ev), "SEC_SKILLS_PRESENT");
    HasCodeWitness(SectionReasons(ev), "PENALTY_NO_SKILLS");
    if Skills in ev.sections {
      assert SKILLS_PRESENT in SectionReasons(ev);
    } else {
      assert NO_SKILLS in SectionReasons(ev);
    }
  }

  /** Skills section: a bonus when detected, a −6 penalty otherwise. */
  lemma SkillsSectionRule(ev: Evidence)
    ensures HasCode(Reasons(ev), "SEC_SKILLS_PRESENT") <==> Skills in ev.sections
    ensures HasCode(Reasons(ev), "PENALTY_NO_SKILLS") <==> Skills !in ev.sections
  {
    OwnedBySection(ev, "SEC_SKILLS_PRESENT");
    OwnedBySection(ev, "PENALTY_NO_SKILLS");
    SectionBlockSkills(ev);
  }

  lemma LinkBlock(ev: Evidence)
    ensures HasCode(LinkReasons(ev), "LINK_GITHUB") <==> ev.links.github
    ensures HasCode(LinkReasons(ev), "LINK_PORTFOLIO") <==> ev.links.portfolio
    ensures HasCode(LinkReasons(ev), "LINK_LINKEDIN") <==> ev.links.linkedin
    ensures HasCode(LinkReasons(ev), "LINK_LIVE_PROJECT") <==> ev.links.liveProject
  {
    LinkBlockOne(ev, LINK_GITHUB, ev.links.github);
    LinkBlockOne(ev, LINK_PORTFOLIO, ev.links.portfolio);
    LinkBlockOne(ev, LINK_LINKEDIN, ev.links.linkedin);
    LinkBlockOne(ev, LINK_LIVE_PROJECT, ev.links.liveProject);
  }

  lemma LinkBlockOne(ev: Evidence, reason: ScanReason, detected: bool)
    requires reason in [LINK_GITHUB, LINK_PORTFOLIO, LINK_LINKEDIN, LINK_LIVE_PROJECT]
    requires detected <==> reason in LinkReasons(ev)
    ensures HasCode(LinkReasons(ev), reason.code) <==> detected
  {
    HasCodeWitness(LinkReasons(ev), reason.code);
  }

  /** Each kind of link is rewarded exactly when it was detected. */
  lemma LinkRule(ev: Evidence)
    ensures HasCode(Reasons(ev), "LINK_GITHUB") <==> ev.links.github
    ensures HasCode(Reasons(ev), "LINK_PORTFOLIO") <==> ev.links.portfolio
    ensures HasCode(Reasons(ev), "LINK_LINKEDIN") <==> ev.links.linkedin
    ensures HasCode(Reasons(ev), "LINK_LIVE_PROJECT") <==> ev.links.liveProject
  {
    LinkBlock(ev);
    OwnedByLink(ev, "LINK_GITHUB");
    OwnedByLink(ev, "LINK_PORTFOLIO");
    OwnedByLink(ev, "LINK_LINKEDIN");
    OwnedByLink(ev, "LINK_LIVE_PROJECT");
  }

  lemma SkillBlockCore(ev: Evidence)
    ensures HasCode(SkillReasons(ev), "SKILL_CORE_MATCH") <==> ev.skills.matchedCoreCount > 0
    ensures HasCode(SkillReasons(ev), "PENALTY_NO_CORE_SKILLS") <==> ev.skills.matchedCoreCount == 0
  {
    HasCodeWitness(SkillReasons(ev), "SKILL_CORE_MATCH");
    HasCodeWitness(SkillReasons(ev), "PENALTY_NO_CORE_SKILLS");
    if ev.skills.matchedCoreCount > 0 {
      assert CoreSkillMatch(ev) in SkillReasons(ev);
    } else {
      assert NO_CORE_SKILLS in SkillReasons(ev);
    }
  }

  /** Core skills: a reward when any matched, a −8 penalty when none did. */
  lemma CoreSkillRule(ev: Evidence)
    ensures HasCode(Reasons(ev), "SKILL_CORE_MATCH") <==> ev.skills.matchedCoreCount > 0
    ensures HasCode(Reasons(ev), "PENALTY_NO_CORE_SKILLS") <==> ev.skills.matchedCoreCount == 0
  {
    OwnedBySkill(ev, "SKILL_CORE_MATCH");
    OwnedBySkill(ev, "PENALTY_NO_CORE_SKILLS");
    SkillBlockCore(ev);
  }

  /** The core-skill reward is three points per matched core skill, capped at 18,
      and its detail names the count. */
  lemma CoreSkillPointsRule(ev: Evidence)
    requires ev.skills.matchedCoreCount > 0
    ensures SkillReasons(ev)[0].weight == (if ev.skills.matchedCoreCount >= 6 then 18 else 3 * ev.skills.matchedCoreCount)
    ensures 3 <= SkillReasons(ev)[0].weight <= 18
    ensures SkillReasons(ev)[0].detail == NatToString(ev.skills.matchedCoreCount) + " core skills matched"
  {
  }

  lemma SkillBlockBonus(ev: Evidence)
    ensures HasCode(SkillReasons(ev), "SKILL_BONUS_MATCH") <==> ev.skills.matchedBonusCount > 0
  {
    HasCodeWitness(SkillReasons(ev), "SKILL_BONUS_MATCH");
    if ev.skills.matchedBonusCount > 0 {
      assert BonusSkillMatch(ev) in SkillReasons(ev);
    }
  }

  /** Bonus skills are rewarded exactly when any matched. */
  lemma BonusSkillRule(ev: Evidence)
    ensures HasCode(Reasons(ev), "SKILL_BONUS_MATCH") <==> ev.skills.matchedBonusCount > 0
  {
    OwnedBySkill(ev, "SKILL_BONUS_MATCH");
    SkillBlockBonus(ev);
  }

  /** The bonus-skill reward is one point per matched bonus skill, capped at 7, comes
      last in the skill block, and its detail names the count. */
  lemma BonusSkillPointsRule(ev: Evidence)
    requires ev.skills.matchedBonusCount > 0
    ensures var last := SkillReasons(ev)[|SkillReasons(ev)| - 1];
      && |SkillReasons(ev)| == 2
      && last.code == "SKILL_BONUS_MATCH"
      && last.weight == (if ev.skills.matchedBonusCount >= 7 then 7 else ev.skills.matchedBonusCount)
      && 1 <= last.weight <= 7
      && last.detail == NatToString(ev.skills.matchedBonusCount) + " bonus skills matched"
  {
  }

  /** The one experience reason names the bracket the years estimate falls in. */
  lemma ExperienceBlock(ev: Evidence)
    ensures |ExperienceReasons(ev)| == 1
    ensures HasCode(ExperienceReasons(ev), "EXP_UNKNOWN") <==> ev.yearsEstimate.None?
    ensures HasCode(ExperienceReasons(ev), "EXP_YEARS_0_1") <==> (ev.yearsEstimate.Some? && ev.yearsEstimate.value < 1)
    ensures HasCode(ExperienceReasons(ev), "EXP_YEARS_1_3") <==> (ev.yearsEstimate.Some? && 1 <= ev.yearsEstimate.value < 3)
    ensures HasCode(ExperienceReasons(ev), "EXP_YEARS_3_6") <==> (ev.yearsEstimate.Some? && 3 <= ev.yearsEstimate.value < 6)
    ensures HasCode(ExperienceReasons(ev), "EXP_YEARS_6_PLUS") <==> (ev.yearsEstimate.Some? && ev.yearsEstimate.value >= 6)
  {
    HasCodeWitness(ExperienceReasons(ev), "EXP_UNKNOWN");
    HasCodeWitness(ExperienceReasons(ev), "EXP_YEARS_0_1");
    HasCodeWitness(ExperienceReasons(ev), "EXP_YEARS_1_3");
    HasCodeWitness(ExperienceReasons(ev), "EXP_YEARS_3_6");
    HasCodeWitness(ExperienceReasons(ev), "EXP_YEARS_6_PLUS");
    var r := ExperienceReason(ev.yearsEstimate);
    assert r in ExperienceReasons(ev);
  }

  /** Exactly one experience bracket is recorded, the one the years estimate falls in;
      the timeframe is unknown exactly when no estimate was made. */
  lemma ExperienceRule(ev: Evidence)
    ensures HasCode(Reasons(ev), "EXP_UNKNOWN") <==> ev.yearsEstimate.None?
    ensures HasCode(Reasons(ev), "EXP_YEARS_0_1") <==> (ev.yearsEstimate.Some? && ev.yearsEstimate.value < 1)
    ensures HasCode(Reasons(ev), "EXP_YEARS_1_3") <==> (ev.yearsEstimate.Some? && 1 <= ev.yearsEstimate.value < 3)
    ensures HasCode(Reasons(ev), "EXP_YEARS_3_6") <==> (ev.yearsEstimate.Some? && 3 <= ev.yearsEstimate.value < 6)
    ensures HasCode(Reasons(ev), "EXP_YEARS_6_PLUS") <==> (ev.yearsEstimate.Some? && ev.yearsEstimate.value >= 6)
  {
    OwnedByExperience(ev, "EXP_UNKNOWN");
    OwnedByExperience(ev, "EXP_YEARS_0_1");
    OwnedByExperience(ev, "EXP_YEARS_1_3");
    OwnedByExperience(ev, "EXP_YEARS_3_6");
    OwnedByExperience(ev, "EXP_YEARS_6_PLUS");
    ExperienceBlock(ev);
  }

  /** A later bracket never weighs less than an earlier one. */
  lemma ExperienceWeightMonotone(y1: int, y2: int)
    requires y1 <= y2
    ensures ExperienceReason(Some(y1)).weight <= ExperienceReason(Some(y2)).weight
  {
  }

  /** The experience warning accompanies exactly the unknown timeframe. */
  lemma ExperienceWarningRule(ev: Evidence)
    ensures WarnsOf(Warnings(ev), "EXP_UNCERTAIN") <==> ev.yearsEstimate.None?
  {
    if ev.yearsEstimate.None? {
      assert ScanWarning("EXP_UNCERTAIN", "Could not estimate years of experience") in Warnings(ev);
    }
  }

  lemma PenaltyBlock(ev: Evidence)
    ensures HasCode(PenaltyReasons(ev), "PENALTY_SHORT") <==> ev.wordCount < 200
    ensures HasCode(PenaltyReasons(ev), "PENALTY_LONG") <==> ev.wordCount > 1200
    ensures HasCode(PenaltyReasons(ev), "PENALTY_NO_PROJECTS") <==> (Projects !in ev.sections && !ev.links.github)
  {
    HasCodeWitness(PenaltyReasons(ev), "PENALTY_SHORT");
    HasCodeWitness(PenaltyReasons(ev), "PENALTY_LONG");
    HasCodeWitness(PenaltyReasons(ev), "PENALTY_NO_PROJECTS");
    if ev.wordCount < 200 {
      assert SHORT in PenaltyReasons(ev);
    }
    if ev.wordCount > 1200 {
      assert LONG in PenaltyReasons(ev);
    }
    if Projects !in ev.sections && !ev.links.github {
      assert NO_PROJECTS in PenaltyReasons(ev);
    }
  }

  /** The length penalties: under 200 words, over 1200 words; never both. */
  lemma LengthRule(ev: Evidence)
    ensures HasCode(Reasons(ev), "PENALTY_SHORT") <==> ev.wordCount < 200
    ensures HasCode(Reasons(ev), "PENALTY_LONG") <==> ev.wordCount > 1200
    ensures !(HasCode(Reasons(ev), "PENALTY_SHORT") && HasCode(Reasons(ev), "PENALTY_LONG"))
  {
    OwnedByPenalty(ev, "PENALTY_SHORT");
    OwnedByPenalty(ev, "PENALTY_LONG");
    PenaltyBlock(ev);
  }

  /** Either a projects section or a GitHub link avoids the −10 projects penalty. */
  lemma NoProjectsRule(ev: Evidence)
    ensures HasCode(Reasons(ev), "PENALTY_NO_PROJECTS") <==> (Projects !in ev.sections && !ev.links.github)
  {
    OwnedByPenalty(ev, "PENALTY_NO_PROJECTS");
    PenaltyBlock(ev);
  }

  /** A missing location or phone is reported as a warning instead. */
  lemma ContactGapsAreWarnings(ev: Evidence)
    ensures WarnsOf(Warnings(ev), "NO_LOCATION") <==> !ev.contact.location
    ensures WarnsOf(Warnings(ev), "NO_PHONE") <==> !ev.contact.phone
  {
    if !ev.contact.location {
      assert ScanWarning("NO_LOCATION", "No location detected") in Warnings(ev);
    }
    if !ev.contact.phone {
      assert ScanWarning("NO_PHONE", "No phone number detected") in Warnings(ev);
    }
  }

  /** The reasons weigh what their seven blocks weigh. */
  lemma ReasonsWeight(ev: Evidence)
    ensures TotalWeight(Reasons(ev)) ==
      TotalWeight(SectionReasons(ev)) + TotalWeight(ContactReasons(ev)) + TotalWeight(LinkReasons(ev))
      + TotalWeight(SkillReasons(ev)) + TotalWeight(ExperienceReasons(ev)) + TotalWeight(ImpactReasons(ev))
      + TotalWeight(PenaltyReasons(ev))
  {
    var a, b, c, d := SectionReasons(ev), ContactReasons(ev), LinkReasons(ev), SkillReasons(ev);
    var e, f, g := ExperienceReasons(ev), ImpactReasons(ev), PenaltyReasons(ev);
    TotalWeightConcat(a, b);
    TotalWeightConcat(a + b, c);
    TotalWeightConcat(a + b + c, d);
    TotalWeightConcat(a + b + c + d, e);
    TotalWeightConcat(a + b + c + d + e, f);
    TotalWeightConcat(a + b + c + d + e + f, g);
  }

  /** The contact block weighs +2 or −20 for the email, and +1 each for a location and a phone. */
  lemma ContactWeight(ev: Evidence)
    ensures TotalWeight(ContactReasons(ev)) ==
      (if ev.contact.email then 2 else -20) + (if ev.contact.location then 1 else 0) + (if ev.contact.phone then 1 else 0)
  {
    var a := Either(ev.contact.email, CONTACT_EMAIL, NO_EMAIL);
    var b := When(ev.contact.location, CONTACT_LOCATION);
    var c := When(ev.contact.phone, CONTACT_PHONE);
    TotalWeightConcat(a, b);
    TotalWeightConcat(a + b, c);
    assert TotalWeight(a) == (if ev.contact.email then 2 else -20) by {
      assert a[..|a| - 1] == [];
    }
    assert TotalWeight(b) == (if ev.contact.location then 1 else 0) by {
      if ev.contact.location { assert b[..|b| - 1] == []; }
    }
    assert TotalWeight(c) == (if ev.contact.phone then 1 else 0) by {
      if ev.contact.phone { assert c[..|c| - 1] == []; }
    }
  }

  /** Only the contact block reads the contact evidence. */
  lemma OnlyContactBlockReadsContact(ev: Evidence, other: Evidence)
    requires other == ev.(contact := other.contact)
    ensures TotalWeight(Reasons(other)) - TotalWeight(ContactReasons(other))
      == TotalWeight(Reasons(ev)) - TotalWeight(ContactReasons(ev))
  {
    assert other.sections == ev.sections && other.links == ev.links && other.skills == ev.skills;
    assert other.yearsEstimate == ev.yearsEstimate && other.seniority == ev.seniority;
    assert other.wordCount == ev.wordCount && other.metricsMentions == ev.metricsMentions;
    assert other.actionVerbCount == ev.actionVerbCount && other.leadershipMentions == ev.leadershipMentions;
    assert other.scaleMentioned == ev.scaleMentioned;
    assert SectionReasons(other) == SectionReasons(ev);
    assert LinkReasons(other) == LinkReasons(ev);
    assert SkillReasons(other) == SkillReasons(ev);
    assert ExperienceReasons(other) == ExperienceReasons(ev);
    assert ImpactReasons(other) == ImpactReasons(ev);
    assert PenaltyReasons(other) == PenaltyReasons(ev);
    ReasonsWeight(ev);
    ReasonsWeight(other);
  }

  /** A missing location or phone costs no penalty: the raw score only forgoes the
      +1 it would have earned, and every other reason weighs the same. */
  lemma ContactGapsCostNoPenalty(ev: Evidence)
    ensures var without := ev.(contact := ev.contact.(location := false));
      var with := ev.(contact := ev.contact.(location := true));
      TotalWeight(Reasons(without)) == TotalWeight(Reasons(with)) - 1
    ensures var without := ev.(contact := ev.contact.(phone := false));
      var with := ev.(contact := ev.contact.(phone := true));
      TotalWeight(Reasons(without)) == TotalWeight(Reasons(with)) - 1
  {
    var e1 := ev.(contact := ev.contact.(location := false));
    var e2 := ev.(contact := ev.contact.(location := true));
    var e3 := ev.(contact := ev.contact.(phone := false));
    var e4 := ev.(contact := ev.contact.(phone := true));
    OnlyContactBlockReadsContact(e1, e2);
    OnlyContactBlockReadsContact(e3, e4);
    ContactWeight(e1);
    ContactWeight(e2);
    ContactWeight(e3);
    ContactWeight(e4);
  }

  /** The only negative reason of the contact block is the missing email's. */
  lemma ContactPenaltyIsEmailOnly(ev: Evidence)
    ensures forall r :: r in ContactReasons(ev) && r.weight < 0 ==> r == NO_EMAIL
  {
    var a := Either(ev.contact.email, CONTACT_EMAIL, NO_EMAIL);
    var b := When(ev.contact.location, CONTACT_LOCATION);
    var c := When(ev.contact.phone, CONTACT_PHONE);
    assert ContactReasons(ev) == a + b + c;
    forall r: ScanReason | r in a + b + c && r.weight < 0
      ensures r == NO_EMAIL
    {
      assert r in a || r in b || r in c;
    }
  }

  /** The empty-text warning is recorded exactly for blank text, and then last. */
  lemma EmptyResumeWarning(ev: Evidence)
    ensures WarnsOf(Warnings(ev), "EMPTY_RESUME") <==> ev.normalizedEmpty
    ensures ev.normalizedEmpty ==> Warnings(ev)[|Warnings(ev)| - 1] == ScanWarning("EMPTY_RESUME", "No readable text detected")
  {
    if ev.normalizedEmpty {
      assert ScanWarning("EMPTY_RESUME", "No readable text detected") in Warnings(ev);
    }
  }
}
