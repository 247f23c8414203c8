/** The scorer's helpers (lib/services/resume-scoring/helpers.ts): match
    counting, section detection, the years estimate, the seniority guess,
    skill extraction, and the reason and warning log. */
module ScoringHelpers {
  import opened Wrappers
  import opened Text
  import opened Regex
  import opened ScoringTypes
  import opened ScoringConstants

  /** `countMatches`: the number of matches, or 0 when `match` gives null. */
  function CountMatches(engine: RegexEngine, text: string, matcher: RegExp): nat {
    var matches := engine.matches(matcher, text);
    if matches.Some? then |matches.value| else 0
  }

  // --------------------------------------------------------- sections

  /** `matchers.some((matcher) => matcher.test(text))` */
  predicate AnyTest(engine: RegexEngine, matchers: seq<RegExp>, text: string) {
    matchers != [] && (engine.test(matchers[0], text) || AnyTest(engine, matchers[1..], text))
  }

  /** The position of a section in `SECTION_MATCHERS`. */
  function SectionRank(section: ResumeSection): nat {
    match section
    case Experience => 0
    case Projects => 1
    case Skills => 2
    case Education => 3
    case Summary => 4
  }

  predicate RankIncreasing(sections: seq<ResumeSection>) {
    forall i, j :: 0 <= i < j < |sections| ==> SectionRank(sections[i]) < SectionRank(sections[j])
  }

  lemma RankIncreasingTail(order: seq<ResumeSection>)
    requires order != [] && RankIncreasing(order)
    ensures RankIncreasing(order[1..])
    ensures forall s :: s in order[1..] ==> SectionRank(order[0]) < SectionRank(s)
  {
    forall s | s in order[1..] ensures SectionRank(order[0]) < SectionRank(s) {
      var k :| 0 <= k < |order[1..]| && order[1..][k] == s;
      assert order[k + 1] == s;
    }
  }

  lemma RankIncreasingCons(first: ResumeSection, rest: seq<ResumeSection>)
    requires RankIncreasing(rest)
    requires forall s :: s in rest ==> SectionRank(first) < SectionRank(s)
    ensures RankIncreasing([first] + rest)
  {
    var r := [first] + rest;
    forall i, j | 0 <= i < j < |r| ensures SectionRank(r[i]) < SectionRank(r[j]) {
      assert r[j] == rest[j - 1] && r[j] in rest;
      if i > 0 { assert r[i] == rest[i - 1]; }
    }
  }

  /** The `filter` over the entries of `SECTION_MATCHERS`. */
  function FiringSections(engine: RegexEngine, text: string, order: seq<ResumeSection>): (r: seq<ResumeSection>)
    requires RankIncreasing(order)
    ensures forall s :: s in r <==> s in order && AnyTest(engine, SectionMatchers(s), text)
    ensures RankIncreasing(r)
  {
    if order == [] then []
    else
      RankIncreasingTail(order);
      var rest := FiringSections(engine, text, order[1..]);
      if AnyTest(engine, SectionMatchers(order[0]), text) then
        RankIncreasingCons(order[0], rest);
        [order[0]] + rest
      else rest
  }

  /** `detectSections`: each section at most once, in the order experience,
      projects, skills, education, summary, exactly when one of its matchers fires. */
  function DetectSections(engine: RegexEngine, text: string): (r: seq<ResumeSection>)
    ensures forall s :: s in r <==> AnyTest(engine, SectionMatchers(s), text)
    ensures forall i, j :: 0 <= i < j < |r| ==> SectionRank(r[i]) < SectionRank(r[j])
    ensures |r| <= 5
  {
    assert RankIncreasing(SECTION_ORDER);
    forall s: ResumeSection ensures s in SECTION_ORDER {
      assert SECTION_ORDER[SectionRank(s)] == s;
    }
    var sections := FiringSections(engine, text, SECTION_ORDER);
    RankIncreasingBounded(sections);
    if |sections| > 0 then sections else []
  }

  /** A rank-increasing list holds each of the five sections at most once. */
  lemma RankIncreasingBounded(sections: seq<ResumeSection>)
    requires RankIncreasing(sections)
    ensures |sections| <= 5
  {
    if sections != [] {
      RankAtLeastIndex(sections, |sections| - 1);
    }
  }

  lemma {:induction false} RankAtLeastIndex(sections: seq<ResumeSection>, i: nat)
    requires RankIncreasing(sections) && i < |sections|
    ensures SectionRank(sections[i]) >= i
  {
    if i > 0 {
      RankAtLeastIndex(sections, i - 1);
    }
  }

  // ---------------------------------------------------------- years

  function SeqMin(xs: seq<int>): (m: int)
    requires |xs| >= 1
    ensures m in xs
    ensures forall i :: 0 <= i < |xs| ==> m <= xs[i]
  {
    if |xs| == 1 then xs[0]
    else
      var rest := SeqMin(xs[1..]);
      assert forall i :: 1 <= i < |xs| ==> xs[i] == xs[1..][i - 1];
      if xs[0] <= rest then xs[0] else rest
  }

  function SeqMax(xs: seq<int>): (m: int)
    requires |xs| >= 1
    ensures m in xs
    ensures forall i :: 0 <= i < |xs| ==> xs[i] <= m
  {
    if |xs| == 1 then xs[0]
    else
      var rest := SeqMax(xs[1..]);
      assert forall i :: 1 <= i < |xs| ==> xs[i] == xs[1..][i - 1];
      if rest <= xs[0] then xs[0] else rest
  }

  /** `estimateYears` over the years the year pattern finds in the text:
      the span between the earliest and the latest year, or none. */
  function EstimateYears(years: seq<int>): (r: Option<int>)
    ensures |years| < 2 ==> r.None?
    ensures r.Some? ==> 1 <= r.value <= 45
  {
    if |years| < 2 then None
    else
      var span := SeqMax(years) - SeqMin(years);
      if span <= 0 || span > 45 then None else Some(span)
  }

  /** The estimate is the widest gap between two of the years, when there are
      at least two years and that gap is between 1 and 45; otherwise none. */
  lemma EstimateYearsIsWidestSpan(years: seq<int>)
    ensures var r := EstimateYears(years);
      r.Some? <==> (|years| >= 2
        && (exists i, j :: 0 <= i < |years| && 0 <= j < |years| && years[j] - years[i] > 0)
        && (forall i, j :: 0 <= i < |years| && 0 <= j < |years| ==> years[j] - years[i] <= 45))
    ensures var r := EstimateYears(years);
      r.Some? ==> ((forall i, j :: 0 <= i < |years| && 0 <= j < |years| ==> years[j] - years[i] <= r.value)
        && (exists i, j :: 0 <= i < |years| && 0 <= j < |years| && years[j] - years[i] == r.value))
  {
    if |years| >= 2 {
      var lo, hi := SeqMin(years), SeqMax(years);
      var i :| 0 <= i < |years| && years[i] == lo;
      var j :| 0 <= j < |years| && years[j] == hi;
      assert years[j] - years[i] == hi - lo;
    }
  }

  /** `determineSeniority`: a missing or zero estimate is unknown. */
  function DetermineSeniority(years: Option<int>): Seniority {
    if years.None? || years.value == 0 then Unknown
    else if years.value < 1 then Junior
    else if years.value < 3 then Junior
    else if years.value < 6 then Mid
    else Senior
  }

  /** Applied to an estimate, the guess is unknown exactly when there is no
      estimate, junior below 3 years, mid below 6, and senior from 6 on. */
  lemma SeniorityOfEstimate(years: seq<int>)
    ensures var y := EstimateYears(years);
      && (DetermineSeniority(y) == Unknown <==> y.None?)
      && (DetermineSeniority(y) == Junior <==> y.Some? && y.value < 3)
      && (DetermineSeniority(y) == Mid <==> y.Some? && 3 <= y.value < 6)
      && (DetermineSeniority(y) == Senior <==> y.Some? && y.value >= 6)
  {
  }

  // ---------------------------------------------------------- skills

  /** The lower-cased text contains the lower-cased skill. */
  predicate Mentioned(normalized: string, skill: string) {
    Contains(normalized, ToLower(skill))
  }

  /** `skills.filter((skill) => normalized.includes(skill.toLowerCase()))` */
  function MatchedSkills(normalized: string, skills: seq<string>): (r: seq<string>)
    ensures |r| <= |skills|
    ensures forall s :: s in r <==> s in skills && Mentioned(normalized, s)
  {
    if skills == [] then []
    else (if Mentioned(normalized, skills[0]) then [skills[0]] else []) + MatchedSkills(normalized, skills[1..])
  }

  /** Matching keeps the list's order: the matches of a concatenation are the matches of
      its first part followed by those of its second. */
  lemma {:induction false} MatchedSkillsAppend(normalized: string, a: seq<string>, b: seq<string>)
    ensures MatchedSkills(normalized, a + b) == MatchedSkills(normalized, a) + MatchedSkills(normalized, b)
  {
    if a != [] {
      assert (a + b)[0] == a[0];
      assert (a + b)[1..] == a[1..] + b;
      MatchedSkillsAppend(normalized, a[1..], b);
    } else {
      assert a + b == b;
    }
  }

  /** A single skill is kept exactly when the text mentions it. */
  lemma MatchedSkillsSingle(normalized: string, skill: string)
    ensures MatchedSkills(normalized, [skill]) == if Mentioned(normalized, skill) then [skill] else []
  {
    assert [skill][1..] == [];
  }

  /** The skills of the list that the text does not mention. */
  function UnmatchedSkills(normalized: string, skills: seq<string>): seq<string> {
    if skills == [] then []
    else (if Mentioned(normalized, skills[0]) then [] else [skills[0]]) + UnmatchedSkills(normalized, skills[1..])
  }

  /** `skills.filter((skill) => !found.includes(skill))` */
  function NotFound(skills: seq<string>, found: seq<string>): seq<string> {
    if skills == [] then []
    else (if skills[0] in found then [] else [skills[0]]) + NotFound(skills[1..], found)
  }

  lemma {:induction false} MatchedPlusUnmatched(normalized: string, skills: seq<string>)
    ensures |MatchedSkills(normalized, skills)| + |UnmatchedSkills(normalized, skills)| == |skills|
  {
    if skills != [] {
      MatchedPlusUnmatched(normalized, skills[1..]);
    }
  }

  lemma {:induction false} NotFoundIsUnmatched(normalized: string, skills: seq<string>, found: seq<string>)
    requires forall s :: s in skills ==> (s in found <==> Mentioned(normalized, s))
    ensures NotFound(skills, found) == UnmatchedSkills(normalized, skills)
  {
    if skills != [] {
      assert skills[0] in skills;
      assert forall s :: s in skills[1..] ==> s in skills;
      NotFoundIsUnmatched(normalized, skills[1..], found);
    }
  }

  datatype SkillMatch = SkillMatch(matched: seq<string>, missingCore: seq<string>, matchedCoreCount: nat, matchedBonusCount: nat)

  /** `extractSkills`: the matched core skills then the matched bonus skills,
      and the core skills the text does not mention. A missing track means full-stack. */
  function ExtractSkills(text: string, track: Option<ResumeTrack>): (r: SkillMatch)
    ensures var bank := TrackSkills(track.GetOr(DEFAULT_TRACK)); var normalized := ToLower(text);
      && r.matchedCoreCount + |r.missingCore| == |bank.core|
      && r.matchedCoreCount + r.matchedBonusCount == |r.matched|
      && (forall s :: s in r.matched[..r.matchedCoreCount] <==> s in bank.core && Mentioned(normalized, s))
      && (forall s :: s in r.matched[r.matchedCoreCount..] <==> s in bank.bonus && Mentioned(normalized, s))
      && (forall s :: s in r.missingCore <==> s in bank.core && !Mentioned(normalized, s))
      && r.matched == MatchedSkills(normalized, bank.core) + MatchedSkills(normalized, bank.bonus)
      && r.missingCore == UnmatchedSkills(normalized, bank.core)
  {
    var bank := TrackSkills(track.GetOr(DEFAULT_TRACK));
    var normalized := ToLower(text);
    var matchedCore := MatchedSkills(normalized, bank.core);
    var matchedBonus := MatchedSkills(normalized, bank.bonus);
    var matched := matchedCore + matchedBonus;
    var missingCore := NotFound(bank.core, matchedCore);
    NotFoundIsUnmatched(normalized, bank.core, matchedCore);
    MatchedPlusUnmatched(normalized, bank.core);
    UnmatchedMembers(normalized, bank.core);
    assert matched[..|matchedCore|] == matchedCore;
    assert matched[|matchedCore|..] == matchedBonus;
    SkillMatch(matched, missingCore, |matchedCore|, |matchedBonus|)
  }

  lemma {:induction false} UnmatchedMembers(normalized: string, skills: seq<string>)
    ensures forall s :: s in UnmatchedSkills(normalized, skills) <==> s in skills && !Mentioned(normalized, s)
  {
    if skills != [] {
      UnmatchedMembers(normalized, skills[1..]);
      assert skills == [skills[0]] + skills[1..];
    }
  }

  // -------------------------------------------------------- reason log

  /** `buildReasons`: the two arrays the scorer owns, and the `addReason` and
      `addWarning` callbacks that push onto them. */
  class ReasonLog {
    var reasons: seq<ScanReason>
    var warnings: seq<ScanWarning>

    constructor(reasons: seq<ScanReason>, warnings: seq<ScanWarning>)
      ensures this.reasons == reasons && this.warnings == warnings
    {
      this.reasons := reasons;
      this.warnings := warnings;
    }

    /** `addReason`: one record at the end of the reasons; the warnings stay. */
    method AddReason(code: string, weight: int, detail: string)
      modifies this
      ensures reasons == old(reasons) + [ScanReason(code, weight, detail)]
      ensures warnings == old(warnings)
    {
      reasons := reasons + [ScanReason(code, weight, detail)];
    }

    /** `addWarning`: one record at the end of the warnings; the reasons stay. */
    method AddWarning(code: string, detail: string)
      modifies this
      ensures warnings == old(warnings) + [ScanWarning(code, detail)]
      ensures reasons == old(reasons)
    {
      warnings := warnings + [ScanWarning(code, detail)];
    }
  }
}
