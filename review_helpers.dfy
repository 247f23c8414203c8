/** The review assembler's helpers (lib/review-service/helpers.ts): the summary
    line, the highlights, the improvements and the verdict, all computed from a
    `ScanResult`. */
module ReviewHelpers {
  import opened Text
  import opened ScoringTypes

  // ------------------------------------------------------------ stable sort

  /** `key` never decreases along `s`. */
  ghost predicate SortedBy(s: seq<ScanReason>, key: ScanReason -> int) {
    forall i, j :: 0 <= i < j < |s| ==> key(s[i]) <= key(s[j])
  }

  /** Inserts `x` after every element whose key is at most `x`'s, so equal keys keep
      their arrival order. */
  function Insert(sorted: seq<ScanReason>, x: ScanReason, key: ScanReason -> int): seq<ScanReason> {
    if sorted == [] then [x]
    else if key(sorted[|sorted| - 1]) <= key(x) then sorted + [x]
    else Insert(sorted[..|sorted| - 1], x, key) + [sorted[|sorted| - 1]]
  }

  /** `[...s].sort((a, b) => key(a) - key(b))`: JavaScript's sort is stable, so this
      is an insertion sort that never moves an element past an equal one. */
  function SortBy(s: seq<ScanReason>, key: ScanReason -> int): seq<ScanReason> {
    if s == [] then [] else Insert(SortBy(s[..|s| - 1], key), s[|s| - 1], key)
  }

  /** The elements of `s` whose key is `k`, in the order `s` lists them. */
  function KeyRun(s: seq<ScanReason>, key: ScanReason -> int, k: int): seq<ScanReason> {
    if s == [] then []
    else KeyRun(s[..|s| - 1], key, k) + (if key(s[|s| - 1]) == k then [s[|s| - 1]] else [])
  }

  lemma {:induction false} InsertPermutes(sorted: seq<ScanReason>, x: ScanReason, key: ScanReason -> int)
    ensures multiset(Insert(sorted, x, key)) == multiset(sorted) + multiset{x}
  {
    if sorted != [] && key(sorted[|sorted| - 1]) > key(x) {
      var init, last := sorted[..|sorted| - 1], sorted[|sorted| - 1];
      assert sorted == init + [last];
      InsertPermutes(init, x, key);
    }
  }

  lemma {:induction false} InsertKeepsSorted(sorted: seq<ScanReason>, x: ScanReason, key: ScanReason -> int)
    requires SortedBy(sorted, key)
    ensures SortedBy(Insert(sorted, x, key), key)
  {
    if sorted != [] && key(sorted[|sorted| - 1]) > key(x) {
      var init, last := sorted[..|sorted| - 1], sorted[|sorted| - 1];
      var rest := Insert(init, x, key);
      InsertKeepsSorted(init, x, key);
      InsertPermutes(init, x, key);
      forall i | 0 <= i < |rest|
        ensures key(rest[i]) <= key(last)
      {
        assert rest[i] in multiset(rest);
        if rest[i] != x {
          assert rest[i] in init;
        }
      }
    }
  }

  /** Sorting inserts `x` into the run of its key after the equal elements already there. */
  lemma {:induction false} InsertKeyRun(sorted: seq<ScanReason>, x: ScanReason, key: ScanReason -> int, k: int)
    requires SortedBy(sorted, key)
    ensures KeyRun(Insert(sorted, x, key), key, k) == KeyRun(sorted, key, k) + (if key(x) == k then [x] else [])
  {
    if sorted == [] {
      assert [x][..0] == [];
    } else if key(sorted[|sorted| - 1]) <= key(x) {
      assert (sorted + [x])[..|sorted|] == sorted;
    } else {
      var init, last := sorted[..|sorted| - 1], sorted[|sorted| - 1];
      var rest := Insert(init, x, key);
      assert (rest + [last])[..|rest|] == rest;
      InsertKeyRun(init, x, key, k);
    }
  }

  /** The sort's result is ordered by key. */
  lemma {:induction false} SortBySorted(s: seq<ScanReason>, key: ScanReason -> int)
    ensures SortedBy(SortBy(s, key), key)
  {
    if s != [] {
      SortBySorted(s[..|s| - 1], key);
      InsertKeepsSorted(SortBy(s[..|s| - 1], key), s[|s| - 1], key);
    }
  }

  /** The sort's result is a rearrangement of its input. */
  lemma {:induction false} SortByPermutes(s: seq<ScanReason>, key: ScanReason -> int)
    ensures multiset(SortBy(s, key)) == multiset(s)
  {
    if s != [] {
      var init, x := s[..|s| - 1], s[|s| - 1];
      SortByPermutes(init, key);
      InsertPermutes(SortBy(init, key), x, key);
      assert multiset(s) == multiset(init) + multiset{x} by {
        assert s == init + [x];
      }
    }
  }

  /** The sort is stable: the elements sharing a key come out in the order they went in. */
  lemma {:induction false} SortByStable(s: seq<ScanReason>, key: ScanReason -> int, k: int)
    ensures KeyRun(SortBy(s, key), key, k) == KeyRun(s, key, k)
  {
    if s != [] {
      SortByStable(s[..|s| - 1], key, k);
      SortBySorted(s[..|s| - 1], key);
      InsertKeyRun(SortBy(s[..|s| - 1], key), s[|s| - 1], key, k);
    }
  }

  // ------------------------------------------------------- filter, map, slice

  /** `s.filter(keep)` */
  function FilterBy(s: seq<ScanReason>, keep: ScanReason -> bool): (r: seq<ScanReason>)
    ensures forall x :: x in r <==> x in s && keep(x)
  {
    if s == [] then []
    else FilterBy(s[..|s| - 1], keep) + (if keep(s[|s| - 1]) then [s[|s| - 1]] else [])
  }

  /** `s.slice(0, n)` */
  function Take(s: seq<string>, n: nat): (r: seq<string>)
    ensures |r| == if |s| <= n then |s| else n
    ensures r == s[..|r|]
  {
    if |s| <= n then s else s[..n]
  }

  /** `reasons.map((reason) => reason.detail)` */
  function ReasonDetails(s: seq<ScanReason>): (r: seq<string>)
    ensures |r| == |s|
    ensures forall i :: 0 <= i < |s| ==> r[i] == s[i].detail
  {
    seq(|s|, i requires 0 <= i < |s| => s[i].detail)
  }

  /** `warnings.map((warning) => warning.detail)` */
  function WarningDetails(s: seq<ScanWarning>): seq<string> {
    seq(|s|, i requires 0 <= i < |s| => s[i].detail)
  }

  predicate IsGain(r: ScanReason) {
    r.weight > 0
  }

  predicate IsLoss(r: ScanReason) {
    r.weight < 0
  }

  /** The comparator `(a, b) => b.weight - a.weight`: heaviest first. */
  function HeaviestFirst(r: ScanReason): int {
    -r.weight
  }

  /** The comparator `(a, b) => a.weight - b.weight`: most negative first. */
  function LightestFirst(r: ScanReason): int {
    r.weight
  }

  // ------------------------------------------------------------ the builders

  const STRONG_TONE := "Strong signals"
  const MEDIUM_TONE := "Solid foundation"
  const WEAK_TONE := "Early signals"

  const HIGH_NOTE := "High confidence scan"
  const MODERATE_NOTE := "Moderate confidence scan"
  const LIMITED_NOTE := "Limited confidence scan"

  /** The doubles nearest to 0.8 and 0.6, the literals `buildSummary` compares with. */
  const HIGH_THRESHOLD: real := 0.8000000000000000444089209850062616169452667236328125
  const MODERATE_THRESHOLD: real := 0.59999999999999997779553950749686919152736663818359375

  function BandTone(band: ScoreBand): string {
    match band
    case Strong => STRONG_TONE
    case Medium => MEDIUM_TONE
    case Weak => WEAK_TONE
  }

  function ConfidenceNote(confidence: real): string {
    if confidence >= HIGH_THRESHOLD then HIGH_NOTE
    else if confidence >= MODERATE_THRESHOLD then MODERATE_NOTE
    else LIMITED_NOTE
  }

  /** `buildSummary` */
  function BuildSummary(scan: ScanResult): string {
    BandTone(scan.overall.band) + " with a " + ToLower(ConfidenceNote(scan.overall.confidence))
      + " and clear areas to refine."
  }

  /** The reasons whose details `buildHighlights` returns. */
  function HighlightReasons(scan: ScanResult): seq<ScanReason> {
    var ranked := SortBy(FilterBy(scan.reasons, IsGain), HeaviestFirst);
    if |ranked| <= 3 then ranked else ranked[..3]
  }

  /** `buildHighlights` */
  function BuildHighlights(scan: ScanResult): (r: seq<string>)
    ensures |r| <= 3
  {
    Take(ReasonDetails(SortBy(FilterBy(scan.reasons, IsGain), HeaviestFirst)), 3)
  }

  /** The penalties `buildImprovements` lists before the warnings, most negative first. */
  function ImprovementReasons(scan: ScanResult): seq<ScanReason> {
    SortBy(FilterBy(scan.reasons, IsLoss), LightestFirst)
  }

  /** `buildImprovements` */
  function BuildImprovements(scan: ScanResult): (r: seq<string>)
    ensures |r| <= 3
  {
    Take(ReasonDetails(SortBy(FilterBy(scan.reasons, IsLoss), LightestFirst)) + WarningDetails(scan.warnings), 3)
  }

  const VERDICT_5 := "Verdict: 5 out of 5 servo whirs. The bot is impressed."
  const VERDICT_4 := "Verdict: 4 out of 5 servo whirs. Solid circuitry detected."
  const VERDICT_3 := "Verdict: 3 out of 5 servo whirs. A few tuning bolts needed."
  const VERDICT_2 := "Verdict: 2 out of 5 servo whirs. Needs a full recalibration."

  /** `buildHumor` */
  function BuildHumor(score: int): string {
    if score >= 85 then VERDICT_5
    else if score >= 70 then VERDICT_4
    else if score >= 40 then VERDICT_3
    else VERDICT_2
  }

  // ------------------------------------------------------------- properties

  lemma SortByLength(s: seq<ScanReason>, key: ScanReason -> int)
    ensures |SortBy(s, key)| == |s|
  {
    SortByPermutes(s, key);
    assert |multiset(SortBy(s, key))| == |multiset(s)|;
  }

  lemma SortByMembers(s: seq<ScanReason>, key: ScanReason -> int)
    ensures forall x :: x in SortBy(s, key) <==> x in s
  {
    SortByPermutes(s, key);
    forall x
      ensures x in SortBy(s, key) <==> x in s
    {
      assert x in SortBy(s, key) <==> x in multiset(SortBy(s, key));
      assert x in s <==> x in multiset(s);
    }
  }

  /** The highlights are the details of at most three of the positive reasons. */
  lemma HighlightsAreGains(scan: ScanResult)
    ensures BuildHighlights(scan) == ReasonDetails(HighlightReasons(scan))
    ensures var gains := FilterBy(scan.reasons, IsGain);
      |HighlightReasons(scan)| == if |gains| <= 3 then |gains| else 3
    ensures forall r :: r in HighlightReasons(scan) ==> r in scan.reasons && r.weight > 0
  {
    var gains := FilterBy(scan.reasons, IsGain);
    SortByLength(gains, HeaviestFirst);
    SortByMembers(gains, HeaviestFirst);
    var ranked := SortBy(gains, HeaviestFirst);
    var sel := HighlightReasons(scan);
    assert forall r :: r in sel ==> r in ranked;
  }

  /** The highlights come heaviest first, and no positive reason left out outweighs one
      that was kept. */
  lemma HighlightsHeaviestFirst(scan: ScanResult)
    ensures var sel := HighlightReasons(scan);
      forall i, j :: 0 <= i < j < |sel| ==> sel[i].weight >= sel[j].weight
    ensures var ranked := SortBy(FilterBy(scan.reasons, IsGain), HeaviestFirst);
      var sel := HighlightReasons(scan);
      sel == ranked[..|sel|] && forall i, j :: 0 <= i < |sel| <= j < |ranked| ==> ranked[j].weight <= sel[i].weight
  {
    SortBySorted(FilterBy(scan.reasons, IsGain), HeaviestFirst);
  }

  /** Positive reasons of equal weight are highlighted in the order the scan recorded them. */
  lemma HighlightsKeepTies(scan: ScanResult, weight: int)
    ensures KeyRun(SortBy(FilterBy(scan.reasons, IsGain), HeaviestFirst), HeaviestFirst, -weight)
         == KeyRun(FilterBy(scan.reasons, IsGain), HeaviestFirst, -weight)
  {
    SortByStable(FilterBy(scan.reasons, IsGain), HeaviestFirst, -weight);
  }

  /** The improvements are the penalties, most negative first, followed by the warnings in
      order, cut to three. */
  lemma ImprovementsLayout(scan: ScanResult)
    ensures var losses := ImprovementReasons(scan);
      var r := BuildImprovements(scan);
      |r| == (if |losses| + |scan.warnings| <= 3 then |losses| + |scan.warnings| else 3)
      && (forall i :: 0 <= i < |r| && i < |losses| ==> r[i] == losses[i].detail)
      && (forall i :: |losses| <= i < |r| ==> r[i] == scan.warnings[i - |losses|].detail)
  {
    var losses := ImprovementReasons(scan);
    var all := ReasonDetails(losses) + WarningDetails(scan.warnings);
    assert BuildImprovements(scan) == Take(all, 3);
  }

  /** The penalties listed are exactly the negative reasons, most negative first. */
  lemma ImprovementsAreLosses(scan: ScanResult)
    ensures multiset(ImprovementReasons(scan)) == multiset(FilterBy(scan.reasons, IsLoss))
    ensures var losses := ImprovementReasons(scan);
      forall i, j :: 0 <= i < j < |losses| ==> losses[i].weight <= losses[j].weight
    ensures forall r :: r in ImprovementReasons(scan) <==> r in scan.reasons && r.weight < 0
  {
    var losses := FilterBy(scan.reasons, IsLoss);
    SortBySorted(losses, LightestFirst);
    SortByPermutes(losses, LightestFirst);
    SortByMembers(losses, LightestFirst);
  }

  /** No reason is both highlighted and listed as an improvement. */
  lemma HighlightsAvoidImprovements(scan: ScanResult)
    ensures forall r :: r in HighlightReasons(scan) ==> r !in ImprovementReasons(scan)
  {
    HighlightsAreGains(scan);
    ImprovementsAreLosses(scan);
  }

  lemma LowerHighNote()
    ensures ToLower(HIGH_NOTE) == "high confidence scan"
  {
    var a, b := ToLower(HIGH_NOTE), "high confidence scan";
    assert |a| == |b|;
    assert forall i :: 0 <= i < |a| ==> a[i] == b[i];
  }

  lemma LowerModerateNote()
    ensures ToLower(MODERATE_NOTE) == "moderate confidence scan"
  {
    var a, b := ToLower(MODERATE_NOTE), "moderate confidence scan";
    assert |a| == |b|;
    assert forall i :: 0 <= i < |a| ==> a[i] == b[i];
  }

  lemma LowerLimitedNote()
    ensures ToLower(LIMITED_NOTE) == "limited confidence scan"
  {
    var a, b := ToLower(LIMITED_NOTE), "limited confidence scan";
    assert |a| == |b|;
    assert forall i :: 0 <= i < |a| ==> a[i] == b[i];
  }

  /** The summary pairs the band's tone with the lower-cased confidence note. */
  lemma SummaryWording(scan: ScanResult)
    ensures scan.overall.confidence >= HIGH_THRESHOLD ==>
      BuildSummary(scan) == BandTone(scan.overall.band) + " with a " + "high confidence scan" + " and clear areas to refine."
    ensures MODERATE_THRESHOLD <= scan.overall.confidence < HIGH_THRESHOLD ==>
      BuildSummary(scan) == BandTone(scan.overall.band) + " with a " + "moderate confidence scan" + " and clear areas to refine."
    ensures scan.overall.confidence < MODERATE_THRESHOLD ==>
      BuildSummary(scan) == BandTone(scan.overall.band) + " with a " + "limited confidence scan" + " and clear areas to refine."
  {
    LowerHighNote();
    LowerModerateNote();
    LowerLimitedNote();
  }
}
