/** `createResumeReviewService().reviewResume` (lib/reviewService.ts): score the text
    of a request, falling back to the canned sample text for its source, and turn the
    scan into the review the dialog shows. */
module ReviewService {
  import opened Wrappers
  import opened Regex
  import opened ScoringTypes
  import opened Scoring
  import opened ReviewHelpers
  import opened ReviewTypes

  /** The canned résumé text of each sample source (lib/review-service/constants.ts). */
  const SAMPLE_RESUME_TEXT: map<string, string> := map[
    "sample-frontend" :=
      "Nova Lin\nSummary\nFrontend-leaning builder crafting luminous UI experiences.\nExperience\nUI Engineer (2021-2024) Improved accessibility scores by 32% and reduced UI bugs by 18%.\nProjects\nNebula design system built with React, TypeScript, Tailwind, and Storybook.\nSkills\nJavaScript, TypeScript, React, CSS, Accessibility, Testing, Tailwind\nEducation\nB.S. Interaction Design, Orbit Academy\nContact\nnova@starlight.dev | Remote | github.com/novalin",
    "sample-backend" :=
      "Atlas Kade\nSummary\nBackend systems engineer orchestrating resilient data flows.\nExperience\nPlatform Engineer (2016-2024) Reduced API latency by 40% and handled 3x traffic spikes.\nProjects\nQueue-driven order processor using Node, Postgres, Redis, Docker, and AWS.\nSkills\nNode, SQL, API, Testing, CI/CD, Security, Redis, Docker, AWS\nEducation\nB.S. Systems Engineering, Lunar Institute\nContact\natlas@singularity.io | Chicago, IL | github.com/atlaskade",
    "sample-fullstack" :=
      "Rhea Sol\nSummary\nFull-stack generalist shipping end-to-end product missions.\nExperience\nProduct Engineer (2019-2024) Launched 4 customer-facing features with 25% activation lift.\nProjects\nMission control dashboard built with React, TypeScript, Node, GraphQL, Postgres.\nSkills\nJavaScript, TypeScript, React, Node, SQL, Testing, CI/CD, GraphQL\nEducation\nB.S. Computer Science, Solar City University\nContact\nrhea@starlane.dev | Austin, TX | github.com/rheasol",
    "sample-newgrad" :=
      "Juno Vega\nSummary\nNew grad pilot eager to join a product crew.\nExperience\nIntern (2023) Assisted with frontend QA and bug triage.\nProjects\nCapstone: Orbital itinerary planner built with React, Node, and Postgres.\nSkills\nJavaScript, TypeScript, React, Node, SQL, Testing\nEducation\nB.S. Computer Science, Launchpad College\nContact\njuno@launch.dev | Seattle, WA | github.com/junovega",
    "sample-chaos" :=
      "Zed Quasar\nSummary\nSynergy-driven hypergrowth wizard of infinite velocity.\nSkills\nBlockchain, Web3, AI, Metaverse, Quantum, VR, AR, NFT\nContact\nzed@galaxy.biz"
  ]

  const FALLBACK_HIGHLIGHT := "Resume structure detected; add more detail to strengthen signals."
  const FALLBACK_IMPROVEMENT := "Add more measurable outcomes to increase impact."

  /** `request.resumeText ?? (samples[request.source.id] ?? "")` */
  function ReviewText(request: ReviewRequest, samples: map<string, string>): string {
    match request.resumeText
    case Some(text) => text
    case None => if request.source.id in samples then samples[request.source.id] else ""
  }

  /** The scan `reviewResume` takes: the text scored with no track. */
  function ReviewScan(text: string, engine: RegexEngine): ScanResult {
    ScanOf(ResumeScoringInput(text, None), engine)
  }

  /** The review record built from a scan. */
  function ReviewFrom(scan: ScanResult): ReviewResult {
    var highlights := BuildHighlights(scan);
    var improvements := BuildImprovements(scan);
    ReviewResult(
      scan.overall.score,
      BuildSummary(scan),
      if |highlights| > 0 then highlights else [FALLBACK_HIGHLIGHT],
      if |improvements| > 0 then improvements else [FALLBACK_IMPROVEMENT],
      BuildHumor(scan.overall.score))
  }

  /** The review of `text`. */
  function ReviewOf(text: string, engine: RegexEngine): ReviewResult {
    ReviewFrom(ReviewScan(text, engine))
  }

  /** `reviewResume`, with the sample texts of `SAMPLE_RESUME_TEXT` */
  function ReviewResume(request: ReviewRequest, engine: RegexEngine): ReviewResult {
    ReviewOf(ReviewText(request, SAMPLE_RESUME_TEXT), engine)
  }

  // ------------------------------------------------------------- properties

  /** A provided text is scored even when it is empty; only an absent one falls back to
      the source's sample, and to the empty text when the source has none. */
  lemma ReviewTextChoice(request: ReviewRequest, samples: map<string, string>)
    ensures request.resumeText.Some? ==> ReviewText(request, samples) == request.resumeText.value
    ensures request.resumeText.None? && request.source.id in samples ==>
      ReviewText(request, samples) == samples[request.source.id]
    ensures request.resumeText.None? && request.source.id !in samples ==> ReviewText(request, samples) == ""
  {
  }

  /** The review is always scored for the default track. */
  lemma ReviewUsesDefaultTrack(text: string, engine: RegexEngine)
    ensures ReviewScan(text, engine).track == FullStack
  {
  }

  /** The review's score is the scan's, and the verdict follows that score. */
  lemma ReviewCarriesScore(scan: ScanResult)
    ensures var review := ReviewFrom(scan);
      review.score == scan.overall.score
      && review.humor == BuildHumor(scan.overall.score)
      && review.summary == BuildSummary(scan)
  {
  }

  /** A review's score lies in 0..100. */
  lemma ReviewScoreInRange(ev: Evidence)
    ensures 0 <= ReviewFrom(ScanFrom(ev)).score <= 100
  {
  }

  /** Highlights and improvements are never empty and never longer than three; an empty
      list is replaced by its fixed sentence. */
  lemma ReviewListsBounded(scan: ScanResult)
    ensures var review := ReviewFrom(scan);
      1 <= |review.highlights| <= 3 && 1 <= |review.improvements| <= 3
    ensures BuildHighlights(scan) == [] ==> ReviewFrom(scan).highlights == [FALLBACK_HIGHLIGHT]
    ensures BuildHighlights(scan) != [] ==> ReviewFrom(scan).highlights == BuildHighlights(scan)
    ensures BuildImprovements(scan) == [] ==> ReviewFrom(scan).improvements == [FALLBACK_IMPROVEMENT]
    ensures BuildImprovements(scan) != [] ==> ReviewFrom(scan).improvements == BuildImprovements(scan)
  {
  }

  /** The verdict reads the score, not the band, yet its thresholds agree with the bands:
      four or five whirs exactly for a strong score, three for a medium one, two for a weak one. */
  lemma HumorFollowsBand(score: int)
    ensures BandFor(score) == Strong ==> BuildHumor(score) == VERDICT_5 || BuildHumor(score) == VERDICT_4
    ensures BandFor(score) == Medium ==> BuildHumor(score) == VERDICT_3
    ensures BandFor(score) == Weak ==> BuildHumor(score) == VERDICT_2
  {
    BandThresholds(score);
  }

  /** Because the scorer's confidence is an inexact double, the summary says "high" only
      with all three bonuses and no short-text penalty, and "limited" exactly for short
      text with at most two bonuses; everything else is "moderate". */
  lemma ConfidenceNoteTiers(ev: Evidence)
    ensures ConfidenceNote(ConfidenceOf(ev)) == HIGH_NOTE <==> ConfidenceBumps(ev) == 3 && ev.wordCount >= 200
    ensures ConfidenceNote(ConfidenceOf(ev)) == LIMITED_NOTE <==> ConfidenceBumps(ev) <= 2 && ev.wordCount < 200
  {
    ConfidenceWithinBounds(ev);
    assert HIGH_NOTE != MODERATE_NOTE && HIGH_NOTE != LIMITED_NOTE && MODERATE_NOTE != LIMITED_NOTE by {
      assert HIGH_NOTE[0] == 'H' && MODERATE_NOTE[0] == 'M' && LIMITED_NOTE[0] == 'L';
    }
  }
}
