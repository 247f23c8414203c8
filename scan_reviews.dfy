/** What the reviews the scanner schedules read: a sample job reviews that sample's canned
    text and an upload job reviews the extracted text
    (components/scene/hooks/useDialogScannerEffects.ts with lib/reviewService.ts). */
module ScanReviews {
  import opened Wrappers
  import opened Regex
  import opened ReviewTypes
  import opened ReviewService
  import opened DialogState
  import opened ScannerEffects

  /** The review a scheduled sample job runs is the review of that sample's text; a sample
      descriptor with no id asks for "sample", which has no text, so the empty text is
      reviewed. */
  lemma SampleJobReviewsSampleText(world: World, engine: RegexEngine)
    requires world.dialog.pendingScan.Some? && world.dialog.pendingScan.value.source == Sample
    ensures var pending := world.dialog.pendingScan.value;
      var job := Activate(world).world.refs.timers[world.refs.nextHandle].job;
      && (pending.sampleId.Some? && pending.sampleId.value in SAMPLE_RESUME_TEXT ==>
            ReviewResume(job.request, engine) == ReviewOf(SAMPLE_RESUME_TEXT[pending.sampleId.value], engine))
      && (pending.sampleId.None? ==> ReviewResume(job.request, engine) == ReviewOf("", engine))
  {
    SampleScanSchedulesReview(world);
    assert "sample" !in SAMPLE_RESUME_TEXT by {
      assert "sample" != "sample-frontend" && "sample" != "sample-backend" && "sample" != "sample-fullstack"
        && "sample" != "sample-newgrad" && "sample" != "sample-chaos" by {
        assert |"sample"| == 6;
      }
    }
  }

  /** The review a scheduled upload job runs is the review of the extracted text, even
      when that text is empty. */
  lemma UploadJobReviewsExtractedText(world: World, scanToken: nat, text: string, engine: RegexEngine)
    requires IsCurrent(world.refs, scanToken)
    ensures var next := AfterExtraction(world, scanToken, Ok(text));
      var job := next.refs.timers[world.refs.nextHandle].job;
      job.scanToken == scanToken && ReviewResume(job.request, engine) == ReviewOf(text, engine)
  {
    ExtractionOutcomes(world, scanToken, Ok(text));
  }
}
