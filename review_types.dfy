/** The request and result records of the review service (lib/reviewService.ts). */
module ReviewTypes {
  import opened Wrappers

  /** `{ id, label }`; `label` is a reserved word here. */
  datatype ReviewSource = ReviewSource(id: string, labelText: string)

  /** `resumeText` is optional: `None` is an absent field. */
  datatype ReviewRequest = ReviewRequest(source: ReviewSource, resumeText: Option<string>)

  datatype ReviewResult = ReviewResult(
    score: int,
    summary: string,
    highlights: seq<string>,
    improvements: seq<string>,
    humor: string)
}
