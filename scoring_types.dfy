/** The records the scorer reads and returns (lib/services/resume-scoring/types.ts). */
module ScoringTypes {
  import opened Wrappers

  datatype ResumeTrack = FullStack | Frontend | Backend

  function TrackName(track: ResumeTrack): string {
    match track
    case FullStack => "full-stack"
    case Frontend => "frontend"
    case Backend => "backend"
  }

  datatype ScoreBand = Weak | Medium | Strong

  datatype ResumeSection = Experience | Projects | Skills | Education | Summary

  datatype ScanReason = ScanReason(code: string, weight: int, detail: string)

  datatype ScanWarning = ScanWarning(code: string, detail: string)

  datatype Contact = Contact(email: bool, phone: bool, location: bool)

  datatype Links = Links(github: bool, linkedin: bool, portfolio: bool, liveProject: bool)

  datatype SkillSignals = SkillSignals(matched: seq<string>, missingCore: seq<string>, countMatched: nat)

  datatype Seniority = Junior | Mid | Senior | Unknown

  datatype ExperienceSignals = ExperienceSignals(yearsEstimate: Option<int>, seniorityGuess: Seniority)

  /** `impactScore` is a display-only fraction and is not part of this model. */
  datatype ImpactSignals = ImpactSignals(metricsMentions: nat, actionVerbs: nat)

  datatype ScanSignals = ScanSignals(
    wordCount: nat,
    sectionsPresent: seq<ResumeSection>,
    contact: Contact,
    links: Links,
    skills: SkillSignals,
    experience: ExperienceSignals,
    impact: ImpactSignals)

  /** `confidence` is the exact value of the IEEE double the scorer computes. */
  datatype Overall = Overall(score: int, band: ScoreBand, confidence: real)

  datatype ScanResult = ScanResult(
    overall: Overall,
    signals: ScanSignals,
    reasons: seq<ScanReason>,
    warnings: seq<ScanWarning>,
    version: string,
    track: ResumeTrack)

  /** `{ resumeText, track? }` */
  datatype ResumeScoringInput = ResumeScoringInput(resumeText: string, track: Option<ResumeTrack>)
}
