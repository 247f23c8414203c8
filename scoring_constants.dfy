/** The scorer's tables (lib/services/resume-scoring/constants.ts). The regular
    expressions are kept as literal text for the uninterpreted engine. */
module ScoringConstants {
  import opened Regex
  import opened ScoringTypes

  const VERSION := "dev-resume-v1"

  const DEFAULT_TRACK: ResumeTrack := FullStack

  /** The sections in the order `Object.entries(SECTION_MATCHERS)` lists them. */
  const SECTION_ORDER: seq<ResumeSection> := [Experience, Projects, Skills, Education, Summary]

  function SectionMatchers(section: ResumeSection): seq<RegExp> {
    match section
    case Experience => [RegExp("\\bexperience\\b", "i"), RegExp("\\bwork history\\b", "i"), RegExp("\\bemployment\\b", "i")]
    case Projects => [RegExp("\\bprojects?\\b", "i"), RegExp("\\bportfolio\\b", "i"), RegExp("\\bcase studies?\\b", "i")]
    case Skills => [RegExp("\\bskills?\\b", "i"), RegExp("\\btechnologies\\b", "i"), RegExp("\\btoolbox\\b", "i")]
    case Education => [RegExp("\\beducation\\b", "i"), RegExp("\\bdegree\\b", "i"), RegExp("\\buniversity\\b", "i")]
    case Summary => [RegExp("\\bsummary\\b", "i"), RegExp("\\bprofile\\b", "i"), RegExp("\\babout\\b", "i")]
  }

  const EMAIL_PATTERN := RegExp("[A-Z0-9._%+-]+@[A-Z0-9.-]+\\.[A-Z]{2,}", "i")
  const PHONE_PATTERN := RegExp("\\b(\\+?\\d{1,2}\\s?)?(\\(?\\d{3}\\)?[\\s.-]?)?\\d{3}[\\s.-]?\\d{4}\\b", "")
  const LOCATION_PATTERN := RegExp("\\b([A-Z][a-z]+,\\s?[A-Z]{2}|Remote|Hybrid|On-site|Onsite)\\b", "")

  const GITHUB_PATTERN := RegExp("github\\.com\\/\\w+", "i")
  const LINKEDIN_PATTERN := RegExp("linkedin\\.com\\/in\\/[\\w-]+", "i")
  const PORTFOLIO_PATTERN := RegExp("(portfolio|\\.dev|\\.design|\\.me|\\.io)\\b", "i")
  const LIVE_PROJECT_PATTERN := RegExp("(https?:\\/\\/[^\\s]+|www\\.[^\\s]+)\\b", "i")

  const METRICS_PATTERN := RegExp("\\b\\d+(?:\\.\\d+)?%|\\b\\d{1,3}(?:,\\d{3})+|\\b\\d+x\\b", "gi")

  /** The year pattern of `estimateYears`. */
  const YEAR_PATTERN := RegExp("\\b(19\\d{2}|20\\d{2})\\b", "g")

  const ACTION_VERBS: seq<string> := [
    "built", "designed", "led", "owned", "launched", "implemented", "optimized", "improved",
    "reduced", "scaled", "delivered", "architected", "developed", "shipped", "collaborated"
  ]

  const LEADERSHIP_KEYWORDS: seq<string> := [
    "led", "managed", "mentored", "owner", "owned", "strategy", "initiative", "principal", "head"
  ]

  const SCALE_TERMS: seq<string> := [
    "scale", "performance", "latency", "throughput", "availability", "uptime", "reliability"
  ]

  datatype SkillBank = SkillBank(core: seq<string>, bonus: seq<string>)

  function TrackSkills(track: ResumeTrack): SkillBank {
    match track
    case FullStack => SkillBank(
      ["JavaScript", "TypeScript", "React", "Node", "API", "SQL", "Testing", "CI/CD"],
      ["Next.js", "Postgres", "GraphQL", "AWS", "Docker", "Redis", "Tailwind"])
    case Frontend => SkillBank(
      ["JavaScript", "TypeScript", "React", "CSS", "Accessibility", "Testing"],
      ["Next.js", "Tailwind", "Animations", "Design Systems"])
    case Backend => SkillBank(
      ["Node", "SQL", "API", "Testing", "CI/CD", "Security"],
      ["Postgres", "Redis", "Docker", "AWS", "Queues"])
  }

  datatype BandEntry = BandEntry(min: int, band: ScoreBand)

  const SCORE_BANDS: seq<BandEntry> := [BandEntry(70, Strong), BandEntry(40, Medium), BandEntry(0, Weak)]
}
