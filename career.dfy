/** The values the career analysis passes around: the user's input, one scored skill,
    and the analysis the pages and the report endpoint read. */
module Career {

  /** What the user types in: job title, years of experience (free text),
      comma-separated skills, industry and goal. */
  datatype CareerInput = CareerInput(
    jobTitle: string,
    experience: string,
    skills: string,
    industry: string,
    goal: string)

  /** One skill with the user's score and the market average, both on a 0-100 scale. */
  datatype SkillScore = SkillScore(name: string, score: int, marketAvg: int)

  datatype Analysis = Analysis(
    marketPosition: int,
    techTrend: int,
    demandLevel: int,
    overallScore: int,
    skills: seq<SkillScore>,
    sources: seq<string>)

  /** How far the market average is above the user's score (negative when the user is ahead). */
  function Gap(s: SkillScore): int
  {
    s.marketAvg - s.score
  }
}
