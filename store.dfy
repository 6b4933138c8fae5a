/** The synthetic analysis generator of the app state: from the career input and a
    stream of Math.random() draws it builds a base score, jittered per-skill scores,
    three jittered headline scores and the fixed list of data sources. */
module MockAnalysis {
  import opened JsText
  import opened JsMath
  import opened Career

  /** The five data sources every generated analysis names, in this order. */
  const Sources: seq<string> := ["GitHub API", "StackExchange API", "Google Trends", "NPM Registry", "PyPI API"]

  /** Math.random() returns a real in [0, 1). */
  predicate IsDraws(draws: seq<real>)
  {
    forall i :: 0 <= i < |draws| ==> 0.0 <= draws[i] < 1.0
  }

  /** Math.floor(r * 20 - 10): one jitter value. */
  function Variance(r: real): (v: int)
    requires 0.0 <= r < 1.0
    ensures -10 <= v <= 9
    ensures v as real <= r * 20.0 - 10.0 < v as real + 1.0
  {
    (r * 20.0 - 10.0).Floor
  }

  /** parseInt(experience) || 0. */
  function ExperienceYears(experience: string): (y: int)
    ensures ParseInt(experience).None? ==> y == 0
    ensures ParseInt(experience).Some? ==> y == ParseInt(experience).value
  {
    ParseIntOrZero(experience)
  }

  /** Math.min(40 + years * 5 + skillCount * 3, 95). */
  function BaseScore(years: int, skillCount: nat): (b: int)
    ensures b <= 95 && b <= 40 + 5 * years + 3 * skillCount
    ensures b == 95 || b == 40 + 5 * years + 3 * skillCount
    ensures b < 95 ==> b == 40 + 5 * years + 3 * skillCount
    ensures years >= 0 ==> 40 <= b
  {
    Min(40 + years * 5 + skillCount * 3, 95)
  }

  /** Math.min(Math.max(x + variance(), 10), 100). */
  function Jittered(x: int, r: real): (v: int)
    requires 0.0 <= r < 1.0
    ensures 10 <= v <= 100
    ensures 20 <= x <= 90 ==> x - 10 <= v <= x + 9
  {
    Clamp(x + Variance(r), 10, 100)
  }

  /** skillList.map(...): skill i consumes draw 2i for its score and draw 2i+1 for its
      market average, which is jittered from the already clamped score. */
  function JitterSkills(names: seq<string>, base: int, draws: seq<real>): (r: seq<SkillScore>)
    requires IsDraws(draws) && |draws| >= 2 * |names|
    ensures |r| == |names|
    ensures forall i :: 0 <= i < |r| ==>
      r[i].name == names[i] && 10 <= r[i].score <= 100 && 10 <= r[i].marketAvg <= 100
    ensures forall i :: 0 <= i < |r| ==>
      r[i].score == Jittered(base, draws[2 * i]) && r[i].marketAvg == Jittered(r[i].score, draws[2 * i + 1])
  {
    seq(|names|, i requires 0 <= i < |names| =>
      var score := Jittered(base, draws[2 * i]);
      SkillScore(names[i], score, Jittered(score, draws[2 * i + 1])))
  }

  /** The number of draws one generation consumes: two per declared skill and three more. */
  function DrawsNeeded(input: CareerInput): nat
  {
    2 * |SplitSkills(input.skills)| + 3
  }

  /** generateMockAnalysis. */
  function GenerateMockAnalysis(input: CareerInput, draws: seq<real>): (a: Analysis)
    requires IsDraws(draws) && |draws| >= DrawsNeeded(input)
    ensures a.overallScore == BaseScore(ExperienceYears(input.experience), |SplitSkills(input.skills)|)
    ensures |a.skills| == Max(1, |SplitSkills(input.skills)|)
    ensures a.sources == Sources
    ensures 10 <= a.marketPosition <= 100 && 10 <= a.techTrend <= 100 && 10 <= a.demandLevel <= 100
    ensures SplitSkills(input.skills) != [] ==> forall i :: 0 <= i < |a.skills| ==>
      a.skills[i].name == SplitSkills(input.skills)[i]
      && 10 <= a.skills[i].score <= 100 && 10 <= a.skills[i].marketAvg <= 100
    ensures SplitSkills(input.skills) == [] ==>
      a.skills == [SkillScore("General", a.overallScore, a.overallScore + 5)] && a.overallScore + 5 <= 100
  {
    var names := SplitSkills(input.skills);
    var n := |names|;
    var base := BaseScore(ExperienceYears(input.experience), n);
    var jittered := JitterSkills(names, base, draws);
    var skills := if jittered == [] then [SkillScore("General", base, base + 5)] else jittered;
    Analysis(
      Jittered(base, draws[2 * n]),
      Jittered(base, draws[2 * n + 1]),
      Jittered(base, draws[2 * n + 2]),
      base,
      skills,
      Sources)
  }

  /** The draws only move scores: two generations from the same input name the same
      skills in the same order and report the same overall score and sources. */
  lemma DrawsOnlyMoveScores(input: CareerInput, d1: seq<real>, d2: seq<real>)
    requires IsDraws(d1) && |d1| >= DrawsNeeded(input)
    requires IsDraws(d2) && |d2| >= DrawsNeeded(input)
    ensures var a1, a2 := GenerateMockAnalysis(input, d1), GenerateMockAnalysis(input, d2);
      a1.overallScore == a2.overallScore && a1.sources == a2.sources
      && |a1.skills| == |a2.skills|
      && forall i :: 0 <= i < |a1.skills| ==> a1.skills[i].name == a2.skills[i].name
  {
  }

  /** Experience that is not a number counts as zero years, so the base score only
      depends on the number of skills. */
  lemma NonNumericExperience(input: CareerInput)
    requires var t := TrimStart(input.experience); t == [] || !(t[0] == '+' || t[0] == '-' || '0' <= t[0] <= '9')
    ensures GenerateMockAnalysis(input, seq(DrawsNeeded(input), i => 0.5)).overallScore
      == Min(40 + 3 * |SplitSkills(input.skills)|, 95)
  {
    NonNumericIsZero(input.experience);
  }

  /** With every draw at 0.5 the jitter is zero, so each declared skill scores the clamped
      base score on both axes. */
  lemma MidpointDrawsAreNeutral(input: CareerInput, i: nat)
    requires i < |SplitSkills(input.skills)|
    ensures var a := GenerateMockAnalysis(input, seq(DrawsNeeded(input), j => 0.5));
      a.skills[i].score == a.skills[i].marketAvg == Clamp(a.overallScore, 10, 100)
  {
    var draws := seq(DrawsNeeded(input), j => 0.5);
    assert Variance(draws[2 * i]) == 0;
    assert Variance(draws[2 * i + 1]) == 0;
  }
}
