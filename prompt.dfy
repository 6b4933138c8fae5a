/** The numbers the report endpoint derives from a request before it asks the language
    model for a report: experience, the career path, the decision signals and their market
    averages, the per-skill gaps and, for a returning subscriber, the trend against the
    previous analysis. The prompt text itself is not modelled, only these values. */
module ReportPrompt {
  import opened JsText
  import opened JsMath
  import opened Career

  /** The career input of a report request; a field that is absent is "". */
  datatype ReportInput = ReportInput(
    jobTitle: string,
    experience: string,
    skills: string,
    industry: string,
    careerPath: string,
    leadershipExperience: string,
    globalExperience: string,
    goal: string)

  /** parseInt(experience) || 0. */
  function ExperienceYears(input: ReportInput): (r: int)
    ensures ParseInt(input.experience).None? ==> r == 0
    ensures ParseInt(input.experience).Some? ==> r == ParseInt(input.experience).value
  {
    ParseIntOrZero(input.experience)
  }

  // ---------------------------------------------------------------------------------
  // The career path: careerPath.split(/→|->|,/)
  // ---------------------------------------------------------------------------------

  /** The length of the separator the pattern matches at position i (0 for none): the
      alternatives are tried in order, and "->" needs its '>' right after the '-'. */
  function SepLen(s: string, i: nat): (n: nat)
    requires i < |s|
    ensures n <= 2 && i + n <= |s|
  {
    if s[i] == '→' || s[i] == ',' then 1
    else if s[i] == '-' && i + 1 < |s| && s[i + 1] == '>' then 2
    else 0
  }

  predicate NoSeparator(s: string)
  {
    forall i :: 0 <= i < |s| ==> SepLen(s, i) == 0
  }

  /** The pieces of s from the current piece's start on, the scan being at i. */
  function SplitPathFrom(s: string, start: nat, i: nat): (r: seq<string>)
    requires start <= i <= |s|
    requires forall k :: start <= k < i ==> SepLen(s, k) == 0
    ensures |r| >= 1
    ensures forall p :: p in r ==> NoSeparator(p)
    decreases |s| - i
  {
    if i == |s| then
      PieceHasNoSeparator(s, start, i);
      [s[start..i]]
    else if SepLen(s, i) > 0 then
      PieceHasNoSeparator(s, start, i);
      [s[start..i]] + SplitPathFrom(s, i + SepLen(s, i), i + SepLen(s, i))
    else SplitPathFrom(s, start, i + 1)
  }

  lemma PieceHasNoSeparator(s: string, start: nat, i: nat)
    requires start <= i <= |s|
    requires forall k :: start <= k < i ==> SepLen(s, k) == 0
    ensures NoSeparator(s[start..i])
  {
    var p := s[start..i];
    forall k | 0 <= k < |p|
      ensures SepLen(p, k) == 0
    {
      assert p[k] == s[start + k] && SepLen(s, start + k) == 0;
      if k + 1 < |p| {
        assert p[k + 1] == s[start + k + 1];
      }
    }
  }

  /** careerPath.split(/→|->|,/). */
  function SplitPath(s: string): (r: seq<string>)
    ensures |r| >= 1
    ensures forall p :: p in r ==> NoSeparator(p)
  {
    SplitPathFrom(s, 0, 0)
  }

  /** Text without a separator is one piece. */
  lemma SplitWithoutSeparator(s: string)
    requires NoSeparator(s)
    ensures SplitPath(s) == [s]
  {
    ScanToEnd(s, 0, 0);
  }

  lemma {:induction false} ScanToEnd(s: string, start: nat, i: nat)
    requires start <= i <= |s|
    requires forall k :: start <= k < |s| ==> SepLen(s, k) == 0
    ensures SplitPathFrom(s, start, i) == [s[start..]]
    decreases |s| - i
  {
    if i < |s| {
      ScanToEnd(s, start, i + 1);
    } else {
      assert s[start..i] == s[start..];
    }
  }

  /** The scan over a separator-free stretch gets to its end unchanged. */
  lemma {:induction false} ScanAcross(s: string, i: nat, j: nat)
    requires i <= j <= |s|
    requires forall k :: 0 <= k < j ==> SepLen(s, k) == 0
    ensures SplitPathFrom(s, 0, i) == SplitPathFrom(s, 0, j)
    decreases j - i
  {
    if i < j {
      ScanAcross(s, i + 1, j);
    }
  }

  /** What is left after a separator splits on its own: the scan there ignores what precedes it. */
  lemma {:induction false} ScanShift(p: string, t: string, start: nat, i: nat)
    requires start <= i <= |t|
    requires forall k :: start <= k < i ==> SepLen(t, k) == 0
    ensures forall k :: |p| + start <= k < |p| + i ==> SepLen(p + t, k) == 0
    ensures SplitPathFrom(p + t, |p| + start, |p| + i) == SplitPathFrom(t, start, i)
    decreases |t| - i
  {
    var s := p + t;
    forall k | |p| + start <= k < |s|
      ensures SepLen(s, k) == SepLen(t, k - |p|)
    {
      assert s[k] == t[k - |p|];
      if k + 1 < |s| {
        assert s[k + 1] == t[k - |p| + 1];
      }
    }
    if i < |t| {
      var n := SepLen(t, i);
      if n > 0 {
        ScanShift(p, t, i + n, i + n);
        assert s[|p| + start..|p| + i] == t[start..i];
      } else {
        ScanShift(p, t, start, i + 1);
      }
    } else {
      assert |p| + i == |s|;
      assert s[|p| + start..|p| + i] == t[start..i];
    }
  }

  predicate IsPathSeparator(sep: string)
  {
    sep == "→" || sep == "->" || sep == ","
  }

  /** The first separator ends the first piece; the rest splits on its own. */
  lemma SplitAtSeparator(a: string, sep: string, b: string)
    requires NoSeparator(a) && IsPathSeparator(sep)
    ensures SplitPath(a + sep + b) == [a] + SplitPath(b)
  {
    var s := a + sep + b;
    forall k | 0 <= k < |a|
      ensures SepLen(s, k) == 0
    {
      assert s[k] == a[k] && SepLen(a, k) == 0;
      if k + 1 < |a| {
        assert s[k + 1] == a[k + 1];
      } else {
        assert s[k + 1] == sep[0];
      }
    }
    ScanAcross(s, 0, |a|);
    assert s[|a|] == sep[0];
    if sep == "->" {
      assert s[|a| + 1] == '>';
    }
    assert SepLen(s, |a|) == |sep|;
    assert s[0..|a|] == a;
    assert s == (a + sep) + b;
    ScanShift(a + sep, b, 0, 0);
  }

  /** const careerPathList: a non-empty careerPath split at the separators, each piece
      trimmed and the empty ones dropped; an empty careerPath gives [jobTitle]. */
  function CareerPathList(input: ReportInput): (r: seq<string>)
    ensures input.careerPath == "" ==> r == [input.jobTitle]
    ensures input.careerPath != "" ==> forall i :: 0 <= i < |r| ==> IsTrimmedWord(r[i]) && NoSeparator(r[i])
  {
    if input.careerPath == "" then [input.jobTitle]
    else
      var parts := SplitPath(input.careerPath);
      var t := TrimAll(parts);
      var r := NonEmpty(t);
      forall i | 0 <= i < |r|
        ensures IsTrimmedWord(r[i]) && NoSeparator(r[i])
      {
        assert r[i] in t;
        var k :| 0 <= k < |t| && t[k] == r[i];
        TrimmedPathPiece(parts[k]);
      }
      r
  }

  lemma TrimmedPathPiece(p: string)
    requires NoSeparator(p) && Trim(p) != ""
    ensures IsTrimmedWord(Trim(p)) && NoSeparator(Trim(p))
  {
    var i, j :| 0 <= i <= j <= |p| && Trim(p) == p[i..j];
    PieceHasNoSeparator(p, i, j);
  }

  /** A path written as "a → b -> c" lists a, b and c. */
  lemma PathOfThreeSteps(a: string, b: string, c: string)
    requires IsTrimmedWord(a) && IsTrimmedWord(b) && IsTrimmedWord(c)
    requires NoSeparator(a) && NoSeparator(b) && NoSeparator(c)
    ensures CareerPathList(ReportInput("", "", "", "", a + "→" + b + "->" + c, "", "", "")) == [a, b, c]
  {
    var s := a + "→" + b + "->" + c;
    assert s == a + "→" + (b + "->" + c);
    SplitAtSeparator(a, "→", b + "->" + c);
    SplitAtSeparator(b, "->", c);
    SplitWithoutSeparator(c);
    assert SplitPath(s) == [a, b, c];
    TrimmedWordsKept([a, b, c]);
  }

  lemma TrimmedIsFixed(w: string)
    requires IsTrimmedWord(w)
    ensures Trim(w) == w
  {
    var i, j :| 0 <= i <= j <= |w| && Trim(w) == w[i..j];
  }

  /** Trimming and dropping empties leave a list of trimmed words as it is. */
  lemma {:induction false} TrimmedWordsKept(ws: seq<string>)
    requires forall i :: 0 <= i < |ws| ==> IsTrimmedWord(ws[i])
    ensures NonEmpty(TrimAll(ws)) == ws
  {
    if ws != [] {
      TrimmedIsFixed(ws[0]);
      TrimmedWordsKept(ws[1..]);
      assert TrimAll(ws) == [ws[0]] + TrimAll(ws[1..]);
      assert TrimAll(ws)[1..] == TrimAll(ws[1..]);
    }
  }

  // ---------------------------------------------------------------------------------
  // Decision signals
  // ---------------------------------------------------------------------------------

  function Scores(skills: seq<SkillScore>): (r: seq<int>)
    ensures |r| == |skills| && forall i :: 0 <= i < |r| ==> r[i] == skills[i].score
  {
    seq(|skills|, i requires 0 <= i < |skills| => skills[i].score)
  }

  function MarketAvgs(skills: seq<SkillScore>): (r: seq<int>)
    ensures |r| == |skills| && forall i :: 0 <= i < |r| ==> r[i] == skills[i].marketAvg
  {
    seq(|skills|, i requires 0 <= i < |skills| => skills[i].marketAvg)
  }

  /** avgSkillScore: the rounded mean skill score, or overallScore when there are no skills;
      on 0-100 scores it is a 0-100 score. */
  function AvgSkillScore(a: Analysis): (r: int)
    ensures a.skills == [] ==> r == a.overallScore
    ensures a.skills != [] ==> 2 * |a.skills| * r - |a.skills| <= 2 * Sum(Scores(a.skills)) < 2 * |a.skills| * r + |a.skills|
    ensures (forall i :: 0 <= i < |a.skills| ==> 0 <= a.skills[i].score <= 100) && 0 <= a.overallScore <= 100 ==> 0 <= r <= 100
  {
    if a.skills == [] then a.overallScore
    else
      var xs := Scores(a.skills);
      RoundMeanOfScores(xs);
      RoundMean(xs)
  }

  /** avgSkillMarketAvg: the rounded mean market average, or 70 when there are no skills. */
  function AvgSkillMarketAvg(a: Analysis): (r: int)
    ensures a.skills == [] ==> r == 70
    ensures a.skills != [] ==> 2 * |a.skills| * r - |a.skills| <= 2 * Sum(MarketAvgs(a.skills)) < 2 * |a.skills| * r + |a.skills|
    ensures (forall i :: 0 <= i < |a.skills| ==> 0 <= a.skills[i].marketAvg <= 100) ==> 0 <= r <= 100
  {
    if a.skills == [] then 70
    else
      var xs := MarketAvgs(a.skills);
      RoundMeanOfScores(xs);
      RoundMean(xs)
  }

  /** A rounded mean of 0-100 values is a 0-100 value. */
  lemma RoundMeanOfScores(xs: seq<int>)
    requires |xs| > 0
    ensures (forall i :: 0 <= i < |xs| ==> 0 <= xs[i] <= 100) ==> 0 <= RoundMean(xs) <= 100
  {
    if forall i :: 0 <= i < |xs| ==> 0 <= xs[i] <= 100 {
      RoundMeanWithin(xs, 0, 100);
    }
  }

  /** The leadership signal: 50 + 2 per year capped at 95 with leadership experience,
      30 + 1 per year capped at 60 without. */
  function LeadershipSignal(flag: string, years: int): (r: int)
    ensures flag == "true" ==> r <= 95 && (r == 95 <==> years >= 23) && (years < 23 ==> r == 50 + 2 * years)
    ensures flag != "true" ==> r <= 60 && (r == 60 <==> years >= 30) && (years < 30 ==> r == 30 + years)
  {
    if flag == "true" then Min(50 + years * 2, 95) else Min(30 + years, 60)
  }

  /** The global-portability signal: 55 + years capped at 85 with global experience,
      25 + years capped at 50 without. */
  function GlobalSignal(flag: string, years: int): (r: int)
    ensures flag == "true" ==> r <= 85 && (r == 85 <==> years >= 30) && (years < 30 ==> r == 55 + years)
    ensures flag != "true" ==> r <= 50 && (r == 50 <==> years >= 25) && (years < 25 ==> r == 25 + years)
  {
    if flag == "true" then Min(55 + years, 85) else Min(25 + years, 50)
  }

  /** More experience never lowers either signal. */
  lemma SignalsMonotone(flag: string, y1: int, y2: int)
    requires y1 <= y2
    ensures LeadershipSignal(flag, y1) <= LeadershipSignal(flag, y2)
    ensures GlobalSignal(flag, y1) <= GlobalSignal(flag, y2)
  {
  }

  /** Declaring the experience never lowers a signal, for any non-negative number of years. */
  lemma ExperienceFlagRaises(years: int)
    requires years >= 0
    ensures LeadershipSignal("true", years) >= LeadershipSignal("false", years) + 20
    ensures GlobalSignal("true", years) >= GlobalSignal("false", years) + 30
  {
  }

  /** The six decision signals, and the market averages they are compared with. */
  datatype Signals = Signals(
    industryGrowth: int,
    marketDemand: int,
    skillCompetitiveness: int,
    dxAlignment: int,
    globalPortability: int,
    leadership: int)

  function DecisionSignals(input: ReportInput, a: Analysis): (r: Signals)
    ensures r.industryGrowth == a.techTrend && r.dxAlignment == a.techTrend
    ensures r.marketDemand == a.demandLevel
    ensures r.skillCompetitiveness == AvgSkillScore(a)
    ensures r.leadership == LeadershipSignal(input.leadershipExperience, ExperienceYears(input))
    ensures r.globalPortability == GlobalSignal(input.globalExperience, ExperienceYears(input))
  {
    var years := ExperienceYears(input);
    Signals(a.techTrend, a.demandLevel, AvgSkillScore(a), a.techTrend,
            GlobalSignal(input.globalExperience, years), LeadershipSignal(input.leadershipExperience, years))
  }

  /** The fixed market averages, except skill competitiveness which follows the skills. */
  function MarketAverage(a: Analysis): (r: Signals)
    ensures r.skillCompetitiveness == AvgSkillMarketAvg(a)
    ensures r.industryGrowth == 70 && r.marketDemand == 70 && r.dxAlignment == 65
    ensures r.globalPortability == 60 && r.leadership == 58
  {
    Signals(70, 70, AvgSkillMarketAvg(a), 65, 60, 58)
  }

  // ---------------------------------------------------------------------------------
  // Skill gaps and trend deltas
  // ---------------------------------------------------------------------------------

  datatype SkillGap = SkillGap(name: string, yourScore: int, marketAvg: int, gap: int)

  /** The [SKILL_SCORES] list: one entry per skill, in order, with its gap. */
  function SkillGaps(skills: seq<SkillScore>): (r: seq<SkillGap>)
    ensures |r| == |skills|
    ensures forall i :: 0 <= i < |r| ==>
      r[i].name == skills[i].name && r[i].yourScore == skills[i].score
      && r[i].marketAvg == skills[i].marketAvg && r[i].gap == r[i].marketAvg - r[i].yourScore
  {
    seq(|skills|, i requires 0 <= i < |skills| =>
      SkillGap(skills[i].name, skills[i].score, skills[i].marketAvg, Gap(skills[i])))
  }

  /** The first skill of a list with the given name, as Array.prototype.find returns it. */
  function FindByName(skills: seq<SkillScore>, name: string): (r: Option<SkillScore>)
    ensures r.Some? ==> r.value in skills && r.value.name == name
  {
    if skills == [] then None
    else if skills[0].name == name then Some(skills[0])
    else FindByName(skills[1..], name)
  }

  /** find comes back empty exactly when no skill has the name. */
  lemma {:induction false} FindByNameNone(skills: seq<SkillScore>, name: string)
    ensures FindByName(skills, name).None? <==> forall i :: 0 <= i < |skills| ==> skills[i].name != name
  {
    if skills != [] && skills[0].name != name {
      FindByNameNone(skills[1..], name);
      assert forall i :: 1 <= i < |skills| ==> skills[i] == skills[1..][i - 1];
    }
  }

  /** find returns the first match: every skill before the one found has another name. */
  lemma {:induction false} FindByNameFirst(skills: seq<SkillScore>, name: string, i: nat)
    requires i < |skills| && skills[i].name == name
    requires forall k :: 0 <= k < i ==> skills[k].name != name
    ensures FindByName(skills, name) == Some(skills[i])
  {
    if i > 0 {
      FindByNameFirst(skills[1..], name, i - 1);
    }
  }

  datatype SkillDelta = SkillDelta(name: string, delta: int)

  /** skill_deltas: for each current skill in order whose name the previous analysis has,
      the change of its score against the first previous skill of that name. */
  function SkillDeltas(current: seq<SkillScore>, previous: seq<SkillScore>): (r: seq<SkillDelta>)
    ensures |r| <= |current|
  {
    if current == [] then []
    else
      var n := |current| - 1;
      var s := current[n];
      var prev := FindByName(previous, s.name);
      SkillDeltas(current[..n], previous) + (if prev.Some? then [SkillDelta(s.name, s.score - prev.value.score)] else [])
  }

  /** The deltas of two lists of current skills are the deltas of each, one after the other. */
  lemma {:induction false} SkillDeltasAppend(a: seq<SkillScore>, b: seq<SkillScore>, previous: seq<SkillScore>)
    ensures SkillDeltas(a + b, previous) == SkillDeltas(a, previous) + SkillDeltas(b, previous)
    decreases |b|
  {
    if b == [] {
      assert a + b == a;
    } else {
      var n := |b| - 1;
      assert (a + b)[..|a| + n] == a + b[..n];
      assert (a + b)[|a| + n] == b[n];
      SkillDeltasAppend(a, b[..n], previous);
    }
  }

  /** When every current skill is known from before, there is one delta per skill, in order,
      against the first previous skill of that name. */
  lemma {:induction false} SkillDeltasAllKnown(current: seq<SkillScore>, previous: seq<SkillScore>)
    requires forall i :: 0 <= i < |current| ==> FindByName(previous, current[i].name).Some?
    ensures |SkillDeltas(current, previous)| == |current|
    ensures forall i :: 0 <= i < |current| ==>
      SkillDeltas(current, previous)[i] == SkillDelta(current[i].name, current[i].score - FindByName(previous, current[i].name).value.score)
  {
    if current != [] {
      var n := |current| - 1;
      SkillDeltasAllKnown(current[..n], previous);
    }
  }

  /** Skills whose names were not seen before contribute nothing. */
  lemma {:induction false} SkillDeltasNoneKnown(current: seq<SkillScore>, previous: seq<SkillScore>)
    requires forall i :: 0 <= i < |current| ==> FindByName(previous, current[i].name).None?
    ensures SkillDeltas(current, previous) == []
  {
    if current != [] {
      SkillDeltasNoneKnown(current[..|current| - 1], previous);
    }
  }

  /** Comparing a skill list with itself, when its names are distinct, gives a zero delta for every skill. */
  lemma SkillDeltasAgainstItself(skills: seq<SkillScore>)
    requires forall i, j :: 0 <= i < j < |skills| ==> skills[i].name != skills[j].name
    ensures |SkillDeltas(skills, skills)| == |skills|
    ensures forall i :: 0 <= i < |skills| ==> SkillDeltas(skills, skills)[i] == SkillDelta(skills[i].name, 0)
  {
    forall i | 0 <= i < |skills|
      ensures FindByName(skills, skills[i].name) == Some(skills[i])
    {
      FindByNameFirst(skills, skills[i].name, i);
    }
    SkillDeltasAllKnown(skills, skills);
  }

  /** The [TREND_DELTA] values of a returning subscriber. */
  datatype TrendDelta = TrendDelta(
    overallScore: int,
    industryGrowth: int,
    marketDemand: int,
    skillCompetitiveness: int,
    skillDeltas: seq<SkillDelta>)

  function Trend(current: Analysis, previous: Analysis): (r: TrendDelta)
    ensures r.overallScore + previous.overallScore == current.overallScore
    ensures r.industryGrowth + previous.techTrend == current.techTrend
    ensures r.marketDemand + previous.demandLevel == current.demandLevel
    ensures r.skillCompetitiveness + AvgSkillScore(previous) == AvgSkillScore(current)
    ensures r.skillDeltas == SkillDeltas(current.skills, previous.skills)
  {
    TrendDelta(
      current.overallScore - previous.overallScore,
      current.techTrend - previous.techTrend,
      current.demandLevel - previous.demandLevel,
      AvgSkillScore(current) - AvgSkillScore(previous),
      SkillDeltas(current.skills, previous.skills))
  }

  /** An unchanged analysis with distinct skill names shows no change anywhere. */
  lemma TrendOfUnchanged(a: Analysis)
    requires forall i, j :: 0 <= i < j < |a.skills| ==> a.skills[i].name != a.skills[j].name
    ensures var t := Trend(a, a);
      t.overallScore == 0 && t.industryGrowth == 0 && t.marketDemand == 0 && t.skillCompetitiveness == 0
      && |t.skillDeltas| == |a.skills| && forall i :: 0 <= i < |a.skills| ==> t.skillDeltas[i].delta == 0
  {
    SkillDeltasAgainstItself(a.skills);
  }

  // ---------------------------------------------------------------------------------
  // buildUserPrompt
  // ---------------------------------------------------------------------------------

  /** Everything the prompt states about the user, as values. */
  datatype PromptData = PromptData(
    experienceYears: int,
    careerPath: seq<string>,
    skills: seq<string>,
    leadershipExperience: bool,
    globalExperience: bool,
    signals: Signals,
    marketAverage: Signals,
    skillGaps: seq<SkillGap>,
    trend: Option<TrendDelta>)

  datatype Outcome<T> = Done(value: T) | Threw

  /** The profile, signals and gaps of the prompt, without a previous analysis. */
  function BasePrompt(input: ReportInput, a: Analysis): PromptData
  {
    PromptData(
      ExperienceYears(input), CareerPathList(input), SplitSkills(input.skills),
      input.leadershipExperience == "true", input.globalExperience == "true",
      DecisionSignals(input, a), MarketAverage(a), SkillGaps(a.skills), None)
  }

  /** buildUserPrompt as written: userPrompt is declared const, so appending the
      previous-analysis section throws a TypeError whenever a previous analysis is given. */
  function BuildPromptAsWritten(input: ReportInput, a: Analysis, previous: Option<Analysis>): (r: Outcome<PromptData>)
    ensures previous.Some? <==> r.Threw?
  {
    if previous.Some? then Threw else Done(BasePrompt(input, a))
  }

  /** buildUserPrompt as evidently intended (userPrompt declared with let): the previous
      analysis, when there is one, adds its trend deltas to the prompt. */
  function BuildPrompt(input: ReportInput, a: Analysis, previous: Option<Analysis>): (r: PromptData)
    ensures r.trend.Some? <==> previous.Some?
    ensures previous.Some? ==> r.trend == Some(Trend(a, previous.value))
    ensures r.(trend := None) == BasePrompt(input, a)
  {
    BasePrompt(input, a).(trend := if previous.Some? then Some(Trend(a, previous.value)) else None)
  }

  /** The discrepancy: every request with a previous analysis fails as written, where the
      intended builder yields a prompt carrying the trend; without one both agree. */
  lemma PromptAsWrittenThrowsOnHistory(input: ReportInput, a: Analysis, previous: Analysis)
    ensures BuildPromptAsWritten(input, a, Some(previous)) == Threw
    ensures BuildPrompt(input, a, Some(previous)).trend == Some(Trend(a, previous))
    ensures BuildPromptAsWritten(input, a, None) == Done(BuildPrompt(input, a, None))
  {
  }

  /** Every skill of the analysis has a gap entry, lined up with it. */
  lemma PromptGapsFollowSkills(input: ReportInput, a: Analysis, previous: Option<Analysis>)
    ensures |BuildPrompt(input, a, previous).skillGaps| == |a.skills|
    ensures forall i :: 0 <= i < |a.skills| ==> BuildPrompt(input, a, previous).skillGaps[i].gap == Gap(a.skills[i])
  {
  }

  /** Lines 542-544 of the endpoint: an empty careerPath falls back to the job title (or ""),
      and an empty leadership or global flag to "false". */
  function WithDefaults(input: ReportInput): (r: ReportInput)
    ensures r.careerPath == (if input.careerPath != "" then input.careerPath else input.jobTitle)
    ensures r.leadershipExperience == (if input.leadershipExperience != "" then input.leadershipExperience else "false")
    ensures r.globalExperience == (if input.globalExperience != "" then input.globalExperience else "false")
    ensures r.jobTitle == input.jobTitle && r.experience == input.experience && r.skills == input.skills
    ensures r.industry == input.industry && r.goal == input.goal
  {
    input.(
      careerPath := if input.careerPath != "" then input.careerPath else input.jobTitle,
      leadershipExperience := if input.leadershipExperience != "" then input.leadershipExperience else "false",
      globalExperience := if input.globalExperience != "" then input.globalExperience else "false")
  }

  /** After the defaults, the path list is the job title only when both the path and the
      title were empty; otherwise it is the split of the path (or of the title). */
  lemma DefaultedPath(input: ReportInput)
    ensures input.careerPath == "" && input.jobTitle == "" ==> CareerPathList(WithDefaults(input)) == [""]
    ensures input.careerPath == "" && input.jobTitle != "" ==>
      CareerPathList(WithDefaults(input)) == NonEmpty(TrimAll(SplitPath(input.jobTitle)))
  {
  }
}
