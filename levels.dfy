/** The three-way score classification shared by the pages and the digest:
    Strong from 70, Stable from 40, Weak below. */
module Levels {
  datatype Level = Strong | Stable | Weak

  /** The level's English name, as the score bar and the report page print it. */
  function Name(l: Level): string
  {
    match l
    case Strong => "Strong"
    case Stable => "Stable"
    case Weak => "Weak"
  }
}

/** src/components/ScoreBar.tsx: the labelled bar drawn for one score. */
module ScoreBar {
  import opened Levels

  /** The label (caption) and the two style classes getLevel returns. */
  datatype LevelStyle = LevelStyle(caption: string, color: string, bgColor: string)

  const StrongStyle := LevelStyle("Strong", "text-strong", "bg-strong")
  const StableStyle := LevelStyle("Stable", "text-stable", "bg-stable")
  const WeakStyle := LevelStyle("Weak", "text-weak", "bg-weak")

  /** getLevel: label, colour and background all come from one branch of the if-chain. */
  function GetLevel(score: int): (r: LevelStyle)
    ensures r.caption == "Strong" <==> score >= 70
    ensures r.caption == "Stable" <==> 40 <= score < 70
    ensures r.caption == "Weak" <==> score < 40
    ensures r == StrongStyle || r == StableStyle || r == WeakStyle
  {
    if score >= 70 then StrongStyle
    else if score >= 40 then StableStyle
    else WeakStyle
  }

  /** The level getLevel's branch stands for. */
  function LevelOf(score: int): (l: Level)
    ensures Name(l) == GetLevel(score).caption
  {
    if score >= 70 then Strong else if score >= 40 then Stable else Weak
  }

  /** Math.min((score / maxScore) * 100, 100): the bar width in percent. */
  function Pct(score: int, maxScore: int): (r: real)
    requires maxScore > 0
    ensures r <= 100.0 && r <= score as real / maxScore as real * 100.0
    ensures r == 100.0 || r * maxScore as real == score as real * 100.0
  {
    var p := score as real / maxScore as real * 100.0;
    if p <= 100.0 then p else 100.0
  }

  /** With the default maximum of 100 the width is the score itself, capped at 100. */
  lemma PctDefault(score: int)
    ensures Pct(score, 100) == if score <= 100 then score as real else 100.0
  {
    assert score as real / 100.0 * 100.0 == score as real;
  }
}

/** src/pages/Report.tsx: the overall level, the skill bars, the gap rows and the
    data-source chips of the full report page. */
module ReportPage {
  import opened JsText
  import opened Career

  datatype OverallStyle = OverallStyle(text: string, color: string)

  /** getOverallLevel. */
  function OverallLevel(overallScore: int): (r: OverallStyle)
    ensures r.text == "Strong" <==> overallScore >= 70
    ensures r.text == "Stable" <==> 40 <= overallScore < 70
    ensures r.text == "Weak" <==> overallScore < 40
    ensures r.color == "text-" + (if r.text == "Strong" then "strong" else if r.text == "Stable" then "stable" else "weak")
  {
    if overallScore >= 70 then OverallStyle("Strong", "text-strong")
    else if overallScore >= 40 then OverallStyle("Stable", "text-stable")
    else OverallStyle("Weak", "text-weak")
  }

  /** The badge style of a gap: a large gap is styled as a weakness. */
  datatype BadgeTier = WeakBadge | StableBadge | StrongBadge

  function GapTier(gap: int): (t: BadgeTier)
    ensures t == WeakBadge <==> gap >= 40
    ensures t == StableBadge <==> 20 <= gap < 40
    ensures t == StrongBadge <==> gap < 20
  {
    if gap >= 40 then WeakBadge else if gap >= 20 then StableBadge else StrongBadge
  }

  /** The gap text: a '+' in front of positive gaps, then the number. */
  function GapText(gap: int): (r: string)
    ensures r != []
    ensures r[0] == '+' <==> gap > 0
    ensures r[0] == '-' <==> gap < 0
  {
    (if gap > 0 then "+" else "") + IntText(gap)
  }

  /** The gap text reads back as the gap: parseInt accepts the '+' sign. */
  lemma GapTextReadsBack(gap: int)
    ensures ParseInt(GapText(gap)) == Some(gap)
  {
    if gap > 0 {
      ParseSignedIntText(gap);
    } else {
      assert GapText(gap) == IntText(gap);
      ParseIntText(gap);
    }
  }

  /** The generated report: a summary and markdown content. */
  datatype ReportData = ReportData(summary: string, content: string)

  /** report?.content is truthy. */
  predicate HasContent(report: Option<ReportData>)
  {
    report.Some? && report.value.content != ""
  }

  datatype GapRow = GapRow(name: string, score: int, marketAvg: int, gap: int, tier: BadgeTier, text: string)

  function ToGapRow(s: SkillScore): GapRow
  {
    var gap := s.marketAvg - s.score;
    GapRow(s.name, s.score, s.marketAvg, gap, GapTier(gap), GapText(gap))
  }

  /** The gap section: one row per skill in analysis order, shown only when the report
      has no content. */
  function GapRows(analysis: Analysis, report: Option<ReportData>): (r: seq<GapRow>)
    ensures HasContent(report) ==> r == []
    ensures !HasContent(report) ==> |r| == |analysis.skills| && forall i :: 0 <= i < |r| ==>
      (r[i].name == analysis.skills[i].name && r[i].gap == Gap(analysis.skills[i])
       && r[i].tier == GapTier(r[i].gap))
  {
    if HasContent(report) then []
    else seq(|analysis.skills|, i requires 0 <= i < |analysis.skills| => ToGapRow(analysis.skills[i]))
  }

  /** The skill section: one bar (name and score) per skill, under the same condition. */
  function SkillBars(analysis: Analysis, report: Option<ReportData>): (r: seq<(string, int)>)
    ensures HasContent(report) ==> r == []
    ensures !HasContent(report) ==> |r| == |analysis.skills| && forall i :: 0 <= i < |r| ==>
      r[i] == (analysis.skills[i].name, analysis.skills[i].score)
  {
    if HasContent(report) then []
    else seq(|analysis.skills|, i requires 0 <= i < |analysis.skills| => (analysis.skills[i].name, analysis.skills[i].score))
  }

  /** The bars and the gap rows always come together and line up skill by skill. */
  lemma BarsAndRowsAlign(analysis: Analysis, report: Option<ReportData>, i: nat)
    requires i < |SkillBars(analysis, report)|
    ensures i < |GapRows(analysis, report)|
    ensures GapRows(analysis, report)[i].name == SkillBars(analysis, report)[i].0
    ensures GapRows(analysis, report)[i].gap + SkillBars(analysis, report)[i].1 == analysis.skills[i].marketAvg
  {
  }

  /** The source chips: the analysis sources in order, then "AI Strategic Analysis"
      exactly when a report exists. */
  function SourceChips(analysis: Analysis, report: Option<ReportData>): (r: seq<string>)
    ensures |analysis.sources| <= |r| && r[..|analysis.sources|] == analysis.sources
    ensures report.None? ==> r == analysis.sources
    ensures report.Some? ==> |r| == |analysis.sources| + 1 && r[|r| - 1] == "AI Strategic Analysis"
  {
    analysis.sources + (if report.Some? then ["AI Strategic Analysis"] else [])
  }
}

/** src/pages/Preview.tsx: the teaser page labels the overall score with the same cut points. */
module Preview {
  import opened Levels

  /** getLabel, returning which of the three translated labels is shown. */
  function Label(score: int): (l: Level)
    ensures l == Strong <==> score >= 70
    ensures l == Stable <==> 40 <= score < 70
    ensures l == Weak <==> score < 40
  {
    if score >= 70 then Strong else if score >= 40 then Stable else Weak
  }
}
