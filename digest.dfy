/** The decision values of the daily digest e-mail: the level line, the three largest
    skill gaps, the colour and sign of each gap cell and the warning block. */
module Digest {
  import opened JsText
  import opened Career
  import ReportPage

  /** analysis?.overallScore ?? 0: a subscriber without a stored analysis scores 0. */
  function DigestScore(analysis: Option<Analysis>): (score: int)
    ensures analysis.None? ==> score == 0
    ensures analysis.Some? ==> score == analysis.value.overallScore
  {
    if analysis.Some? then analysis.value.overallScore else 0
  }

  /** The level text with its marker and the level colour; both ternaries use the same cut points. */
  datatype DigestLevel = DigestLevel(text: string, color: string)

  const StrongLevel := DigestLevel("Strong \U{1F7E2}", "#16a34a")
  const StableLevel := DigestLevel("Stable \U{1F7E1}", "#ca8a04")
  const WeakLevel := DigestLevel("Weak \U{1F534}", "#dc2626")

  function LevelOf(score: int): (r: DigestLevel)
    ensures r == StrongLevel <==> score >= 70
    ensures r == StableLevel <==> 40 <= score < 70
    ensures r == WeakLevel <==> score < 40
  {
    if score >= 70 then StrongLevel else if score >= 40 then StableLevel else WeakLevel
  }

  /** A subscriber without an analysis is shown as Weak. */
  lemma MissingAnalysisIsWeak()
    ensures LevelOf(DigestScore(None)) == WeakLevel
  {
  }

  /** A skill together with its gap ({ ...s, gap: s.marketAvg - s.score }). */
  datatype GapSkill = GapSkill(name: string, score: int, marketAvg: int, gap: int)

  function WithGap(s: SkillScore): (g: GapSkill)
    ensures g.gap == Gap(s)
  {
    GapSkill(s.name, s.score, s.marketAvg, s.marketAvg - s.score)
  }

  function WithGaps(skills: seq<SkillScore>): (r: seq<GapSkill>)
    ensures |r| == |skills|
    ensures forall i :: 0 <= i < |r| ==> r[i] == WithGap(skills[i])
  {
    seq(|skills|, i requires 0 <= i < |skills| => WithGap(skills[i]))
  }

  /** Gaps never increase along the sequence. */
  predicate Descending(s: seq<GapSkill>)
  {
    forall i, j :: 0 <= i < j < |s| ==> s[i].gap >= s[j].gap
  }

  /** The entries with one given gap, in their order. */
  function WithGapValue(s: seq<GapSkill>, g: int): seq<GapSkill>
  {
    if s == [] then []
    else (if s[0].gap == g then [s[0]] else []) + WithGapValue(s[1..], g)
  }

  /** Inserting x into a descending sequence places it after every entry with a gap at
      least as large: a later element never overtakes an earlier one with an equal gap. */
  function Insert(x: GapSkill, s: seq<GapSkill>): (r: seq<GapSkill>)
    ensures |r| == |s| + 1
  {
    if s == [] then [x]
    else if s[0].gap < x.gap then [x] + s
    else [s[0]] + Insert(x, s[1..])
  }

  /** Array.prototype.sort with comparator b.gap - a.gap; the sort is stable, modelled
      as insertion of each element in turn. */
  function SortByGap(s: seq<GapSkill>): (r: seq<GapSkill>)
    ensures |r| == |s|
  {
    if s == [] then [] else Insert(s[|s| - 1], SortByGap(s[..|s| - 1]))
  }

  /** Insertion adds exactly x. */
  lemma {:induction false} InsertPermutes(x: GapSkill, s: seq<GapSkill>)
    ensures multiset(Insert(x, s)) == multiset(s) + multiset{x}
  {
    if s != [] && s[0].gap >= x.gap {
      InsertPermutes(x, s[1..]);
      assert s == [s[0]] + s[1..];
    }
  }

  /** The sort is a permutation of its input. */
  lemma {:induction false} SortPermutes(s: seq<GapSkill>)
    ensures multiset(SortByGap(s)) == multiset(s)
  {
    if s != [] {
      SortPermutes(s[..|s| - 1]);
      InsertPermutes(s[|s| - 1], SortByGap(s[..|s| - 1]));
      assert s == s[..|s| - 1] + [s[|s| - 1]];
    }
  }

  /** An upper bound on the gaps survives insertion of an element below it. */
  lemma {:induction false} InsertBelow(x: GapSkill, s: seq<GapSkill>, g: int)
    requires x.gap <= g && forall i :: 0 <= i < |s| ==> s[i].gap <= g
    ensures forall i :: 0 <= i < |Insert(x, s)| ==> Insert(x, s)[i].gap <= g
  {
    if s != [] && s[0].gap >= x.gap {
      InsertBelow(x, s[1..], g);
    }
  }

  lemma {:induction false} InsertDescending(x: GapSkill, s: seq<GapSkill>)
    requires Descending(s)
    ensures Descending(Insert(x, s))
  {
    if s != [] && s[0].gap >= x.gap {
      var t := Insert(x, s[1..]);
      InsertDescending(x, s[1..]);
      InsertBelow(x, s[1..], s[0].gap);
      var r := Insert(x, s);
      assert r == [s[0]] + t;
      forall i, j | 0 <= i < j < |r| ensures r[i].gap >= r[j].gap {
        if i > 0 {
          assert r[i] == t[i - 1] && r[j] == t[j - 1];
        } else {
          assert r[j] == t[j - 1];
        }
      }
    }
  }

  lemma {:induction false} SortDescending(s: seq<GapSkill>)
    ensures Descending(SortByGap(s))
  {
    if s != [] {
      SortDescending(s[..|s| - 1]);
      InsertDescending(s[|s| - 1], SortByGap(s[..|s| - 1]));
    }
  }

  lemma {:induction false} WithGapValueAppend(a: seq<GapSkill>, b: seq<GapSkill>, g: int)
    ensures WithGapValue(a + b, g) == WithGapValue(a, g) + WithGapValue(b, g)
  {
    if a == [] {
      assert a + b == b;
    } else {
      var head := if a[0].gap == g then [a[0]] else [];
      assert (a + b)[0] == a[0];
      assert (a + b)[1..] == a[1..] + b;
      assert WithGapValue(a + b, g) == head + WithGapValue(a[1..] + b, g);
      WithGapValueAppend(a[1..], b, g);
      assert WithGapValue(a, g) == head + WithGapValue(a[1..], g);
    }
  }

  /** Inserting x adds it at the end of the entries sharing its gap and leaves the
      other gap classes alone. */
  lemma {:induction false} InsertStable(x: GapSkill, s: seq<GapSkill>, g: int)
    requires Descending(s)
    ensures WithGapValue(Insert(x, s), g) == WithGapValue(s, g) + (if x.gap == g then [x] else [])
  {
    if s == [] {
    } else if s[0].gap < x.gap {
      assert Insert(x, s) == [x] + s;
      WithGapValueAppend([x], s, g);
      if x.gap == g {
        NoneWithGapBelow(s, g);
      }
    } else {
      InsertStable(x, s[1..], g);
      assert Insert(x, s)[1..] == Insert(x, s[1..]);
    }
  }

  /** In a descending sequence that starts below g, no entry has gap g. */
  lemma {:induction false} NoneWithGapBelow(s: seq<GapSkill>, g: int)
    requires Descending(s) && (s != [] ==> s[0].gap < g)
    ensures WithGapValue(s, g) == []
  {
    if s != [] {
      if |s| > 1 { assert s[1].gap <= s[0].gap; }
      NoneWithGapBelow(s[1..], g);
    }
  }

  /** Stability: for every gap value, the entries with that gap keep their input order. */
  lemma {:induction false} SortStable(s: seq<GapSkill>, g: int)
    ensures WithGapValue(SortByGap(s), g) == WithGapValue(s, g)
  {
    if s != [] {
      var init, last := s[..|s| - 1], s[|s| - 1];
      var sortedInit := SortByGap(init);
      assert SortByGap(s) == Insert(last, sortedInit);
      SortStable(init, g);
      SortDescending(init);
      InsertStable(last, sortedInit, g);
      assert s == init + [last];
      WithGapValueAppend(init, [last], g);
      assert WithGapValue([last], g) == (if last.gap == g then [last] else []);
    }
  }

  /** topGaps: the skills with their gaps, largest gap first, ties in input order, at most
      three; every skill left out has a gap no larger than the last one kept. */
  function TopGaps(analysis: Option<Analysis>): (r: seq<GapSkill>)
    ensures |r| <= 3
    ensures var all := WithGaps(if analysis.Some? then analysis.value.skills else []);
      |r| == (if |all| < 3 then |all| else 3) && multiset(r) <= multiset(all)
    ensures Descending(r)
    ensures var all := WithGaps(if analysis.Some? then analysis.value.skills else []);
      forall x :: x in multiset(all) - multiset(r) ==> r != [] && x.gap <= r[|r| - 1].gap
  {
    var all := WithGaps(if analysis.Some? then analysis.value.skills else []);
    var sorted := SortByGap(all);
    SortDescending(all);
    SortPermutes(all);
    var r := sorted[..if |sorted| < 3 then |sorted| else 3];
    PrefixKeeps(sorted, |r|);
    PrefixDominates(sorted, |r|);
    r
  }

  /** What a prefix of a descending sequence leaves out is no larger than its last entry. */
  lemma PrefixDominates(s: seq<GapSkill>, n: nat)
    requires Descending(s) && n <= |s| && (s != [] ==> n > 0)
    ensures forall x :: x in multiset(s) - multiset(s[..n]) ==> s[..n] != [] && x.gap <= s[n - 1].gap
  {
    assert s == s[..n] + s[n..];
    assert multiset(s) - multiset(s[..n]) == multiset(s[n..]);
    forall x | x in multiset(s) - multiset(s[..n])
      ensures s[..n] != [] && x.gap <= s[n - 1].gap
    {
      assert x in s[n..];
      var k :| n <= k < |s| && s[k] == x;
    }
  }

  /** A prefix of a descending sequence is descending and drawn from it. */
  lemma PrefixKeeps(s: seq<GapSkill>, n: nat)
    requires Descending(s) && n <= |s|
    ensures Descending(s[..n]) && multiset(s[..n]) <= multiset(s)
  {
    assert s == s[..n] + s[n..];
  }

  /** Ties keep input order: for every gap value, the top entries with that gap are the
      first skills of the analysis with that gap, in analysis order. */
  lemma TopGapsStable(analysis: Option<Analysis>, g: int)
    ensures var all := WithGaps(if analysis.Some? then analysis.value.skills else []);
      var top := WithGapValue(TopGaps(analysis), g);
      |top| <= |WithGapValue(all, g)| && top == WithGapValue(all, g)[..|top|]
  {
    var all := WithGaps(if analysis.Some? then analysis.value.skills else []);
    var sorted := SortByGap(all);
    var r := TopGaps(analysis);
    assert sorted == r + sorted[|r|..];
    WithGapValueAppend(r, sorted[|r|..], g);
    SortStable(all, g);
  }

  /** The top gaps are in descending order of gap, the first is at least every skill's
      gap, and each kept entry is at least the gap of every skill left out. */
  lemma TopGapsAreLargest(analysis: Option<Analysis>, i: nat)
    requires analysis.Some? && i < |analysis.value.skills|
    requires |TopGaps(analysis)| > 0
    ensures Descending(TopGaps(analysis))
    ensures TopGaps(analysis)[0].gap >= Gap(analysis.value.skills[i])
    ensures var top := TopGaps(analysis);
      WithGap(analysis.value.skills[i]) in multiset(WithGaps(analysis.value.skills)) - multiset(top) ==>
        forall j :: 0 <= j < |top| ==> top[j].gap >= Gap(analysis.value.skills[i])
  {
    var all := WithGaps(analysis.value.skills);
    var sorted := SortByGap(all);
    SortDescending(all);
    SortPermutes(all);
    assert all[i] in multiset(sorted);
    var k :| 0 <= k < |sorted| && sorted[k] == all[i];
    assert sorted[0].gap >= sorted[k].gap;
  }

  /** The gap cell: red from a gap of 20, green below; the text as on the report page. */
  datatype GapCell = GapCell(color: string, text: string)

  function GapCellOf(gap: int): (c: GapCell)
    ensures c.color == "#dc2626" <==> gap >= 20
    ensures c.color == "#16a34a" <==> gap < 20
    ensures c.text != [] && (c.text[0] == '+' <==> gap > 0)
  {
    GapCell(if gap >= 20 then "#dc2626" else "#16a34a", ReportPage.GapText(gap))
  }

  /** topGaps[0] && topGaps[0].gap >= 20. */
  predicate ShowsWarning(top: seq<GapSkill>)
  {
    top != [] && top[0].gap >= 20
  }

  /** The warning appears exactly when some skill of the analysis has a gap of at least 20. */
  lemma WarningIffLargeGap(analysis: Option<Analysis>)
    ensures ShowsWarning(TopGaps(analysis)) <==>
      analysis.Some? && exists i :: 0 <= i < |analysis.value.skills| && Gap(analysis.value.skills[i]) >= 20
  {
    if analysis.Some? && exists i :: 0 <= i < |analysis.value.skills| && Gap(analysis.value.skills[i]) >= 20 {
      var i :| 0 <= i < |analysis.value.skills| && Gap(analysis.value.skills[i]) >= 20;
      TopGapsAreLargest(analysis, i);
    }
    if ShowsWarning(TopGaps(analysis)) {
      var all := WithGaps(if analysis.Some? then analysis.value.skills else []);
      var top := TopGaps(analysis);
      assert top[0] in multiset(all);
      var k :| 0 <= k < |all| && all[k] == top[0];
      assert Gap(analysis.value.skills[k]) >= 20;
    }
  }
}

/** Every place that classifies a score (the score bar, the report page, the preview
    page and the digest) draws the lines at the same two cut points. */
module LevelAgreement {
  import opened Levels
  import ScoreBar
  import ReportPage
  import Preview
  import Digest

  /** The classifier sites agree on every integer score. */
  lemma AllSitesAgree(score: int)
    ensures ScoreBar.GetLevel(score).caption == Name(ScoreBar.LevelOf(score))
    ensures ReportPage.OverallLevel(score).text == Name(ScoreBar.LevelOf(score))
    ensures Preview.Label(score) == ScoreBar.LevelOf(score)
    ensures Digest.LevelOf(score).text[..|Name(ScoreBar.LevelOf(score))|] == Name(ScoreBar.LevelOf(score))
  {
  }
}
