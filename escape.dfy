/** escHtml of the digest worker: five global replacements applied in order,
    ampersand first, so that no entity is escaped twice. */
module HtmlEscape {
  import opened JsText

  /** s.replace(/c/g, rep). */
  function ReplaceAll(s: string, c: char, rep: string): (r: string)
    ensures c !in rep ==> c !in r
    ensures forall d :: d != c && d !in s && d !in rep ==> d !in r
  {
    if s == [] then []
    else (if s[0] == c then rep else [s[0]]) + ReplaceAll(s[1..], c, rep)
  }

  lemma {:induction false} ReplaceAllAppend(a: string, b: string, c: char, rep: string)
    ensures ReplaceAll(a + b, c, rep) == ReplaceAll(a, c, rep) + ReplaceAll(b, c, rep)
  {
    if a == [] {
      assert a + b == b;
    } else {
      assert (a + b)[0] == a[0];
      assert (a + b)[1..] == a[1..] + b;
      ReplaceAllAppend(a[1..], b, c, rep);
    }
  }

  lemma {:induction false} ReplaceAllAbsent(s: string, c: char, rep: string)
    requires c !in s
    ensures ReplaceAll(s, c, rep) == s
  {
    if s != [] {
      ReplaceAllAbsent(s[1..], c, rep);
      assert [s[0]] + s[1..] == s;
    }
  }

  /** The five replacements in the order the worker applies them. */
  function Chain(s: string): string
  {
    ReplaceAll(ReplaceAll(ReplaceAll(ReplaceAll(ReplaceAll(s, '&', "&amp;"), '<', "&lt;"), '>', "&gt;"), '"', "&quot;"), '\'', "&#039;")
  }

  /** escHtml: null, undefined (None) and the empty string give "". */
  function EscHtml(s: Option<string>): (r: string)
    ensures s.None? || s.value == [] ==> r == []
    ensures '<' !in r && '>' !in r && '"' !in r && '\'' !in r
  {
    if s.None? || s.value == [] then [] else ChainRemovesSpecials(s.value); Chain(s.value)
  }

  /** Each replacement removes its character, and the later ones bring none of the
      earlier ones back. */
  lemma ChainRemovesSpecials(s: string)
    ensures '<' !in Chain(s) && '>' !in Chain(s) && '"' !in Chain(s) && '\'' !in Chain(s)
  {
    var s2 := ReplaceAll(ReplaceAll(s, '&', "&amp;"), '<', "&lt;");
    assert '<' !in s2;
    var s3 := ReplaceAll(s2, '>', "&gt;");
    assert '<' !in s3 && '>' !in s3;
    var s4 := ReplaceAll(s3, '"', "&quot;");
    assert '<' !in s4 && '>' !in s4 && '"' !in s4;
    var s5 := ReplaceAll(s4, '\'', "&#039;");
    assert '<' !in s5 && '>' !in s5 && '"' !in s5 && '\'' !in s5;
  }

  /** The entity for one character, or the character itself. */
  function EscapeChar(c: char): string
  {
    if c == '&' then "&amp;"
    else if c == '<' then "&lt;"
    else if c == '>' then "&gt;"
    else if c == '"' then "&quot;"
    else if c == '\'' then "&#039;"
    else [c]
  }

  /** The reference definition: every character escaped on its own. */
  function EscapeEach(s: string): string
  {
    if s == [] then [] else EscapeChar(s[0]) + EscapeEach(s[1..])
  }

  lemma ChainAppend(a: string, b: string)
    ensures Chain(a + b) == Chain(a) + Chain(b)
  {
    var a1, b1 := ReplaceAll(a, '&', "&amp;"), ReplaceAll(b, '&', "&amp;");
    ReplaceAllAppend(a, b, '&', "&amp;");
    var a2, b2 := ReplaceAll(a1, '<', "&lt;"), ReplaceAll(b1, '<', "&lt;");
    ReplaceAllAppend(a1, b1, '<', "&lt;");
    var a3, b3 := ReplaceAll(a2, '>', "&gt;"), ReplaceAll(b2, '>', "&gt;");
    ReplaceAllAppend(a2, b2, '>', "&gt;");
    var a4, b4 := ReplaceAll(a3, '"', "&quot;"), ReplaceAll(b3, '"', "&quot;");
    ReplaceAllAppend(a3, b3, '"', "&quot;");
    ReplaceAllAppend(a4, b4, '\'', "&#039;");
  }

  lemma ReplaceOne(c: char, d: char, rep: string)
    ensures ReplaceAll([c], d, rep) == if c == d then rep else [c]
  {
    assert [c][1..] == [];
  }

  /** Four replacement steps that find nothing to replace leave the text as it is. */
  lemma LaterStepsKeep(e: string, from: nat)
    requires 1 <= from <= 5
    requires from <= 1 ==> '<' !in e
    requires from <= 2 ==> '>' !in e
    requires from <= 3 ==> '"' !in e
    requires from <= 4 ==> '\'' !in e
    ensures Steps(e, from) == e
    decreases 5 - from
  {
    if from < 5 {
      var c := StepChar(from);
      ReplaceAllAbsent(e, c, StepRep(from));
      LaterStepsKeep(e, from + 1);
    }
  }

  /** Step k of the chain (k = 0 .. 4) replaces StepChar(k) by StepRep(k). */
  function StepChar(k: nat): char
  {
    if k == 0 then '&' else if k == 1 then '<' else if k == 2 then '>' else if k == 3 then '"' else '\''
  }

  function StepRep(k: nat): string
  {
    if k == 0 then "&amp;" else if k == 1 then "&lt;" else if k == 2 then "&gt;" else if k == 3 then "&quot;" else "&#039;"
  }

  /** Steps k .. 4 of the chain applied to s. */
  function Steps(s: string, k: nat): string
    decreases 5 - k
  {
    if k >= 5 then s else Steps(ReplaceAll(s, StepChar(k), StepRep(k)), k + 1)
  }

  lemma ChainIsSteps(s: string)
    ensures Chain(s) == Steps(s, 0)
  {
  }

  /** On a single character the chain produces exactly that character's entity: the
      entities introduced by earlier steps contain none of the later targets. */
  lemma ChainChar(c: char)
    ensures Chain([c]) == EscapeChar(c)
  {
    ChainIsSteps([c]);
    StepsChar(c, 0);
  }

  lemma StepsChar(c: char, k: nat)
    requires k <= 5
    requires forall j :: 0 <= j < k ==> c != StepChar(j)
    ensures Steps([c], k) == EscapeChar(c)
    decreases 5 - k
  {
    if k == 5 {
      assert c != '&' && c != '<' && c != '>' && c != '"' && c != '\'' by {
        assert c != StepChar(0) && c != StepChar(1) && c != StepChar(2) && c != StepChar(3) && c != StepChar(4);
      }
    } else {
      ReplaceOne(c, StepChar(k), StepRep(k));
      if c == StepChar(k) {
        var e := StepRep(k);
        assert e == EscapeChar(c) by {
          assert (k > 0 ==> c != StepChar(0)) && (k > 1 ==> c != StepChar(1)) && (k > 2 ==> c != StepChar(2)) && (k > 3 ==> c != StepChar(3));
        }
        LaterStepsKeep(e, k + 1);
      } else {
        StepsChar(c, k + 1);
      }
    }
  }

  /** The chain of global replacements equals escaping each character on its own. */
  lemma {:induction false} ChainIsEscapeEach(s: string)
    ensures Chain(s) == EscapeEach(s)
  {
    if s != [] {
      assert s == [s[0]] + s[1..];
      ChainAppend([s[0]], s[1..]);
      ChainChar(s[0]);
      ChainIsEscapeEach(s[1..]);
    }
  }

  /** Decoding the five entities (and only those); every other character stays. */
  function Unescape(s: string): string
    decreases |s|
  {
    if s == [] then []
    else if s[0] != '&' then [s[0]] + Unescape(s[1..])
    else if StartsWith(s, "&amp;") then "&" + Unescape(s[5..])
    else if StartsWith(s, "&lt;") then "<" + Unescape(s[4..])
    else if StartsWith(s, "&gt;") then ">" + Unescape(s[4..])
    else if StartsWith(s, "&quot;") then "\"" + Unescape(s[6..])
    else if StartsWith(s, "&#039;") then "'" + Unescape(s[6..])
    else [s[0]] + Unescape(s[1..])
  }

  lemma UnescapeChar(c: char, t: string)
    ensures Unescape(EscapeChar(c) + t) == [c] + Unescape(t)
  {
    var s := EscapeChar(c) + t;
    if c == '&' {
      assert s[..5] == "&amp;" && s[5..] == t;
    } else if c == '<' {
      UnescapeLt(t);
    } else if c == '>' {
      UnescapeGt(t);
    } else if c == '"' {
      UnescapeQuot(t);
    } else if c == '\'' {
      UnescapeApos(t);
    } else {
      assert s[0] == c && s[1..] == t;
    }
  }

  lemma UnescapeLt(t: string)
    ensures Unescape("&lt;" + t) == "<" + Unescape(t)
  {
    var s := "&lt;" + t;
    assert s[1] == 'l';
    assert s[..4] == "&lt;" && s[4..] == t;
  }

  lemma UnescapeGt(t: string)
    ensures Unescape("&gt;" + t) == ">" + Unescape(t)
  {
    var s := "&gt;" + t;
    assert s[1] == 'g' && s[2] == 't';
    assert s[..4] == "&gt;" && s[4..] == t;
  }

  lemma UnescapeQuot(t: string)
    ensures Unescape("&quot;" + t) == "\"" + Unescape(t)
  {
    var s := "&quot;" + t;
    assert s[1] == 'q';
    assert s[..6] == "&quot;" && s[6..] == t;
  }

  lemma UnescapeApos(t: string)
    ensures Unescape("&#039;" + t) == "'" + Unescape(t)
  {
    var s := "&#039;" + t;
    assert s[1] == '#';
    assert s[..6] == "&#039;" && s[6..] == t;
  }

  lemma {:induction false} UnescapeEscapeEach(s: string)
    ensures Unescape(EscapeEach(s)) == s
  {
    if s != [] {
      UnescapeChar(s[0], EscapeEach(s[1..]));
      UnescapeEscapeEach(s[1..]);
    }
  }

  /** Round trip: decoding the five entities gives back the escaped text. */
  lemma EscHtmlRoundTrip(s: string)
    ensures Unescape(EscHtml(Some(s))) == s
  {
    if s != [] {
      ChainIsEscapeEach(s);
      UnescapeEscapeEach(s);
    }
  }

  predicate StartsEntity(s: string)
  {
    StartsWith(s, "&amp;") || StartsWith(s, "&lt;") || StartsWith(s, "&gt;")
    || StartsWith(s, "&quot;") || StartsWith(s, "&#039;")
  }

  lemma EntityPrefix(e: string, t: string)
    requires StartsEntity(e)
    ensures StartsEntity(e + t)
  {
    assert (e + t)[..|e|] == e;
    if StartsWith(e, "&amp;") { assert (e + t)[..5] == e[..5]; }
    else if StartsWith(e, "&lt;") { assert (e + t)[..4] == e[..4]; }
    else if StartsWith(e, "&gt;") { assert (e + t)[..4] == e[..4]; }
    else if StartsWith(e, "&quot;") { assert (e + t)[..6] == e[..6]; }
    else { assert (e + t)[..6] == e[..6]; }
  }

  /** No double escaping: every '&' of the output begins one of the five entities. */
  lemma {:induction false} AmpersandsStartEntities(s: string, i: nat)
    requires i < |EscapeEach(s)| && EscapeEach(s)[i] == '&'
    ensures StartsEntity(EscapeEach(s)[i..])
  {
    var e := EscapeChar(s[0]);
    var rest := EscapeEach(s[1..]);
    assert EscapeEach(s) == e + rest;
    if i < |e| {
      assert i == 0;
      assert EscapeEach(s)[i..] == e + rest;
      EntityPrefix(e, rest);
    } else {
      assert EscapeEach(s)[i..] == rest[i - |e|..];
      AmpersandsStartEntities(s[1..], i - |e|);
    }
  }

  /** The same for the worker's escHtml itself. */
  lemma EscHtmlAmpersands(s: string, i: nat)
    requires i < |EscHtml(Some(s))| && EscHtml(Some(s))[i] == '&'
    ensures StartsEntity(EscHtml(Some(s))[i..])
  {
    ChainIsEscapeEach(s);
    AmpersandsStartEntities(s, i);
  }
}
