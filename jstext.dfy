/** The JavaScript string and number primitives the core relies on:
    String.prototype.trim, split on a one-character separator, startsWith,
    ASCII toLowerCase and parseInt, and Math.round / Math.min / Math.max on integers. */
module JsText {

  /** JavaScript's WhiteSpace and LineTerminator code points (what trim() removes). */
  predicate IsJsSpace(c: char)
  {
    c == ' ' || c == '\t' || c == '\n' || c == '\r' || c == '\U{0B}' || c == '\U{0C}'
    || c == '\U{A0}' || c == '\U{1680}' || ('\U{2000}' <= c <= '\U{200A}')
    || c == '\U{2028}' || c == '\U{2029}' || c == '\U{202F}' || c == '\U{205F}'
    || c == '\U{3000}' || c == '\U{FEFF}'
  }

  /** The end of the run of white space that starts at i. */
  function SpaceEnd(s: string, i: nat): (n: nat)
    requires i <= |s|
    ensures i <= n <= |s|
    ensures forall k :: i <= k < n ==> IsJsSpace(s[k])
    ensures n < |s| ==> !IsJsSpace(s[n])
    decreases |s| - i
  {
    if i < |s| && IsJsSpace(s[i]) then SpaceEnd(s, i + 1) else i
  }

  /** The start of the run of white space that ends at j, not going below lo. */
  function SpaceStart(s: string, lo: nat, j: nat): (n: nat)
    requires lo <= j <= |s|
    ensures lo <= n <= j
    ensures forall k :: n <= k < j ==> IsJsSpace(s[k])
    ensures lo < n ==> !IsJsSpace(s[n - 1])
    decreases j - lo
  {
    if lo < j && IsJsSpace(s[j - 1]) then SpaceStart(s, lo, j - 1) else j
  }

  /** String.prototype.trimStart: s without its leading white space. */
  function TrimStart(s: string): (r: string)
    ensures |r| <= |s| && r == s[|s| - |r|..]
    ensures r == [] || !IsJsSpace(r[0])
    ensures forall k :: 0 <= k < |s| - |r| ==> IsJsSpace(s[k])
  {
    s[SpaceEnd(s, 0)..]
  }

  /** String.prototype.trim: s with its leading and trailing white space removed. It is
      a slice of s, and only white space is cut off on either side. */
  function Trim(s: string): (r: string)
    ensures exists i, j :: (0 <= i <= j <= |s| && r == s[i..j]
      && (forall k :: 0 <= k < i ==> IsJsSpace(s[k]))
      && (forall k :: j <= k < |s| ==> IsJsSpace(s[k])))
    ensures r == [] || (!IsJsSpace(r[0]) && !IsJsSpace(r[|r| - 1]))
  {
    var i := SpaceEnd(s, 0);
    var j := SpaceStart(s, i, |s|);
    s[i..j]
  }

  /** s.split(sep) for a one-character separator: the maximal pieces between separators. */
  function Split(s: string, sep: char): (r: seq<string>)
    ensures |r| >= 1
    ensures forall i :: 0 <= i < |r| ==> sep !in r[i]
    decreases |s|
  {
    if s == [] then [""]
    else if s[0] == sep then [""] + Split(s[1..], sep)
    else var rest := Split(s[1..], sep); [[s[0]] + rest[0]] + rest[1..]
  }

  function Join(parts: seq<string>, sep: char): string
  {
    if parts == [] then "" else if |parts| == 1 then parts[0] else parts[0] + [sep] + Join(parts[1..], sep)
  }

  /** Joining the pieces back with the separator restores the string: nothing is lost or reordered. */
  lemma {:induction false} SplitJoin(s: string, sep: char)
    ensures Join(Split(s, sep), sep) == s
    decreases |s|
  {
    if s == [] {
    } else if s[0] == sep {
      SplitJoin(s[1..], sep);
      var rest := Split(s[1..], sep);
      assert Split(s, sep) == [""] + rest;
    } else {
      SplitJoin(s[1..], sep);
      var rest := Split(s[1..], sep);
      var r := Split(s, sep);
      assert r == [[s[0]] + rest[0]] + rest[1..];
      if |rest| == 1 {
        assert Join(r, sep) == [s[0]] + rest[0];
      } else {
        assert r[1..] == rest[1..];
        assert Join(rest, sep) == rest[0] + [sep] + Join(rest[1..], sep);
      }
    }
  }

  function TrimAll(parts: seq<string>): (r: seq<string>)
    ensures |r| == |parts|
    ensures forall i :: 0 <= i < |r| ==> r[i] == Trim(parts[i])
  {
    if parts == [] then [] else [Trim(parts[0])] + TrimAll(parts[1..])
  }

  /** .filter(Boolean) on strings: drop the empty ones, keep the order. */
  function NonEmpty(parts: seq<string>): (r: seq<string>)
    ensures |r| <= |parts|
    ensures forall i :: 0 <= i < |r| ==> r[i] != "" && r[i] in parts
  {
    if parts == [] then []
    else if parts[0] == "" then NonEmpty(parts[1..])
    else [parts[0]] + NonEmpty(parts[1..])
  }

  lemma {:induction false} NonEmptyAppend(a: seq<string>, b: seq<string>)
    ensures NonEmpty(a + b) == NonEmpty(a) + NonEmpty(b)
  {
    if a != [] {
      assert (a + b)[0] == a[0];
      assert (a + b)[1..] == a[1..] + b;
      NonEmptyAppend(a[1..], b);
      if a[0] != "" {
        assert NonEmpty(a + b) == [a[0]] + NonEmpty(a[1..] + b);
      }
    } else {
      assert a + b == b;
    }
  }

  /** A piece of trimmed text: non-empty, no white space at either end. */
  predicate IsTrimmedWord(w: string)
  {
    w != [] && !IsJsSpace(w[0]) && !IsJsSpace(w[|w| - 1])
  }

  /** s.split(',').map(s => s.trim()).filter(Boolean): the skill list. */
  function SplitSkills(s: string): (r: seq<string>)
    ensures forall i :: 0 <= i < |r| ==> IsTrimmedWord(r[i]) && ',' !in r[i]
  {
    var parts := Split(s, ',');
    var t := TrimAll(parts);
    var r := NonEmpty(t);
    forall i | 0 <= i < |r| ensures IsTrimmedWord(r[i]) && ',' !in r[i] {
      assert r[i] in t;
      var k :| 0 <= k < |t| && t[k] == r[i];
      TrimmedPiece(parts[k]);
    }
    r
  }

  lemma TrimmedPiece(p: string)
    requires ',' !in p && Trim(p) != ""
    ensures IsTrimmedWord(Trim(p)) && ',' !in Trim(p)
  {
    var i, j :| 0 <= i <= j <= |p| && Trim(p) == p[i..j];
    assert forall k :: 0 <= k < j - i ==> Trim(p)[k] == p[i + k];
  }

  /** Splitting at one more separator splits the two sides independently. */
  lemma {:induction false} SplitAppend(a: string, b: string, sep: char)
    requires sep !in a
    ensures Split(a + [sep] + b, sep) == Split(a, sep) + Split(b, sep)
    decreases |a|
  {
    if a == [] {
      assert [sep] + b == a + [sep] + b;
      assert ([sep] + b)[1..] == b;
    } else {
      assert (a + [sep] + b)[1..] == a[1..] + [sep] + b;
      SplitAppend(a[1..], b, sep);
    }
  }

  lemma {:induction false} TrimAllAppend(a: seq<string>, b: seq<string>)
    ensures TrimAll(a + b) == TrimAll(a) + TrimAll(b)
  {
    if a == [] {
      assert a + b == b;
    } else {
      assert (a + b)[1..] == a[1..] + b;
      TrimAllAppend(a[1..], b);
    }
  }

  /** The skill list is built piece by piece in input order: the skills of "a,b"
      are the skills of a followed by the skills of b. */
  lemma SplitSkillsAppend(a: string, b: string)
    requires ',' !in a
    ensures SplitSkills(a + "," + b) == SplitSkills(a) + SplitSkills(b)
  {
    SplitAppend(a, b, ',');
    TrimAllAppend(Split(a, ','), Split(b, ','));
    NonEmptyAppend(TrimAll(Split(a, ',')), TrimAll(Split(b, ',')));
  }

  /** A field with no comma declares at most one skill: its trimmed text, if any. */
  lemma SplitSkillsOne(a: string)
    requires ',' !in a
    ensures SplitSkills(a) == if Trim(a) == "" then [] else [Trim(a)]
  {
    SplitNoSeparator(a, ',');
  }

  lemma {:induction false} SplitNoSeparator(s: string, sep: char)
    requires sep !in s
    ensures Split(s, sep) == [s]
  {
    if s != [] {
      SplitNoSeparator(s[1..], sep);
      assert s[0] != sep;
      assert [s[0]] + s[1..] == s;
    }
  }

  /** An empty skills field declares no skill. */
  lemma SplitSkillsOfEmpty()
    ensures SplitSkills("") == []
  {
    assert Split("", ',') == [""];
    assert Trim("") == "";
  }

  function StartsWith(s: string, p: string): bool
  {
    |p| <= |s| && s[..|p|] == p
  }

  function LowerChar(c: char): char
  {
    if 'A' <= c <= 'Z' then (c as int - 'A' as int + 'a' as int) as char else c
  }

  /** toLowerCase on the ASCII letters: no capital survives, each capital becomes its
      small letter at the same place, and every other character is kept. */
  function ToLower(s: string): (r: string)
    ensures |r| == |s|
    ensures forall i :: 0 <= i < |r| ==> !('A' <= r[i] <= 'Z')
    ensures forall i :: 0 <= i < |s| && 'A' <= s[i] <= 'Z' ==> r[i] as int == s[i] as int + 32
    ensures forall i :: 0 <= i < |s| && !('A' <= s[i] <= 'Z') ==> r[i] == s[i]
  {
    seq(|s|, i requires 0 <= i < |s| => LowerChar(s[i]))
  }

  /** Lower-casing twice is lower-casing once, and text without capitals is kept. */
  lemma ToLowerIdempotent(s: string)
    ensures ToLower(ToLower(s)) == ToLower(s)
    ensures (forall i :: 0 <= i < |s| ==> !('A' <= s[i] <= 'Z')) ==> ToLower(s) == s
  {
  }

  // ---- parseInt(s) with no radix ----

  function DigitValue(c: char, radix: nat): (v: int)
    ensures -1 <= v < radix
  {
    var v :=
      if '0' <= c <= '9' then c as int - '0' as int
      else if 'a' <= c <= 'z' then c as int - 'a' as int + 10
      else if 'A' <= c <= 'Z' then c as int - 'A' as int + 10
      else -1;
    if v < radix then v else -1
  }

  /** The longest prefix of s made of digits of the radix. */
  function DigitPrefix(s: string, radix: nat): (r: string)
    ensures |r| <= |s| && r == s[..|r|]
    ensures forall i :: 0 <= i < |r| ==> DigitValue(r[i], radix) >= 0
    ensures |r| < |s| ==> DigitValue(s[|r|], radix) < 0
  {
    if s != [] && DigitValue(s[0], radix) >= 0 then [s[0]] + DigitPrefix(s[1..], radix) else []
  }

  /** The value of a run of digits in radix 10 or 16, most significant first. */
  function DigitsValue(ds: string, radix: nat): (v: int)
    requires radix == 10 || radix == 16
    requires forall i :: 0 <= i < |ds| ==> DigitValue(ds[i], radix) >= 0
    ensures v >= 0
  {
    if ds == [] then 0
    else
      var high := DigitsValue(ds[..|ds| - 1], radix);
      (if radix == 16 then 16 * high else 10 * high) + DigitValue(ds[|ds| - 1], radix)
  }

  /** The digits after the sign: a "0x"/"0X" prefix switches to hexadecimal, and the
      longest run of digits is read; no digit at all gives NaN (None). */
  function ParseUnsigned(u: string): (r: Option<int>)
    ensures r.Some? ==> r.value >= 0
  {
    var hex := |u| >= 2 && u[0] == '0' && (u[1] == 'x' || u[1] == 'X');
    var radix := if hex then 16 else 10;
    var ds := DigitPrefix(if hex then u[2..] else u, radix);
    if ds == [] then None else Some(DigitsValue(ds, radix))
  }

  /** parseInt(s) with no radix: None stands for NaN. Leading white space is skipped
      and one sign is accepted. */
  function ParseInt(s: string): (r: Option<int>)
  {
    ParseSigned(TrimStart(s))
  }

  /** parseInt after the white space: an optional sign, then the digits. */
  function ParseSigned(t: string): (r: Option<int>)
  {
    if t != [] && t[0] == '-' then
      match ParseUnsigned(t[1..])
      case None => None
      case Some(v) => Some(-v)
    else if t != [] && t[0] == '+' then ParseUnsigned(t[1..])
    else ParseUnsigned(t)
  }

  datatype Option<T> = None | Some(value: T)

  /** parseInt(s) || 0: NaN (and zero) become 0. */
  function ParseIntOrZero(s: string): (r: int)
    ensures ParseInt(s).None? ==> r == 0
    ensures ParseInt(s).Some? ==> r == ParseInt(s).value
  {
    match ParseInt(s)
    case None => 0
    case Some(v) => v
  }

  /** Text whose first non-blank character is not a sign or a decimal digit is not a number: it parses to 0. */
  lemma NonNumericIsZero(s: string)
    requires var t := TrimStart(s); t == [] || !(t[0] == '+' || t[0] == '-' || '0' <= t[0] <= '9')
    ensures ParseIntOrZero(s) == 0
  {
    var t := TrimStart(s);
    UnsignedWithoutSign(s, t);
    if t != [] {
      NoLeadingDigit(t);
    }
  }

  /** Without a sign, parseInt reads the trimmed text as it is. */
  lemma UnsignedWithoutSign(s: string, t: string)
    requires t == TrimStart(s) && (t == [] || (t[0] != '+' && t[0] != '-'))
    ensures ParseInt(s) == ParseUnsigned(t)
  {
  }

  /** Without a leading decimal digit there is no number. */
  lemma NoLeadingDigit(u: string)
    requires u != [] && !('0' <= u[0] <= '9')
    ensures ParseUnsigned(u) == None
  {
    assert DigitValue(u[0], 10) < 0;
  }

  /** The decimal spelling of a natural number. */
  function Decimal(n: nat): (r: string)
    ensures r != []
    ensures forall i :: 0 <= i < |r| ==> '0' <= r[i] <= '9'
  {
    if n < 10 then [('0' as int + n) as char] else Decimal(n / 10) + [('0' as int + n % 10) as char]
  }

  lemma {:induction false} DecimalValue(n: nat)
    ensures DigitsValue(Decimal(n), 10) == n
  {
    if n >= 10 {
      DecimalValue(n / 10);
      var d := Decimal(n);
      assert d[..|d| - 1] == Decimal(n / 10);
    }
  }

  lemma {:induction false} AllDigitsPrefix(s: string)
    requires forall i :: 0 <= i < |s| ==> '0' <= s[i] <= '9'
    ensures DigitPrefix(s, 10) == s
  {
    if s != [] { AllDigitsPrefix(s[1..]); }
  }

  lemma DecimalLeadsWithNonZero(n: nat)
    requires n >= 10
    ensures Decimal(n)[0] != '0'
    decreases n
  {
    if n / 10 >= 10 { DecimalLeadsWithNonZero(n / 10); }
  }

  /** A run of decimal digits parses to its value. */
  lemma ParseDigits(d: string)
    requires d != [] && forall i :: 0 <= i < |d| ==> '0' <= d[i] <= '9'
    ensures ParseInt(d) == Some(DigitsValue(d, 10))
  {
    ParseUnsignedDigits(d);
    ParseWithoutSign(d, DigitsValue(d, 10));
  }

  /** A '-' followed by a run of decimal digits parses to minus their value. */
  lemma ParseNegativeDigits(d: string, v: nat)
    requires d != [] && forall i :: 0 <= i < |d| ==> '0' <= d[i] <= '9'
    requires DigitsValue(d, 10) == v
    ensures ParseInt("-" + d) == Some(-(v as int))
  {
    var s := "-" + d;
    assert s[0] == '-' && s[1..] == d;
    ParseUnsignedDigits(d);
    ParseMinusSign(s, v);
  }

  lemma ParseWithoutSign(s: string, v: nat)
    requires s != [] && !IsJsSpace(s[0]) && s[0] != '-' && s[0] != '+'
    requires ParseUnsigned(s) == Some(v)
    ensures ParseInt(s) == Some(v)
  {
    ParseIntNoSpace(s);
  }

  lemma ParseMinusSign(s: string, v: nat)
    requires s != [] && s[0] == '-' && ParseUnsigned(s[1..]) == Some(v)
    ensures ParseInt(s) == Some(-(v as int))
  {
    ParseIntNoSpace(s);
    SignedMinus(s, v);
  }

  lemma ParsePlusSign(s: string, v: nat)
    requires s != [] && s[0] == '+' && ParseUnsigned(s[1..]) == Some(v)
    ensures ParseInt(s) == Some(v)
  {
    ParseIntNoSpace(s);
  }

  /** Without leading white space parseInt reads the sign and digits directly. */
  lemma ParseIntNoSpace(s: string)
    requires s != [] && !IsJsSpace(s[0])
    ensures ParseInt(s) == ParseSigned(s)
  {
    TrimStartNoSpace(s);
  }

  lemma SignedMinus(s: string, v: nat)
    requires s != [] && s[0] == '-' && ParseUnsigned(s[1..]) == Some(v)
    ensures ParseSigned(s) == Some(-(v as int))
  {
  }

  lemma ParseUnsignedDigits(d: string)
    requires d != [] && forall i :: 0 <= i < |d| ==> '0' <= d[i] <= '9'
    ensures ParseUnsigned(d) == Some(DigitsValue(d, 10))
  {
    if |d| >= 2 { assert d[1] != 'x' && d[1] != 'X'; }
    AllDigitsPrefix(d);
  }

  lemma TrimStartNoSpace(s: string)
    requires s != [] && !IsJsSpace(s[0])
    ensures TrimStart(s) == s
  {
  }

  /** Round trip: the decimal spelling of n parses back to n. */
  lemma ParseDecimal(n: nat)
    ensures ParseInt(Decimal(n)) == Some(n)
  {
    DecimalValue(n);
    ParseDigits(Decimal(n));
  }

  /** Round trip: '-' followed by the decimal spelling of n parses back to -n. */
  lemma ParseNegativeDecimal(n: nat)
    ensures ParseInt("-" + Decimal(n)) == Some(-(n as int))
  {
    DecimalValue(n);
    ParseNegativeDigits(Decimal(n), n);
  }

  /** A '+' followed by a run of decimal digits parses to their value. */
  lemma ParsePlusDigits(d: string, v: nat)
    requires d != [] && forall i :: 0 <= i < |d| ==> '0' <= d[i] <= '9'
    requires DigitsValue(d, 10) == v
    ensures ParseInt("+" + d) == Some(v)
  {
    var s := "+" + d;
    assert s[0] == '+' && s[1..] == d;
    ParseUnsignedDigits(d);
    ParsePlusSign(s, v);
  }

  /** String(n) for an integer: a '-' for negatives, then the decimal digits. */
  function IntText(n: int): (r: string)
    ensures r != []
    ensures r[0] == '-' <==> n < 0
  {
    if n < 0 then "-" + Decimal(-n) else Decimal(n)
  }

  /** The text of an integer parses back to the integer. */
  lemma ParseIntText(n: int)
    ensures ParseInt(IntText(n)) == Some(n)
  {
    if n < 0 {
      ParseNegativeDecimal(-n);
    } else {
      ParseDecimal(n);
    }
  }

  /** The same with an explicit '+' in front of a positive integer. */
  lemma ParseSignedIntText(n: int)
    requires n > 0
    ensures ParseInt("+" + IntText(n)) == Some(n)
  {
    DecimalValue(n);
    ParsePlusDigits(Decimal(n), n);
  }
}

/** Math.round, Math.min and Math.max as used on the integer scores. */
module JsMath {

  function Min(a: int, b: int): int { if a <= b then a else b }
  function Max(a: int, b: int): int { if a >= b then a else b }

  /** Math.min(Math.max(x, lo), hi). */
  function Clamp(x: int, lo: int, hi: int): (r: int)
    requires lo <= hi
    ensures lo <= r <= hi
    ensures lo <= x <= hi ==> r == x
  {
    Min(Max(x, lo), hi)
  }

  /** Math.round(sum / n) for n > 0: half-up rounding of the quotient,
      that is r - 1/2 <= sum/n < r + 1/2. */
  function RoundDiv(sum: int, n: int): (r: int)
    requires n > 0
    ensures 2 * n * r - n <= 2 * sum < 2 * n * r + n
  {
    var r := (2 * sum + n) / (2 * n);
    DivBounds(2 * sum + n, 2 * n);
    r
  }

  lemma DivBounds(a: int, b: int)
    requires b > 0
    ensures b * (a / b) <= a < b * (a / b) + b
  {
  }

  function Sum(xs: seq<int>): int
  {
    if xs == [] then 0 else Sum(xs[..|xs| - 1]) + xs[|xs| - 1]
  }

  /** Math.round of the mean of a non-empty list. */
  function RoundMean(xs: seq<int>): int
    requires |xs| > 0
  {
    RoundDiv(Sum(xs), |xs|)
  }

  lemma {:induction false} SumBounds(xs: seq<int>, lo: int, hi: int)
    requires forall i :: 0 <= i < |xs| ==> lo <= xs[i] <= hi
    ensures |xs| * lo <= Sum(xs) <= |xs| * hi
  {
    if xs != [] {
      SumBounds(xs[..|xs| - 1], lo, hi);
    }
  }

  /** The rounded mean of values in [lo, hi] lies in [lo, hi]. */
  lemma RoundMeanWithin(xs: seq<int>, lo: int, hi: int)
    requires |xs| > 0
    requires forall i :: 0 <= i < |xs| ==> lo <= xs[i] <= hi
    ensures lo <= RoundMean(xs) <= hi
  {
    SumBounds(xs, lo, hi);
    RoundedWithin(|xs|, Sum(xs), RoundMean(xs), lo, hi);
  }

  /** A half-up rounded quotient of a sum between n * lo and n * hi lies in [lo, hi]. */
  lemma RoundedWithin(n: int, sum: int, r: int, lo: int, hi: int)
    requires n > 0 && n * lo <= sum <= n * hi
    requires 2 * n * r - n <= 2 * sum < 2 * n * r + n
    ensures lo <= r <= hi
  {
    assert 2 * n * r == 2 * (n * r);
    assert n * (hi + 1) == n * hi + n;
    assert n * (lo - 1) == n * lo - n;
    MulMonotoneImplies(n, r, hi + 1);
    MulMonotoneImplies(n, lo - 1, r);
  }

  lemma MulMonotoneImplies(n: int, a: int, b: int)
    requires n >= 0
    ensures a >= b ==> n * a >= n * b
  {
    if a >= b {
      assert n * a - n * b == n * (a - b);
    }
  }
}
