/** The `java.lang.String` operations the logger relies on, on `seq<char>`.

    Case mapping is ASCII only, and decimal text stands for every textual
    rendering of a number (`Long.toString`, `Instant.toString`).
 */
module JavaText {
  import opened JavaLang

  // ---------------------------------------------------------------- trim

  /** `String.trim` removes every leading and trailing char up to U+0020. */
  predicate IsTrimmed(c: char) { c <= ' ' }

  function TrimLeft(s: string): (r: string)
    ensures |r| <= |s| && r == s[|s| - |r|..]
    ensures r == [] || !IsTrimmed(r[0])
    ensures forall i :: 0 <= i < |s| - |r| ==> IsTrimmed(s[i])
  {
    if s != [] && IsTrimmed(s[0]) then TrimLeft(s[1..]) else s
  }

  function TrimRight(s: string): (r: string)
    ensures |r| <= |s| && r == s[..|r|]
    ensures r == [] || !IsTrimmed(r[|r| - 1])
    ensures forall i :: |r| <= i < |s| ==> IsTrimmed(s[i])
  {
    if s != [] && IsTrimmed(s[|s| - 1]) then TrimRight(s[..|s| - 1]) else s
  }

  /** `s.trim()`: the infix of `s` left after cutting whitespace at both ends. */
  function Trim(s: string): (r: string)
    ensures |r| <= |s|
    ensures r == [] || (!IsTrimmed(r[0]) && !IsTrimmed(r[|r| - 1]))
    ensures |r| <= |TrimLeft(s)| && r == s[|s| - |TrimLeft(s)|..|s| - |TrimLeft(s)| + |r|]
  {
    var l := TrimLeft(s);
    var r := TrimRight(l);
    assert l[..|r|] == s[|s| - |l|..|s| - |l| + |r|];
    r
  }

  /** A text that neither starts nor ends with whitespace is its own trim. */
  lemma TrimOfClean(s: string)
    requires s == [] || (!IsTrimmed(s[0]) && !IsTrimmed(s[|s| - 1]))
    ensures Trim(s) == s
  {
  }

  lemma TrimIdempotent(s: string)
    ensures Trim(Trim(s)) == Trim(s)
  {
    TrimOfClean(Trim(s));
  }

  /** A text is blank when nothing is left after trimming it. */
  predicate IsBlankText(s: string) { Trim(s) == [] }

  lemma BlankIffAllWhitespace(s: string)
    ensures IsBlankText(s) <==> forall i :: 0 <= i < |s| ==> IsTrimmed(s[i])
  {
    var l := TrimLeft(s);
    if exists i :: 0 <= i < |s| && !IsTrimmed(s[i]) {
      var i :| 0 <= i < |s| && !IsTrimmed(s[i]);
      assert l[i - (|s| - |l|)] == s[i];
    }
  }

  // ------------------------------------------------------- search, prefix

  /** `t` occurs in `s` starting at index `i`. */
  predicate OccursAt(s: string, t: string, i: int) {
    0 <= i && i + |t| <= |s| && s[i..i + |t|] == t
  }

  /** `s.indexOf(t)`: the first index at which `t` occurs, if any. */
  function IndexOf(s: string, t: string): (r: Option<nat>)
    ensures r.Some? ==> OccursAt(s, t, r.value)
    ensures r.Some? ==> forall j :: 0 <= j < r.value ==> !OccursAt(s, t, j)
    ensures r.None? ==> forall j :: !OccursAt(s, t, j)
  {
    if |s| < |t| then None
    else if s[..|t|] == t then Some(0)
    else
      match IndexOf(s[1..], t)
      case None =>
        assert forall j :: OccursAt(s, t, j) ==> j > 0 && OccursAt(s[1..], t, j - 1);
        None
      case Some(k) =>
        assert OccursAt(s, t, k + 1) by { assert s[k + 1..k + 1 + |t|] == s[1..][k..k + |t|]; }
        assert forall j :: 0 < j < k + 1 && OccursAt(s, t, j) ==> OccursAt(s[1..], t, j - 1);
        Some(k + 1)
  }

  /** `s.contains(t)` */
  predicate Contains(s: string, t: string) { IndexOf(s, t).Some? }

  lemma ContainsIff(s: string, t: string)
    ensures Contains(s, t) <==> exists i :: OccursAt(s, t, i)
  {
  }

  /** `s.startsWith(p)` */
  predicate StartsWith(s: string, p: string) { |p| <= |s| && s[..|p|] == p }

  /** `s.split(sep, 2)` for a literal separator: the text before and after its
      first occurrence, or the whole text when it does not occur. */
  function SplitFirst(s: string, sep: string): (parts: seq<string>)
    requires sep != []
    ensures Contains(s, sep) <==> |parts| == 2
    ensures !Contains(s, sep) ==> parts == [s]
    ensures |parts| == 2 ==> parts[0] + sep + parts[1] == s && !Contains(parts[0] + sep[..|sep| - 1], sep)
  {
    match IndexOf(s, sep)
    case None => [s]
    case Some(i) =>
      var before, after := s[..i], s[i + |sep|..];
      assert before + sep + after == s by { assert s[i..i + |sep|] == sep; }
      assert !Contains(before + sep[..|sep| - 1], sep) by {
        var w := before + sep[..|sep| - 1];
        forall j | OccursAt(w, sep, j) ensures false {
          assert j < i;
          assert w[j..j + |sep|] == s[j..j + |sep|];
          assert OccursAt(s, sep, j);
        }
      }
      [before, after]
  }

  // ------------------------------------------------------------- split(",")

  /** Every piece of `s` between occurrences of the char `c`, empty ones included. */
  function SplitAll(s: string, c: char): (pieces: seq<string>)
    ensures |pieces| >= 1
    ensures forall i :: 0 <= i < |pieces| ==> c !in pieces[i]
    decreases |s|
  {
    if c !in s then [s]
    else
      var i := FirstIndex(s, c);
      [s[..i]] + SplitAll(s[i + 1..], c)
  }

  function FirstIndex(s: string, c: char): (i: nat)
    requires c in s
    ensures i < |s| && s[i] == c && c !in s[..i]
  {
    if s[0] == c then 0 else 1 + FirstIndex(s[1..], c)
  }

  /** The pieces glued back together with `c` between them. */
  function Join(pieces: seq<string>, c: char): string
    requires |pieces| >= 1
  {
    if |pieces| == 1 then pieces[0] else pieces[0] + [c] + Join(pieces[1..], c)
  }

  /** Splitting loses nothing: joining the pieces gives the text back. */
  lemma {:induction false} JoinSplitAll(s: string, c: char)
    ensures Join(SplitAll(s, c), c) == s
    decreases |s|
  {
    if c in s {
      var i := FirstIndex(s, c);
      JoinSplitAll(s[i + 1..], c);
      var pieces := SplitAll(s, c);
      assert pieces[1..] == SplitAll(s[i + 1..], c);
      assert s == s[..i] + [c] + s[i + 1..];
    }
  }

  /** `s.split(",")` in Java: the pieces, less any trailing empty ones
      (when every piece is empty, the result is empty).  Java returns [""]
      for the empty text itself; the one caller never splits an empty text. */
  function Split(s: string, c: char): (pieces: seq<string>)
    ensures forall i :: 0 <= i < |pieces| ==> c !in pieces[i]
    ensures |pieces| <= |SplitAll(s, c)|
    ensures pieces == SplitAll(s, c)[..|pieces|]
    ensures |pieces| > 0 ==> pieces[|pieces| - 1] != []
  {
    DropTrailingEmpty(SplitAll(s, c))
  }

  function DropTrailingEmpty(pieces: seq<string>): (r: seq<string>)
    ensures |r| <= |pieces| && r == pieces[..|r|]
    ensures |r| > 0 ==> r[|r| - 1] != []
    ensures forall i :: |r| <= i < |pieces| ==> pieces[i] == []
  {
    if pieces == [] || pieces[|pieces| - 1] != [] then pieces
    else DropTrailingEmpty(pieces[..|pieces| - 1])
  }

  // ------------------------------------------------------------- case

  function UpperChar(c: char): char {
    if 'a' <= c <= 'z' then (c as int - 'a' as int + 'A' as int) as char else c
  }

  function LowerChar(c: char): char {
    if 'A' <= c <= 'Z' then (c as int - 'A' as int + 'a' as int) as char else c
  }

  /** `s.toUpperCase()` over ASCII letters. */
  function ToUpper(s: string): (r: string)
    ensures |r| == |s| && forall i :: 0 <= i < |s| ==> r[i] == UpperChar(s[i])
  {
    seq(|s|, i requires 0 <= i < |s| => UpperChar(s[i]))
  }

  /** `s.toLowerCase()` over ASCII letters. */
  function ToLower(s: string): (r: string)
    ensures |r| == |s| && forall i :: 0 <= i < |s| ==> r[i] == LowerChar(s[i])
  {
    seq(|s|, i requires 0 <= i < |s| => LowerChar(s[i]))
  }

  /** Upper-casing forgets the case the text was written in. */
  lemma UpperForgetsCase(s: string)
    ensures ToUpper(ToUpper(s)) == ToUpper(s)
    ensures ToUpper(ToLower(s)) == ToUpper(s)
  {
  }

  // ------------------------------------------------------------- decimal

  function DigitChar(d: nat): char
    requires d < 10
  {
    ('0' as int + d) as char
  }

  predicate IsDigit(c: char) { '0' <= c <= '9' }

  function DigitValue(c: char): nat
    requires IsDigit(c)
  {
    c as int - '0' as int
  }

  /** The decimal digits of `n`, most significant first, no leading zero. */
  function NatText(n: nat): (r: string)
    ensures |r| >= 1 && forall i :: 0 <= i < |r| ==> IsDigit(r[i])
    ensures |r| > 1 ==> r[0] != '0'
  {
    if n < 10 then [DigitChar(n)] else NatText(n / 10) + [DigitChar(n % 10)]
  }

  /** `Long.toString(n)` */
  function IntText(n: int): string {
    if n < 0 then "-" + NatText(-n) else NatText(n)
  }

  function DigitsValue(s: string): nat
    requires forall i :: 0 <= i < |s| ==> IsDigit(s[i])
  {
    if s == [] then 0 else 10 * DigitsValue(s[..|s| - 1]) + DigitValue(s[|s| - 1])
  }

  /** Reads back a decimal integer with an optional leading '-'. */
  function ParseInt(s: string): Option<int> {
    if s != [] && s[0] == '-' then
      var d := s[1..];
      if d != [] && forall i :: 0 <= i < |d| ==> IsDigit(d[i]) then Some(-(DigitsValue(d) as int)) else None
    else if s != [] && forall i :: 0 <= i < |s| ==> IsDigit(s[i]) then Some(DigitsValue(s))
    else None
  }

  lemma {:induction false} DigitsValueOfNatText(n: nat)
    ensures DigitsValue(NatText(n)) == n
  {
    if n >= 10 {
      DigitsValueOfNatText(n / 10);
      var t := NatText(n);
      assert t[..|t| - 1] == NatText(n / 10);
    }
  }

  lemma ParseNatText(n: nat)
    ensures ParseInt(NatText(n)) == Some(n)
  {
    var t := NatText(n);
    DigitsValueOfNatText(n);
    assert IsDigit(t[0]);
  }

  /** Decimal text reads back as the number it renders. */
  lemma ParseIntText(n: int)
    ensures ParseInt(IntText(n)) == Some(n)
  {
    if n < 0 {
      var t := NatText(-n);
      DigitsValueOfNatText(-n);
      assert IntText(n)[1..] == t;
      assert IntText(n)[0] == '-';
    } else {
      ParseNatText(n);
    }
  }
}
