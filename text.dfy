/**
 * The string operations the expense tracker relies on: Java's String.trim,
 * String.equalsIgnoreCase (on ASCII letters) and fixed-width decimal digits.
 */
module Text {

  /** String.trim drops every leading and trailing character whose code is at most U+0020. */
  predicate IsTrimmable(c: char) {
    c <= ' '
  }

  predicate AllTrimmable(s: string) {
    forall i :: 0 <= i < |s| ==> IsTrimmable(s[i])
  }

  /** The input with its leading trimmable characters removed. */
  function TrimStart(s: string): (r: string)
    ensures |r| <= |s|
    ensures r == [] || !IsTrimmable(r[0])
  {
    if s != [] && IsTrimmable(s[0]) then TrimStart(s[1..]) else s
  }

  /** The input with its trailing trimmable characters removed. */
  function TrimEnd(s: string): (r: string)
    ensures |r| <= |s|
    ensures r == [] || !IsTrimmable(r[|r| - 1])
  {
    if s != [] && IsTrimmable(s[|s| - 1]) then TrimEnd(s[..|s| - 1]) else s
  }

  /** TrimStart drops a prefix, and only trimmable characters. */
  lemma {:induction false} TrimStartShape(s: string)
    ensures var r := TrimStart(s); r == s[|s| - |r|..] && AllTrimmable(s[..|s| - |r|])
  {
    if s != [] && IsTrimmable(s[0]) {
      TrimStartShape(s[1..]);
      var r := TrimStart(s);
      assert s[..|s| - |r|] == [s[0]] + s[1..][..|s| - 1 - |r|];
    }
  }

  /** TrimEnd drops a suffix, and only trimmable characters. */
  lemma {:induction false} TrimEndShape(s: string)
    ensures var r := TrimEnd(s); r == s[..|r|] && AllTrimmable(s[|r|..])
  {
    if s != [] && IsTrimmable(s[|s| - 1]) {
      TrimEndShape(s[..|s| - 1]);
      var r := TrimEnd(s);
      assert s[|r|..] == s[..|s| - 1][|r|..] + [s[|s| - 1]];
    }
  }

  /** Neither starts nor ends with a trimmable character: what String.trim returns. */
  predicate IsTrimmed(s: string) {
    s == [] || (!IsTrimmable(s[0]) && !IsTrimmable(s[|s| - 1]))
  }

  /**
   * Java's String.trim: the longest infix of s that neither starts nor ends
   * with a trimmable character.
   */
  function Trim(s: string): (r: string)
    ensures IsTrimmed(r)
  {
    var t := TrimStart(s);
    TrimEndShape(t);
    TrimEnd(t)
  }

  /** Trim returns an infix of its input framed by trimmable characters only. */
  lemma TrimBounds(s: string)
    ensures var r := Trim(s);
      exists i, j :: 0 <= i <= j <= |s| && r == s[i..j]
        && AllTrimmable(s[..i]) && AllTrimmable(s[j..])
        && (r == [] || (!IsTrimmable(r[0]) && !IsTrimmable(r[|r| - 1])))
  {
    var t := TrimStart(s);
    TrimStartShape(s);
    TrimEndShape(t);
    var i := |s| - |t|;
    var r := TrimEnd(t);
    var j := i + |r|;
    assert r == s[i..j];
    assert s[j..] == t[|r|..];
    assert r != [] ==> r[0] == t[0];
  }

  /** A trimmable prefix makes no difference to TrimStart. */
  lemma {:induction false} TrimStartSkipsPrefix(p: string, x: string)
    requires AllTrimmable(p)
    ensures TrimStart(p + x) == TrimStart(x)
  {
    if p == [] {
      assert p + x == x;
    } else {
      assert (p + x)[0] == p[0];
      assert (p + x)[1..] == p[1..] + x;
      TrimStartSkipsPrefix(p[1..], x);
    }
  }

  /** A trimmable suffix makes no difference to TrimEnd. */
  lemma {:induction false} TrimEndSkipsSuffix(x: string, q: string)
    requires AllTrimmable(q)
    ensures TrimEnd(x + q) == TrimEnd(x)
  {
    if q == [] {
      assert x + q == x;
    } else {
      var n := |x + q|;
      assert (x + q)[n - 1] == q[|q| - 1];
      assert (x + q)[..n - 1] == x + q[..|q| - 1];
      TrimEndSkipsSuffix(x, q[..|q| - 1]);
    }
  }

  /** TrimStart of a concatenation only reaches the second part when the first is all trimmable. */
  lemma {:induction false} TrimStartAppend(s: string, q: string)
    ensures AllTrimmable(s) ==> TrimStart(s + q) == TrimStart(q)
    ensures !AllTrimmable(s) ==> TrimStart(s + q) == TrimStart(s) + q
  {
    if s == [] {
      assert s + q == q;
    } else if IsTrimmable(s[0]) {
      assert (s + q)[0] == s[0];
      assert (s + q)[1..] == s[1..] + q;
      TrimStartAppend(s[1..], q);
      if AllTrimmable(s[1..]) {
        forall i | 0 <= i < |s| ensures IsTrimmable(s[i]) {
          if i > 0 { assert s[i] == s[1..][i - 1]; }
        }
      }
    } else {
      assert (s + q)[0] == s[0];
    }
  }

  /**
   * Surrounding a string with trimmable characters does not change what
   * String.trim makes of it.
   */
  lemma {:induction false} TrimIgnoresPadding(p: string, s: string, q: string)
    requires AllTrimmable(p) && AllTrimmable(q)
    ensures Trim(p + s + q) == Trim(s)
  {
    var sq := s + q;
    assert p + s + q == p + sq;
    TrimStartSkipsPrefix(p, sq);
    TrimStartAppend(s, q);
    if AllTrimmable(s) {
      AllTrimmableTrimsToEmpty(q);
      AllTrimmableTrimsToEmpty(s);
    } else {
      TrimEndSkipsSuffix(TrimStart(s), q);
    }
  }

  lemma AllTrimmableTrimsToEmpty(s: string)
    requires AllTrimmable(s)
    ensures TrimStart(s) == []
  {
    TrimStartSkipsPrefix(s, []);
    assert s + [] == s;
  }

  /** A string that neither starts nor ends with a trimmable character is its own trim. */
  lemma TrimUnpadded(s: string)
    requires IsTrimmed(s)
    ensures Trim(s) == s
  {
  }

  /** Trimming twice is trimming once. */
  lemma TrimIdempotent(s: string)
    ensures Trim(Trim(s)) == Trim(s)
  {
    TrimUnpadded(Trim(s));
  }

  /** The case fold equalsIgnoreCase applies, restricted to ASCII letters. */
  function FoldCase(c: char): (r: char)
  {
    if 'A' <= c <= 'Z' then (c as int - 'A' as int + 'a' as int) as char else c
  }

  /** String.equalsIgnoreCase: same length and the same letters up to case. */
  predicate EqualsIgnoreCase(a: string, b: string) {
    |a| == |b| && forall i :: 0 <= i < |a| ==> FoldCase(a[i]) == FoldCase(b[i])
  }

  predicate IsDigit(c: char) {
    '0' <= c <= '9'
  }

  predicate AllDigits(s: string) {
    forall i :: 0 <= i < |s| ==> IsDigit(s[i])
  }

  function Pow10(k: nat): (p: nat)
    ensures p >= 1
  {
    if k == 0 then 1 else 10 * Pow10(k - 1)
  }

  /** The number a string of decimal digits denotes, most significant digit first. */
  function DigitsValue(s: string): (n: nat)
    requires AllDigits(s)
    ensures n < Pow10(|s|)
  {
    if s == [] then 0
    else
      var d := s[|s| - 1] as int - '0' as int;
      var m := DigitsValue(s[..|s| - 1]);
      assert m * 10 + d < Pow10(|s| - 1) * 10 by {
        assert m + 1 <= Pow10(|s| - 1);
        assert (m + 1) * 10 <= Pow10(|s| - 1) * 10;
      }
      m * 10 + d
  }

  /** One more digit on the right multiplies the value read so far by ten. */
  lemma DigitsValueAppend(s: string, c: string)
    requires AllDigits(s) && |c| == 1 && IsDigit(c[0])
    ensures AllDigits(s + c) && DigitsValue(s + c) == DigitsValue(s) * 10 + (c[0] as int - '0' as int)
  {
    assert (s + c)[..|s + c| - 1] == s;
  }

  function DigitChar(d: nat): (c: char)
    requires d < 10
  {
    ('0' as int + d) as char
  }

  /** The last `width` decimal digits of n, zero-padded on the left. */
  function PadDigits(n: nat, width: nat): (s: string)
    ensures |s| == width && AllDigits(s)
  {
    if width == 0 then [] else PadDigits(n / 10, width - 1) + [DigitChar(n % 10)]
  }

  /** Reading back a zero-padded number that fits its width gives the number. */
  lemma {:induction false} PadDigitsRoundTrip(n: nat, width: nat)
    requires n < Pow10(width)
    ensures DigitsValue(PadDigits(n, width)) == n
  {
    if width > 0 {
      var s := PadDigits(n, width);
      assert s[..|s| - 1] == PadDigits(n / 10, width - 1);
      PadDigitsRoundTrip(n / 10, width - 1);
    }
  }

  /** Printing a digit string back at its own width reproduces it exactly. */
  lemma {:induction false} DigitsRoundTrip(s: string)
    requires AllDigits(s)
    ensures PadDigits(DigitsValue(s), |s|) == s
  {
    if s != [] {
      var p := s[..|s| - 1];
      var d := s[|s| - 1] as int - '0' as int;
      assert DigitsValue(s) == DigitsValue(p) * 10 + d;
      assert DigitsValue(s) / 10 == DigitsValue(p) && DigitsValue(s) % 10 == d;
      DigitsRoundTrip(p);
      assert s == p + [s[|s| - 1]];
    }
  }
}
