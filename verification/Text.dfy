/** Strings: decimal printing, trimming, the order of Go strings, length prefixes. */
module Text {
  import Sorting

  function Digit(d: nat): char
    requires d < 10
  {
    "0123456789"[d]
  }

  function Itoa(n: nat): (s: string)
    ensures |s| > 0 && forall i :: 0 <= i < |s| ==> s[i] in "0123456789"
  {
    if n < 10 then [Digit(n)] else Itoa(n / 10) + [Digit(n % 10)]
  }

  function DigitValue(c: char): (d: nat)
    requires c in "0123456789"
    ensures d < 10 && Digit(d) == c
  {
    (c as int - '0' as int)
  }

  function Atoi(s: string): nat
    requires forall i :: 0 <= i < |s| ==> s[i] in "0123456789"
  {
    if s == [] then 0 else 10 * Atoi(s[..|s| - 1]) + DigitValue(s[|s| - 1])
  }

  lemma {:induction false} AtoiItoa(n: nat)
    ensures Atoi(Itoa(n)) == n
  {
    if n >= 10 {
      AtoiItoa(n / 10);
      assert Itoa(n)[..|Itoa(n)| - 1] == Itoa(n / 10);
    }
  }

  lemma ItoaInjective(m: nat, n: nat)
    requires Itoa(m) == Itoa(n)
    ensures m == n
  {
    AtoiItoa(m);
    AtoiItoa(n);
  }

  /** White space as Unicode has it. */
  predicate Blank(c: char) {
    '\t' <= c <= '\r' || '\U{2000}' <= c <= '\U{200A}'
    || c in [' ', '\U{85}', '\U{A0}', '\U{1680}', '\U{2028}', '\U{2029}', '\U{202F}', '\U{205F}', '\U{3000}']
  }

  function TrimLeft(s: string): string {
    if s != [] && Blank(s[0]) then TrimLeft(s[1..]) else s
  }

  function TrimRight(s: string): string {
    if s != [] && Blank(s[|s| - 1]) then TrimRight(s[..|s| - 1]) else s
  }

  function Trim(s: string): string {
    TrimRight(TrimLeft(s))
  }

  predicate AllBlank(s: string) {
    forall i :: 0 <= i < |s| ==> Blank(s[i])
  }

  /** Trimming takes blanks off both ends and nothing else. */
  lemma TrimTakesBlanks(s: string) returns (left: string, right: string)
    ensures s == left + Trim(s) + right && AllBlank(left) && AllBlank(right)
    ensures Trim(s) == [] || (!Blank(Trim(s)[0]) && !Blank(Trim(s)[|Trim(s)| - 1]))
  {
    left := LeftBlanks(s);
    right := RightBlanks(TrimLeft(s));
    assert TrimLeft(s) == Trim(s) + right;
  }

  lemma {:induction false} LeftBlanks(s: string) returns (left: string)
    ensures s == left + TrimLeft(s) && AllBlank(left) && (TrimLeft(s) == [] || !Blank(TrimLeft(s)[0]))
  {
    if s != [] && Blank(s[0]) {
      left := LeftBlanks(s[1..]);
      left := [s[0]] + left;
      assert s == [s[0]] + s[1..];
    } else {
      left := [];
    }
  }

  lemma {:induction false} RightBlanks(s: string) returns (right: string)
    ensures s == TrimRight(s) + right && AllBlank(right)
    ensures TrimRight(s) == [] || (!Blank(TrimRight(s)[|TrimRight(s)| - 1]) && TrimRight(s)[0] == s[0])
  {
    if s != [] && Blank(s[|s| - 1]) {
      var front, last := s[..|s| - 1], s[|s| - 1];
      right := RightBlanks(front);
      assert s == front + [last] == TrimRight(front) + (right + [last]);
      right := right + [last];
    } else {
      right := [];
    }
  }

  /** The order Go compares strings by. */
  predicate LexLe(a: string, b: string) {
    a == [] || (b != [] && (a[0] < b[0] || (a[0] == b[0] && LexLe(a[1..], b[1..]))))
  }

  lemma {:induction false} LexTotal(a: string, b: string)
    ensures LexLe(a, b) || LexLe(b, a)
    ensures LexLe(a, b) && LexLe(b, a) ==> a == b
  {
    if a != [] && b != [] {
      LexTotal(a[1..], b[1..]);
      assert a == [a[0]] + a[1..] && b == [b[0]] + b[1..];
    }
  }

  lemma {:induction false} LexTransitive(a: string, b: string, c: string)
    requires LexLe(a, b) && LexLe(b, c)
    ensures LexLe(a, c)
  {
    if a != [] && b[0] == a[0] && c[0] == b[0] {
      LexTransitive(a[1..], b[1..], c[1..]);
    }
  }

  /** At the first place where they differ a has the smaller character, or has ended. */
  predicate Precedes(a: string, b: string) {
    exists k :: 0 <= k <= |a| && k < |b| && a[..k] == b[..k] && (k == |a| || a[k] < b[k])
  }

  lemma {:induction false} LexIsFirstDifference(a: string, b: string)
    ensures LexLe(a, b) <==> a == b || Precedes(a, b)
  {
    if a == [] {
      assert b != [] ==> a[..0] == b[..0];
    } else if b != [] {
      LexIsFirstDifference(a[1..], b[1..]);
      assert a == [a[0]] + a[1..] && b == [b[0]] + b[1..];
      if a[0] < b[0] {
        assert a[..0] == b[..0];
      } else if a[0] == b[0] {
        TailPrecedes(a, b);
      }
    }
  }

  lemma LexNotPreceded(a: string, b: string)
    ensures LexLe(a, b) <==> !Precedes(b, a)
  {
    LexIsFirstDifference(b, a);
    LexTotal(a, b);
  }

  lemma TailPrecedes(a: string, b: string)
    requires a != [] && b != [] && a[0] == b[0]
    ensures Precedes(a, b) <==> Precedes(a[1..], b[1..])
  {
    if k :| 0 <= k <= |a| && k < |b| && a[..k] == b[..k] && (k == |a| || a[k] < b[k]) {
      assert a[1..][..k - 1] == a[..k][1..] == b[..k][1..] == b[1..][..k - 1];
    }
    var x, y := a[1..], b[1..];
    if k :| 0 <= k <= |x| && k < |y| && x[..k] == y[..k] && (k == |x| || x[k] < y[k]) {
      assert a[..k + 1] == [a[0]] + x[..k] && b[..k + 1] == [b[0]] + y[..k];
    }
  }

  lemma LexOrder()
    ensures Sorting.TotalPreorder(LexLe)
    ensures forall x, y :: LexLe(x, y) && LexLe(y, x) ==> x == y
    ensures forall x :: LexLe(x, x)
  {
    forall x, y ensures LexLe(x, y) || LexLe(y, x) ensures LexLe(x, y) && LexLe(y, x) ==> x == y {
      LexTotal(x, y);
    }
    forall x ensures LexLe(x, x) {
      LexTotal(x, x);
    }
    forall x, y, z | LexLe(x, y) && LexLe(y, z) ensures LexLe(x, z) {
      LexTransitive(x, y, z);
    }
  }

  /** One field as the fingerprint writes it: length, colon, bytes. */
  function Prefixed(s: string): string {
    Itoa(|s|) + ":" + s
  }

  /** A length-prefixed field can be read back whatever follows it. */
  lemma PrefixedDecodes(a: string, x: string, b: string, y: string)
    requires Prefixed(a) + x == Prefixed(b) + y
    ensures a == b && x == y
  {
    var p, q := Itoa(|a|), Itoa(|b|);
    var left, right := Prefixed(a) + x, Prefixed(b) + y;
    assert left == p + (":" + a + x) && right == q + (":" + b + y);
    assert left[|p|] == ':' && right[|q|] == ':';
    assert forall i :: 0 <= i < |p| ==> left[i] == p[i];
    assert forall i :: 0 <= i < |q| ==> right[i] == q[i];
    assert |p| == |q|;
    assert p == left[..|p|] && q == right[..|q|];
    ItoaInjective(|a|, |b|);
    assert a == left[|p| + 1..|p| + 1 + |a|] && b == right[|q| + 1..|q| + 1 + |b|];
    assert x == left[|p| + 1 + |a|..] && y == right[|q| + 1 + |b|..];
  }
}
