/** strings.Compare: lexicographic order by code point, which is also the order of the UTF-8 bytes. */
module Strings {
  function Compare(a: string, b: string): (c: int)
    ensures c == -1 || c == 0 || c == 1
  {
    if a == [] && b == [] then 0
    else if a == [] then -1
    else if b == [] then 1
    else if a[0] < b[0] then -1
    else if b[0] < a[0] then 1
    else Compare(a[1..], b[1..])
  }

  /** At index k a comes before b: a ends there, or has the smaller character. */
  ghost predicate Precedes(a: string, b: string, k: nat) {
    && k <= |a| && k < |b| && a[..k] == b[..k]
    && (k < |a| ==> a[k] < b[k])
  }

  lemma PrecedesLater(a: string, b: string, k: nat)
    requires a != [] && b != [] && a[0] == b[0]
    ensures Precedes(a[1..], b[1..], k) <==> Precedes(a, b, k + 1)
  {
    if k + 1 <= |a| && k + 1 <= |b| {
      assert a[..k + 1] == [a[0]] + a[1..][..k] && b[..k + 1] == [b[0]] + b[1..][..k];
    }
  }

  lemma HeadDecides(a: string, b: string, k: nat)
    requires Precedes(a, b, k) && a != [] && b != []
    ensures a[0] <= b[0] && (k > 0 ==> a[0] == b[0])
  {
    if k > 0 { assert a[..k][0] == b[..k][0]; }
  }

  /** The first difference decides: the smaller character, or the string that ends first, comes first. */
  lemma {:induction false} FirstDifferenceDecides(a: string, b: string)
    ensures Compare(a, b) == -1 <==> exists k: nat :: Precedes(a, b, k)
    decreases |a|
  {
    if a != [] && b != [] && a[0] == b[0] {
      FirstDifferenceDecides(a[1..], b[1..]);
      if k: nat :| Precedes(a[1..], b[1..], k) { PrecedesLater(a, b, k); }
      if k: nat :| Precedes(a, b, k) {
        PrecedesLater(a, b, k - 1);
      }
    } else if a != [] && b != [] {
      if k: nat :| Precedes(a, b, k) { HeadDecides(a, b, k); }
      if a[0] < b[0] { assert Precedes(a, b, 0); }
    } else if a == [] && b != [] {
      assert Precedes(a, b, 0);
    }
  }

  lemma {:induction false} CompareEqual(a: string, b: string)
    ensures Compare(a, b) == 0 <==> a == b
  {
    if a != [] && b != [] {
      CompareEqual(a[1..], b[1..]);
      assert a == [a[0]] + a[1..] && b == [b[0]] + b[1..];
    }
  }

  lemma {:induction false} CompareAntisymmetric(a: string, b: string)
    ensures Compare(a, b) == -Compare(b, a)
  {
    if a != [] && b != [] {
      CompareAntisymmetric(a[1..], b[1..]);
    }
  }

  lemma {:induction false} CompareTransitive(a: string, b: string, c: string)
    requires Compare(a, b) <= 0 && Compare(b, c) <= 0
    ensures Compare(a, c) <= 0
    ensures Compare(a, b) < 0 || Compare(b, c) < 0 ==> Compare(a, c) < 0
  {
    if a != [] && b != [] && c != [] && a[0] == b[0] == c[0] {
      CompareTransitive(a[1..], b[1..], c[1..]);
    }
  }

  predicate HasSuffix(s: string, suffix: string) {
    |s| >= |suffix| && s[|s| - |suffix|..] == suffix
  }

  /** unicode.IsSpace. */
  predicate IsSpace(c: char) {
    var n := c as int;
    9 <= n <= 13 || n == 0x20 || n == 0x85 || n == 0xA0 || n == 0x1680 || 0x2000 <= n <= 0x200a
    || n == 0x2028 || n == 0x2029 || n == 0x202f || n == 0x205f || n == 0x3000
  }

  /** The white space of Unicode. */
  lemma Spaces(c: char)
    ensures IsSpace(c) <==>
            || c in {'\U{9}', '\U{a}', '\U{b}', '\U{c}', '\U{d}', ' ', '\U{85}', '\U{a0}', '\U{1680}', '\U{2028}'}
            || c in {'\U{2029}', '\U{202f}', '\U{205f}', '\U{3000}'} || '\U{2000}' <= c <= '\U{200a}'
  {
  }

  function TrimLeft(s: string): string {
    if s != [] && IsSpace(s[0]) then TrimLeft(s[1..]) else s
  }

  function TrimRight(s: string): string {
    if s != [] && IsSpace(s[|s| - 1]) then TrimRight(s[..|s| - 1]) else s
  }

  function TrimSpace(s: string): string { TrimRight(TrimLeft(s)) }

  /** t is s without the white space around it. */
  ghost predicate Trimmed(s: string, t: string) {
    exists i, j | 0 <= i <= j <= |s| ::
      && t == s[i..j]
      && (forall k | 0 <= k < i || j <= k < |s| :: IsSpace(s[k]))
      && (t != [] ==> !IsSpace(t[0]) && !IsSpace(t[|t| - 1]))
  }

  lemma {:induction false} LeftTrimmed(s: string) returns (i: nat)
    ensures i <= |s| && TrimLeft(s) == s[i..] && (forall k | 0 <= k < i :: IsSpace(s[k]))
    ensures TrimLeft(s) != [] ==> !IsSpace(TrimLeft(s)[0])
  {
    i := 0;
    if s != [] && IsSpace(s[0]) {
      var j := LeftTrimmed(s[1..]);
      i := j + 1;
      assert s[1..][j..] == s[i..];
      forall k | 0 <= k < i ensures IsSpace(s[k]) {
        if k > 0 { assert s[k] == s[1..][k - 1]; }
      }
    }
  }

  lemma {:induction false} RightTrimmed(s: string) returns (j: nat)
    ensures j <= |s| && TrimRight(s) == s[..j] && (forall k | j <= k < |s| :: IsSpace(s[k]))
    ensures TrimRight(s) != [] ==> !IsSpace(TrimRight(s)[|TrimRight(s)| - 1])
  {
    j := |s|;
    if s != [] && IsSpace(s[|s| - 1]) {
      var n := |s| - 1;
      j := RightTrimmed(s[..n]);
      assert s[..n][..j] == s[..j];
      forall k | j <= k < |s| ensures IsSpace(s[k]) {
        if k < n { assert s[k] == s[..n][k]; }
      }
    }
  }

  lemma TrimSpaceTrims(s: string)
    ensures Trimmed(s, TrimSpace(s))
  {
    var left := TrimLeft(s);
    var i := LeftTrimmed(s);
    var n := RightTrimmed(left);
    var j := i + n;
    assert TrimSpace(s) == s[i..j];
    forall k | j <= k < |s| ensures IsSpace(s[k]) {
      assert s[k] == left[k - i];
    }
    if n > 0 { assert left[..n][0] == left[0]; }
  }
}
