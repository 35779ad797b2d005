/** internal/version/version.go: parsing and ordering of release tags. */
module Semver {
  import opened Endian
  import opened Octets
  import opened Strings

  function Normalize(tag: string): string {
    var t := TrimSpace(tag);
    if t != [] && (t[0] == 'v' || t[0] == 'V') then t[1..] else t
  }

  // ---- strconv.Atoi on 64-bit integers ------------------------------------------------------------------------

  predicate IsDigit(c: char) { '0' <= c <= '9' }

  function DigitsValue(s: string): nat
    requires forall c | c in s :: IsDigit(c)
  {
    if s == [] then 0
    else
      assert s[|s| - 1] in s;
      assert IsDigit(s[|s| - 1]);
      var digit: nat := s[|s| - 1] as int - '0' as int;
      DigitsValue(s[..|s| - 1]) * 10 + digit
  }

  predicate Digits(s: string) { s != [] && forall c | c in s :: IsDigit(c) }

  /** An optional sign, then digits; None on a syntax error or out of range. */
  function Atoi(s: string): Option<int> {
    if s != [] && (s[0] == '-' || s[0] == '+') then
      if !Digits(s[1..]) then None
      else
        var digits: int := DigitsValue(s[1..]);
        var n := if s[0] == '-' then -digits else digits;
        if -(MAX_INT64 as int) - 1 <= n <= MAX_INT64 then Some(n) else None
    else if !Digits(s) then None
    else if DigitsValue(s) <= MAX_INT64 then Some(DigitsValue(s)) else None
  }

  // ---- Parsing --------------------------------------------------------------------------------------------------

  function IndexOf(s: string, c: char): Option<nat> {
    if s == [] then None
    else if s[0] == c then Some(0)
    else match IndexOf(s[1..], c) case None => None case Some(i) => Some(i + 1)
  }

  lemma {:induction false} IndexWithin(s: string, c: char)
    ensures IndexOf(s, c).Some? ==> IndexOf(s, c).value < |s|
  {
    if s != [] { IndexWithin(s[1..], c); }
  }

  /** strings.Split on one character: never empty. */
  function SplitOn(s: string, c: char): (parts: seq<string>)
    ensures |parts| >= 1
    decreases |s|
  {
    match IndexOf(s, c)
    case None => [s]
    case Some(i) => IndexWithin(s, c); [s[..i]] + SplitOn(s[i + 1..], c)
  }

  /** The part before the first c, and the part after it. */
  function Before(s: string, c: char): string {
    match IndexOf(s, c) case None => s case Some(i) => IndexWithin(s, c); s[..i]
  }

  function After(s: string, c: char): Option<string> {
    match IndexOf(s, c) case None => None case Some(i) => IndexWithin(s, c); Some(s[i + 1..])
  }

  datatype Version = Version(major: int, minor: int, patch: int, pre: seq<string>)

  /** MAJOR[.MINOR[.PATCH]][-PRERELEASE][+BUILD], numbers as Atoi reads them, none negative. */
  function Parse(tag: string): (v: Option<Version>)
    ensures v.Some? ==> v.value.major >= 0 && v.value.minor >= 0 && v.value.patch >= 0
  {
    var s := Before(Normalize(tag), '+');
    var pre := match After(s, '-') case None => [] case Some(rest) => SplitOn(rest, '.');
    var fields := SplitOn(Before(s, '-'), '.');
    if |fields| > 3 || !NaturalAt(fields, 0) || !NaturalAt(fields, 1) || !NaturalAt(fields, 2) then None
    else Some(Version(NumberAt(fields, 0), NumberAt(fields, 1), NumberAt(fields, 2), pre))
  }

  predicate NaturalAt(fields: seq<string>, i: nat) {
    i < |fields| ==> Atoi(fields[i]).Some? && Atoi(fields[i]).value >= 0
  }

  function NumberAt(fields: seq<string>, i: nat): (n: int)
    requires NaturalAt(fields, i)
    ensures n >= 0
  {
    if i < |fields| then Atoi(fields[i]).value else 0
  }

  // ---- Precedence -------------------------------------------------------------------------------------------------

  function CompareInt(a: int, b: int): int { if a < b then -1 else if a > b then 1 else 0 }

  function CompareIdent(a: string, b: string): int {
    if Atoi(a).Some? && Atoi(b).Some? then CompareInt(Atoi(a).value, Atoi(b).value)
    else if Atoi(a).Some? then -1
    else if Atoi(b).Some? then 1
    else Strings.Compare(a, b)
  }

  /** The scan over the common length from index i on; then the longer list wins. */
  function CompareFrom(a: seq<string>, b: seq<string>, i: nat): int
    decreases |a| - i
  {
    if i < |a| && i < |b| then
      var c := CompareIdent(a[i], b[i]);
      if c != 0 then c else CompareFrom(a, b, i + 1)
    else CompareInt(|a|, |b|)
  }

  function ComparePre(a: seq<string>, b: seq<string>): int {
    if a == [] && b == [] then 0 else if a == [] then 1 else if b == [] then -1 else CompareFrom(a, b, 0)
  }

  function CompareVersions(a: Version, b: Version): int {
    if a.major != b.major then CompareInt(a.major, b.major)
    else if a.minor != b.minor then CompareInt(a.minor, b.minor)
    else if a.patch != b.patch then CompareInt(a.patch, b.patch)
    else ComparePre(a.pre, b.pre)
  }

  /** An invalid tag compares lower than any valid one, and equal to any other invalid one. */
  function Compare(a: string, b: string): int {
    match (Parse(a), Parse(b))
    case (None, None) => 0
    case (None, Some(_)) => -1
    case (Some(_), None) => 1
    case (Some(x), Some(y)) => CompareVersions(x, y)
  }

  predicate IsValid(tag: string) { Parse(tag).Some? }

  predicate IsNewer(candidate: string, current: string) {
    IsValid(candidate) && IsValid(current) && Compare(candidate, current) > 0
  }

  // ---- A total preorder -------------------------------------------------------------------------------------------

  lemma IdentSign(a: string, b: string)
    ensures CompareIdent(a, b) == -CompareIdent(b, a) && -1 <= CompareIdent(a, b) <= 1
  {
    CompareAntisymmetric(a, b);
  }

  lemma IdentTransitive(a: string, b: string, c: string)
    requires CompareIdent(a, b) <= 0 && CompareIdent(b, c) <= 0
    ensures CompareIdent(a, c) <= 0
    ensures CompareIdent(a, c) == 0 <==> CompareIdent(a, b) == 0 && CompareIdent(b, c) == 0
  {
    hide Atoi;
    if Atoi(a).None? && Atoi(b).None? && Atoi(c).None? {
      CompareTransitive(a, b, c);
      CompareEqual(a, b);
      CompareEqual(b, c);
      CompareEqual(a, c);
    }
  }

  lemma {:induction false} FromSign(a: seq<string>, b: seq<string>, i: nat)
    ensures CompareFrom(a, b, i) == -CompareFrom(b, a, i) && -1 <= CompareFrom(a, b, i) <= 1
    decreases |a| - i
  {
    hide CompareIdent;
    if i < |a| && i < |b| {
      IdentSign(a[i], b[i]);
      FromSign(a, b, i + 1);
    }
  }

  lemma {:induction false} FromTransitive(a: seq<string>, b: seq<string>, c: seq<string>, i: nat)
    requires i <= |a| && i <= |b| && i <= |c|
    requires CompareFrom(a, b, i) <= 0 && CompareFrom(b, c, i) <= 0
    ensures CompareFrom(a, c, i) <= 0
    ensures CompareFrom(a, c, i) == 0 <==> CompareFrom(a, b, i) == 0 && CompareFrom(b, c, i) == 0
    decreases |a| - i
  {
    hide CompareIdent;
    if i < |a| && i < |b| && i < |c| {
      IdentSign(a[i], b[i]);
      IdentSign(b[i], c[i]);
      IdentTransitive(a[i], b[i], c[i]);
      if CompareIdent(a[i], b[i]) == 0 && CompareIdent(b[i], c[i]) == 0 {
        FromTransitive(a, b, c, i + 1);
      }
    }
  }

  lemma PreSign(a: seq<string>, b: seq<string>)
    ensures ComparePre(a, b) == -ComparePre(b, a) && -1 <= ComparePre(a, b) <= 1
  {
    hide CompareFrom;
    FromSign(a, b, 0);
  }

  lemma PreTransitive(a: seq<string>, b: seq<string>, c: seq<string>)
    requires ComparePre(a, b) <= 0 && ComparePre(b, c) <= 0
    ensures ComparePre(a, c) <= 0
    ensures ComparePre(a, c) == 0 <==> ComparePre(a, b) == 0 && ComparePre(b, c) == 0
  {
    hide CompareFrom;
    if a != [] && b != [] && c != [] { FromTransitive(a, b, c, 0); }
  }

  /** Reflexive and sign-antisymmetric over all strings. */
  lemma CompareSign(a: string, b: string)
    ensures Compare(a, a) == 0
    ensures Compare(a, b) == -Compare(b, a) && -1 <= Compare(a, b) <= 1
  {
    hide Parse, ComparePre;
    if Parse(a).Some? { PreSign(Parse(a).value.pre, Parse(a).value.pre); }
    if Parse(a).Some? && Parse(b).Some? { PreSign(Parse(a).value.pre, Parse(b).value.pre); }
  }

  /** Transitive over all strings: mixed numeric and alphanumeric identifiers and overflowing numbers included. */
  lemma CompareTransitiveOnTags(a: string, b: string, c: string)
    requires Compare(a, b) <= 0 && Compare(b, c) <= 0
    ensures Compare(a, c) <= 0
    ensures Compare(a, c) == 0 <==> Compare(a, b) == 0 && Compare(b, c) == 0
  {
    hide Parse, ComparePre;
    if Parse(a).Some? && Parse(b).Some? && Parse(c).Some? {
      var x, y, z := Parse(a).value, Parse(b).value, Parse(c).value;
      PreSign(x.pre, y.pre);
      PreSign(y.pre, z.pre);
      if ComparePre(x.pre, y.pre) <= 0 && ComparePre(y.pre, z.pre) <= 0 { PreTransitive(x.pre, y.pre, z.pre); }
    }
  }

  /**
   A strict order: irreflexive, asymmetric, transitive; and among valid tags, incomparable means equal precedence.
   */
  lemma IsNewerIsStrict(a: string, b: string, c: string)
    ensures !IsNewer(a, a)
    ensures IsNewer(a, b) ==> !IsNewer(b, a)
    ensures IsNewer(a, b) && IsNewer(b, c) ==> IsNewer(a, c)
    ensures IsValid(a) && IsValid(b) ==> (!IsNewer(a, b) && !IsNewer(b, a) <==> Compare(a, b) == 0)
  {
    hide Compare, Parse;
    CompareSign(a, b);
    CompareSign(b, c);
    CompareSign(a, c);
    if IsNewer(a, b) && IsNewer(b, c) { CompareTransitiveOnTags(c, b, a); }
  }

  /** A release outranks every pre-release of the same core version. */
  lemma ReleaseOutranksPreRelease(a: string, b: string)
    requires IsValid(a) && IsValid(b) && Parse(a).value.(pre := []) == Parse(b).value && Parse(a).value.pre != []
    ensures Compare(a, b) == -1
  {
    hide Parse;
  }

  /** A tag and its bare version have the same precedence. */
  lemma LeadingVIsIgnored(t: string)
    requires TrimSpace(t) == t && (t != [] ==> t[0] != 'v' && t[0] != 'V')
    ensures Compare("v" + t, t) == 0 && Compare("V" + t, t) == 0
  {
    TrimmedEnds(t);
    TrimStaysOff('v', t);
    TrimStaysOff('V', t);
    assert ("v" + t)[1..] == t && ("V" + t)[1..] == t;
    CompareSign(t, t);
  }

  lemma {:induction false} TrimShortens(s: string)
    ensures |TrimLeft(s)| <= |s| && |TrimRight(s)| <= |s|
    decreases |s|
  {
    if s != [] { TrimShortens(s[1..]); TrimShortens(s[..|s| - 1]); }
  }

  lemma TrimmedEnds(t: string)
    requires TrimSpace(t) == t
    ensures t != [] ==> !IsSpace(t[0]) && !IsSpace(t[|t| - 1])
  {
    if t != [] {
      TrimShortens(t);
      TrimShortens(t[1..]);
      TrimShortens(TrimLeft(t));
      TrimShortens(t[..|t| - 1]);
      assert |TrimLeft(t)| == |t|;
    }
  }

  lemma TrimStaysOff(c: char, t: string)
    requires !IsSpace(c) && (t != [] ==> !IsSpace(t[|t| - 1]))
    ensures TrimSpace([c] + t) == [c] + t
  {
  }

  // ---- What the order is, on tags written out --------------------------------------------------------------------

  function Decimal(n: nat): (s: string)
    ensures Digits(s)
  {
    var last := [(n % 10) as char + '0'];
    assert IsDigit(last[0]);
    if n < 10 then last else Decimal(n / 10) + last
  }

  lemma {:induction false} DecimalValue(n: nat)
    ensures DigitsValue(Decimal(n)) == n
  {
    var s := Decimal(n);
    if n >= 10 {
      DecimalValue(n / 10);
      assert s[..|s| - 1] == Decimal(n / 10);
    } else {
      assert s[..|s| - 1] == [];
    }
  }

  lemma AtoiReadsDecimal(n: nat)
    requires n <= MAX_INT64
    ensures Atoi(Decimal(n)) == Some(n as int)
  {
    DecimalValue(n);
    assert IsDigit(Decimal(n)[0]) by { assert Decimal(n)[0] in Decimal(n); }
  }

  lemma {:induction false} FirstAt(s: string, c: char, rest: string)
    requires c !in s
    ensures IndexOf(s, c) == None && IndexOf(s + [c] + rest, c) == Some(|s|)
    ensures Before(s, c) == s && After(s, c) == None
    ensures Before(s + [c] + rest, c) == s && After(s + [c] + rest, c) == Some(rest)
    ensures SplitOn(s, c) == [s] && SplitOn(s + [c] + rest, c) == [s] + SplitOn(rest, c)
  {
    if s != [] {
      FirstAt(s[1..], c, rest);
      assert (s + [c] + rest)[1..] == s[1..] + [c] + rest;
    }
    assert (s + [c] + rest)[..|s|] == s && (s + [c] + rest)[|s| + 1..] == rest;
  }

  function Core(a: nat, b: nat, c: nat): string { Decimal(a) + "." + Decimal(b) + "." + Decimal(c) }

  lemma DigitsAlone(n: nat)
    ensures '.' !in Decimal(n) && '-' !in Decimal(n) && '+' !in Decimal(n)
    ensures !IsSpace(Decimal(n)[0]) && !IsSpace(Decimal(n)[|Decimal(n)| - 1])
    ensures Decimal(n)[0] != 'v' && Decimal(n)[0] != 'V'
  {
    assert Decimal(n)[0] in Decimal(n) && Decimal(n)[|Decimal(n)| - 1] in Decimal(n);
  }

  lemma NotTrimmed(s: string)
    requires s != [] && !IsSpace(s[0]) && !IsSpace(s[|s| - 1]) && s[0] != 'v' && s[0] != 'V'
    ensures Normalize(s) == s
  {
  }

  lemma CoreFields(a: nat, b: nat, c: nat)
    ensures SplitOn(Core(a, b, c), '.') == [Decimal(a), Decimal(b), Decimal(c)]
    ensures '-' !in Core(a, b, c) && '+' !in Core(a, b, c)
  {
    hide Decimal, IsSpace, IndexOf, SplitOn, Before, After;
    DigitsAlone(a);
    DigitsAlone(b);
    DigitsAlone(c);
    var tail := Decimal(b) + ['.'] + Decimal(c);
    assert Core(a, b, c) == Decimal(a) + ['.'] + tail;
    FirstAt(Decimal(a), '.', tail);
    FirstAt(Decimal(b), '.', Decimal(c));
    FirstAt(Decimal(c), '.', "");
  }

  /** What follows the three numbers: nothing, or a pre-release, or build metadata, or both. */
  function Written(a: nat, b: nat, c: nat, pre: Option<string>, build: Option<string>): string {
    Tailed(Tailed(Core(a, b, c), '-', pre), '+', build)
  }

  lemma WrittenEnds(a: nat, b: nat, c: nat, pre: Option<string>, build: Option<string>)
    requires pre.Some? ==> pre.value == [] || !IsSpace(pre.value[|pre.value| - 1])
    requires build.Some? ==> build.value == [] || !IsSpace(build.value[|build.value| - 1])
    ensures Normalize(Written(a, b, c, pre, build)) == Written(a, b, c, pre, build)
  {
    hide Decimal, Normalize;
    DigitsAlone(a);
    DigitsAlone(c);
    NotTrimmed(Written(a, b, c, pre, build));
  }

  function Tailed(s: string, c: char, tail: Option<string>): string {
    if tail.Some? then s + [c] + tail.value else s
  }

  lemma TailedParts(s: string, c: char, tail: Option<string>)
    requires c !in s
    ensures Before(Tailed(s, c, tail), c) == s && After(Tailed(s, c, tail), c) == tail
  {
    hide Before, After, SplitOn, IndexOf;
    FirstAt(s, c, if tail.Some? then tail.value else "");
  }

  lemma WrittenParts(a: nat, b: nat, c: nat, pre: Option<string>, build: Option<string>)
    requires pre.Some? ==> '+' !in pre.value
    ensures var s := Before(Written(a, b, c, pre, build), '+');
            Before(s, '-') == Core(a, b, c) && After(s, '-') == pre
  {
    hide Core, Before, After, SplitOn, IndexOf;
    CoreFields(a, b, c);
    var core := Core(a, b, c);
    TailedParts(core, '-', pre);
    TailedParts(Tailed(core, '-', pre), '+', build);
  }

  /** A tag written with three numbers in range parses to them; the build metadata is dropped. */
  lemma ParseReadsWritten(a: nat, b: nat, c: nat, pre: Option<string>, build: Option<string>)
    requires a <= MAX_INT64 && b <= MAX_INT64 && c <= MAX_INT64
    requires pre.Some? ==> '+' !in pre.value && (pre.value == [] || !IsSpace(pre.value[|pre.value| - 1]))
    requires build.Some? ==> build.value == [] || !IsSpace(build.value[|build.value| - 1])
    ensures Parse(Written(a, b, c, pre, build)) ==
            Some(Version(a, b, c, if pre.Some? then SplitOn(pre.value, '.') else []))
  {
    hide Decimal, IsSpace, Normalize, Core, Atoi, Before, After, SplitOn, Written;
    WrittenEnds(a, b, c, pre, build);
    WrittenParts(a, b, c, pre, build);
    CoreFields(a, b, c);
    AtoiReadsDecimal(a);
    AtoiReadsDecimal(b);
    AtoiReadsDecimal(c);
  }

  /** Major before minor before patch, each by value; build metadata counts for nothing. */
  lemma NumbersDecide(a: nat, b: nat, c: nat, d: nat, e: nat, f: nat, m: Option<string>, n: Option<string>)
    requires a <= MAX_INT64 && b <= MAX_INT64 && c <= MAX_INT64 && d <= MAX_INT64 && e <= MAX_INT64 && f <= MAX_INT64
    requires m.Some? ==> m.value == [] || !IsSpace(m.value[|m.value| - 1])
    requires n.Some? ==> n.value == [] || !IsSpace(n.value[|n.value| - 1])
    ensures var x, y := Written(a, b, c, None, m), Written(d, e, f, None, n);
            && (IsNewer(x, y) <==> a > d || (a == d && (b > e || (b == e && c > f))))
            && (Compare(x, y) == 0 <==> a == d && b == e && c == f)
  {
    hide Parse, Written, IsSpace;
    ParseReadsWritten(a, b, c, None, m);
    ParseReadsWritten(d, e, f, None, n);
  }

  /** Numbers first, then a release above its pre-releases, then the pre-release identifiers. */
  lemma PreReleasesDecideLast(a: nat, b: nat, c: nat, pre: string, other: string)
    requires a <= MAX_INT64 && b <= MAX_INT64 && c <= MAX_INT64 && '+' !in pre && '+' !in other
    requires pre == [] || !IsSpace(pre[|pre| - 1])
    requires other == [] || !IsSpace(other[|other| - 1])
    ensures IsNewer(Written(a, b, c, None, None), Written(a, b, c, Some(pre), None))
    ensures IsNewer(Written(a, b, c, Some(pre), None), Written(a, b, c, Some(other), None)) <==>
            PreBelow(SplitOn(other, '.'), SplitOn(pre, '.'))
  {
    hide Parse, Written, IsSpace, CompareIdent;
    ParseReadsWritten(a, b, c, None, None);
    ParseReadsWritten(a, b, c, Some(pre), None);
    ParseReadsWritten(a, b, c, Some(other), None);
    var p, o := SplitOn(pre, '.'), SplitOn(other, '.');
    FirstIdentDecides(o, p, 0);
    FromSign(o, p, 0);
  }

  /** At the first identifiers that differ a has the lower one; or a is the shorter list and none differ. */
  ghost predicate PreBelow(a: seq<string>, b: seq<string>) {
    exists i: nat :: BelowAt(a, b, 0, i)
  }

  ghost predicate BelowAt(a: seq<string>, b: seq<string>, from: nat, i: nat) {
    && from <= i <= |a| && i < |b| && (forall k: nat | from <= k < i :: SameAt(a, b, k))
    && (i < |a| ==> CompareIdent(a[i], b[i]) == -1)
  }

  ghost predicate SameAt(a: seq<string>, b: seq<string>, k: nat) {
    k < |a| && k < |b| && CompareIdent(a[k], b[k]) == 0
  }

  lemma {:induction false} FirstIdentDecides(a: seq<string>, b: seq<string>, from: nat)
    requires from <= |a| && from <= |b|
    ensures CompareFrom(a, b, from) == -1 <==> exists i: nat :: BelowAt(a, b, from, i)
    decreases |a| - from
  {
    hide CompareIdent;
    if from < |a| && from < |b| {
      IdentSign(a[from], b[from]);
      if CompareIdent(a[from], b[from]) == 0 {
        var next := from + 1;
        FirstIdentDecides(a, b, next);
        assert SameAt(a, b, from);
        if i: nat :| BelowAt(a, b, next, i) {
          assert BelowAt(a, b, from, i);
        }
        if i: nat :| BelowAt(a, b, from, i) {
          assert BelowAt(a, b, next, i);
        }
      } else {
        assert !SameAt(a, b, from);
        assert BelowAt(a, b, from, from) <==> CompareIdent(a[from], b[from]) == -1;
      }
    } else if from < |b| {
      assert BelowAt(a, b, from, from);
    }
  }

  /** Identifiers: numbers by value, numbers below words, and words by their first difference. */
  lemma IdentifierOrder(m: nat, n: nat, a: string, b: string)
    requires m <= MAX_INT64 && n <= MAX_INT64 && Atoi(a).None? && Atoi(b).None?
    ensures CompareIdent(Decimal(m), Decimal(n)) == -1 <==> m < n
    ensures CompareIdent(Decimal(m), a) == -1
    ensures CompareIdent(a, b) == -1 <==> exists k: nat :: Precedes(a, b, k)
    ensures CompareIdent(a, b) == 0 <==> a == b
  {
    hide Decimal, Atoi;
    AtoiReadsDecimal(m);
    AtoiReadsDecimal(n);
    FirstDifferenceDecides(a, b);
    CompareEqual(a, b);
  }

  /** Invalid tags are below all valid ones, equal to each other, and neither newer nor older than anything. */
  lemma InvalidIsLowest(a: string, b: string)
    requires !IsValid(a)
    ensures Compare(a, b) == if IsValid(b) then -1 else 0
    ensures !IsNewer(a, b) && !IsNewer(b, a)
  {
    hide Parse;
  }

  /** Numbers that are left out are zero, and a fourth one is not taken. */
  lemma FewerNumbers(a: nat, b: nat, c: nat, rest: string)
    requires a <= MAX_INT64 && b <= MAX_INT64 && '-' !in rest && '+' !in rest
    requires rest == [] || !IsSpace(rest[|rest| - 1])
    ensures Parse(Decimal(a)) == Some(Version(a, 0, 0, []))
    ensures Parse(Decimal(a) + ['.'] + Decimal(b)) == Some(Version(a, b, 0, []))
    ensures Parse(Core(a, b, c) + ['.'] + rest) == None
  {
    hide Decimal, IsSpace, Normalize, Atoi, Before, After, SplitOn, IndexOf;
    DigitsAlone(a);
    DigitsAlone(b);
    DigitsAlone(c);
    AtoiReadsDecimal(a);
    AtoiReadsDecimal(b);
    var two, four := Decimal(a) + ['.'] + Decimal(b), Core(a, b, c) + ['.'] + rest;
    DotIsNoSpace();
    NotTrimmed(Decimal(a));
    NotTrimmed(two);
    NotTrimmed(four);
    FirstAt(Decimal(a), '+', "");
    FirstAt(Decimal(a), '-', "");
    FirstAt(Decimal(a), '.', Decimal(b));
    FirstAt(Decimal(b), '.', "");
    FirstAt(two, '+', "");
    FirstAt(two, '-', "");
    FirstAt(four, '+', "");
    FirstAt(four, '-', "");
    var tail := Decimal(c) + ['.'] + rest;
    assert four == Decimal(a) + ['.'] + (Decimal(b) + ['.'] + tail);
    FirstAt(Decimal(a), '.', Decimal(b) + ['.'] + tail);
    FirstAt(Decimal(b), '.', tail);
    FirstAt(Decimal(c), '.', rest);
  }

  lemma DotIsNoSpace()
    ensures !IsSpace('.')
  {
  }

  /** A sign is read, the range is that of 64 bits, and no version has a negative number. */
  lemma SignsAreRead(n: nat)
    ensures Atoi(['-'] + Decimal(n)) == if n <= 0x8000_0000_0000_0000 then Some(-(n as int)) else None
    ensures Atoi(['+'] + Decimal(n)) == if n < 0x8000_0000_0000_0000 then Some(n as int) else None
    ensures Atoi(Decimal(n)) == if n < 0x8000_0000_0000_0000 then Some(n as int) else None
    ensures n > 0 ==> !NaturalAt([['-'] + Decimal(n)], 0)
  {
    hide Decimal;
    DecimalValue(n);
    assert IsDigit(Decimal(n)[0]) by { assert Decimal(n)[0] in Decimal(n); }
    assert (['-'] + Decimal(n))[1..] == Decimal(n) && (['+'] + Decimal(n))[1..] == Decimal(n);
  }
}
