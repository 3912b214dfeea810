/** Precedence of semantic versions (section 11 of Semantic Versioning 2.0.0). */
module Semver {
  import opened Orders

  datatype PreRelease = Num(n: nat) | Alpha(s: string)

  /** Build metadata takes no part in precedence. */
  datatype Version = Version(major: nat, minor: nat, patch: nat, pre: seq<PreRelease>, build: seq<string>)

  const ZERO := Version(0, 0, 0, [], [])

  function CompareNat(a: nat, b: nat): int {
    if a == b then 0 else if a > b then 1 else -1
  }

  function ComparePre(a: PreRelease, b: PreRelease): int {
    if a.Num? && !b.Num? then -1
    else if !a.Num? && b.Num? then 1
    else if a.Num? then CompareNat(a.n, b.n)
    else if a.s == b.s then 0 else if StrLE(b.s, a.s) then 1 else -1
  }

  /** Identifier by identifier; when one list ends first, the longer one is greater. */
  function ComparePres(a: seq<PreRelease>, b: seq<PreRelease>): int {
    if |a| == 0 && |b| == 0 then 0
    else if |a| == 0 then -1
    else if |b| == 0 then 1
    else if ComparePre(a[0], b[0]) != 0 then ComparePre(a[0], b[0])
    else ComparePres(a[1..], b[1..])
  }

  function Compare(a: Version, b: Version): int {
    if a.major != b.major then CompareNat(a.major, b.major)
    else if a.minor != b.minor then CompareNat(a.minor, b.minor)
    else if a.patch != b.patch then CompareNat(a.patch, b.patch)
    else if |a.pre| == 0 && |b.pre| == 0 then 0
    else if |a.pre| == 0 then 1
    else if |b.pre| == 0 then -1
    else ComparePres(a.pre, b.pre)
  }

  predicate GTE(a: Version, b: Version) {
    Compare(a, b) >= 0
  }

  lemma ComparePreLaws(a: PreRelease, b: PreRelease, c: PreRelease)
    ensures ComparePre(a, b) == -ComparePre(b, a)
    ensures ComparePre(a, b) >= 0 && ComparePre(b, c) >= 0 ==> ComparePre(a, c) >= 0
    ensures ComparePre(a, b) == 0 ==> a == b
  {
    if a.Alpha? && b.Alpha? {
      StrTotal(a.s, b.s);
      if StrLE(a.s, b.s) && StrLE(b.s, a.s) {
        StrAntisymmetric(a.s, b.s);
      }
      if c.Alpha? && StrLE(b.s, a.s) && StrLE(c.s, b.s) {
        StrTransitive(c.s, b.s, a.s);
      }
    }
  }

  lemma {:induction false} ComparePresLaws(a: seq<PreRelease>, b: seq<PreRelease>, c: seq<PreRelease>)
    ensures ComparePres(a, b) == -ComparePres(b, a)
    ensures ComparePres(a, b) >= 0 && ComparePres(b, c) >= 0 ==> ComparePres(a, c) >= 0
    decreases |a| + |b| + |c|
  {
    if |a| > 0 && |b| > 0 {
      ComparePreLaws(a[0], b[0], if |c| > 0 then c[0] else b[0]);
      ComparePreLaws(b[0], if |c| > 0 then c[0] else b[0], a[0]);
      ComparePreLaws(if |c| > 0 then c[0] else b[0], a[0], b[0]);
      ComparePresLaws(a[1..], b[1..], if |c| > 0 then c[1..] else []);
    }
  }

  // ----- The rules of precedence -----

  /** A numeric identifier is below an alphanumeric one; otherwise numbers or characters decide. */
  ghost predicate PreAbove(x: PreRelease, y: PreRelease) {
    || (x.Alpha? && y.Num?)
    || (x.Num? && y.Num? && x.n > y.n)
    || (x.Alpha? && y.Alpha? && ComesFirst(y.s, x.s))
  }

  /** The lists agree up to `k`, where `b` ends or has the lower identifier. */
  ghost predicate PresAboveAt(a: seq<PreRelease>, b: seq<PreRelease>, k: nat) {
    k < |a| && k <= |b| && (forall i :: 0 <= i < k ==> a[i] == b[i]) && (k == |b| || PreAbove(a[k], b[k]))
  }

  /** Major, minor and patch version decide, in this order; then a release is above its pre-releases, and these are
      compared identifier by identifier, a longer list being above one that it begins with. */
  ghost predicate Above(a: Version, b: Version) {
    || a.major > b.major
    || (a.major == b.major && a.minor > b.minor)
    || (a.major == b.major && a.minor == b.minor && a.patch > b.patch)
    || (&& a.major == b.major && a.minor == b.minor && a.patch == b.patch
        && b.pre != [] && (a.pre == [] || exists k: nat :: PresAboveAt(a.pre, b.pre, k)))
  }

  lemma ComparePreIs(x: PreRelease, y: PreRelease)
    ensures ComparePre(x, y) > 0 <==> PreAbove(x, y)
    ensures ComparePre(x, y) == 0 <==> x == y
  {
    if x.Alpha? && y.Alpha? {
      ByFirstDifference(y.s, x.s);
    }
  }

  lemma {:induction false} ComparePresIs(a: seq<PreRelease>, b: seq<PreRelease>)
    ensures ComparePres(a, b) > 0 <==> exists k: nat :: PresAboveAt(a, b, k)
    ensures ComparePres(a, b) == 0 <==> a == b
    decreases |a|
  {
    if |a| > 0 && |b| > 0 {
      ComparePreIs(a[0], b[0]);
      ComparePresIs(a[1..], b[1..]);
      assert a == [a[0]] + a[1..] && b == [b[0]] + b[1..];
      if k: nat :| PresAboveAt(a[1..], b[1..], k) {
        AboveBelow(a, b, k);
      }
      if k: nat :| PresAboveAt(a, b, k) {
        assert k > 0 ==> PresAboveAt(a[1..], b[1..], k - 1);
      }
    }
    if |a| > 0 && (|b| == 0 || PreAbove(a[0], b[0])) {
      assert PresAboveAt(a, b, 0);
    }
  }

  lemma AboveBelow(a: seq<PreRelease>, b: seq<PreRelease>, k: nat)
    requires |a| > 0 && |b| > 0 && PresAboveAt(a[1..], b[1..], k)
    ensures a[0] == b[0] ==> PresAboveAt(a, b, k + 1)
  {
    if a[0] == b[0] {
      forall i | 0 <= i < k + 1
        ensures a[i] == b[i]
      {
        assert i > 0 ==> a[i] == a[1..][i - 1] && b[i] == b[1..][i - 1];
      }
    }
  }

  /** The comparison follows the rules, and finds no difference exactly if there is none outside build metadata. */
  lemma CompareExactly(a: Version, b: Version)
    ensures Compare(a, b) > 0 <==> Above(a, b)
    ensures Compare(a, b) < 0 <==> Above(b, a)
    ensures Compare(a, b) == 0 <==> a.(build := b.build) == b
    ensures GTE(a, b) <==> a.(build := b.build) == b || Above(a, b)
  {
    ComparePresIs(a.pre, b.pre);
    ComparePresIs(b.pre, a.pre);
    ComparePresLaws(a.pre, b.pre, a.pre);
  }

  /** Precedence is a total preorder. */
  lemma CompareLaws(a: Version, b: Version, c: Version)
    ensures Compare(a, b) == -Compare(b, a)
    ensures GTE(a, b) && GTE(b, c) ==> GTE(a, c)
    ensures GTE(a, b) || GTE(b, a)
  {
    ComparePresLaws(a.pre, b.pre, c.pre);
  }
}
