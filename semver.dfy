/** The part of the version library the migration engine relies on: a parsed
    version that remembers its original label, a total order on versions,
    range matching on a list of versions, and the in-place stable sort and
    reverse the engine applies to that list. The label grammar itself is not
    modelled: callers hand the engine a parser (see module Migrations). */
module SemVer {

  /** The comparable part of a parsed version: major, minor and patch numbers. */
  datatype Core = Core(major: nat, minor: nat, patch: nat)

  /** A parsed version; `Text` is the label it was parsed from. */
  datatype Version = Version(Text: string, core: Core)

  /** Strict lexicographic order on (major, minor, patch). */
  predicate Less(a: Core, b: Core) {
    || a.major < b.major
    || (a.major == b.major && a.minor < b.minor)
    || (a.major == b.major && a.minor == b.minor && a.patch < b.patch)
  }

  predicate LessEq(a: Core, b: Core) {
    !Less(b, a)
  }

  /** `Less` is a strict total order on cores. */
  lemma LessIsStrictTotalOrder(a: Core, b: Core, c: Core)
    ensures !Less(a, a)
    ensures Less(a, b) ==> !Less(b, a)
    ensures Less(a, b) && Less(b, c) ==> Less(a, c)
    ensures a == b || Less(a, b) || Less(b, a)
  {
  }

  /** Versions in non-decreasing order. */
  predicate Ascending(s: seq<Version>) {
    forall i, j :: 0 <= i < j < |s| ==> LessEq(s[i].core, s[j].core)
  }

  /** Versions in non-increasing order. */
  predicate Descending(s: seq<Version>) {
    forall i, j :: 0 <= i < j < |s| ==> LessEq(s[j].core, s[i].core)
  }

  /** Range membership as the constraint `{Gt: gt, Lte: lte}` tests it:
      strictly above `gt`, at most `lte`. */
  predicate Within(c: Core, gt: Core, lte: Core) {
    Less(gt, c) && LessEq(c, lte)
  }

  /** The versions of `list` that satisfy `{Gt: gt, Lte: lte}`, in list order. */
  function Match(list: seq<Version>, gt: Core, lte: Core): (r: seq<Version>)
    ensures |r| <= |list|
  {
    if list == [] then []
    else (if Within(list[0].core, gt, lte) then [list[0]] else []) + Match(list[1..], gt, lte)
  }

  /** Matching keeps every occurrence of a version in the range and drops
      every occurrence of one outside it. */
  lemma {:induction false} MatchCounts(list: seq<Version>, gt: Core, lte: Core)
    ensures forall v :: multiset(Match(list, gt, lte))[v] == if Within(v.core, gt, lte) then multiset(list)[v] else 0
  {
    if list != [] {
      assert list == [list[0]] + list[1..];
      MatchCounts(list[1..], gt, lte);
    }
  }

  /** A sequence that starts with `x` is non-decreasing exactly when the rest
      is and no later version is below `x`. */
  lemma AscendingCons(x: Version, t: seq<Version>)
    ensures Ascending([x] + t) <==> Ascending(t) && forall v | v in t :: LessEq(x.core, v.core)
  {
    var s := [x] + t;
    if Ascending(s) {
      forall i, j | 0 <= i < j < |t| ensures LessEq(t[i].core, t[j].core) {
        assert t[i] == s[i + 1] && t[j] == s[j + 1];
      }
      forall v | v in t ensures LessEq(x.core, v.core) {
        var j :| 0 <= j < |t| && t[j] == v;
        assert s[0] == x && s[j + 1] == v;
        assert LessEq(s[0].core, s[j + 1].core);
      }
    }
    if Ascending(t) && forall v | v in t :: LessEq(x.core, v.core) {
      forall i, j | 0 <= i < j < |s| ensures LessEq(s[i].core, s[j].core) {
        assert s[j] == t[j - 1];
        if i > 0 { assert s[i] == t[i - 1]; } else { assert s[j] in t; }
      }
    }
  }

  /** A sequence that starts with `x` is non-increasing exactly when the rest
      is and no later version is above `x`. */
  lemma DescendingCons(x: Version, t: seq<Version>)
    ensures Descending([x] + t) <==> Descending(t) && forall v | v in t :: LessEq(v.core, x.core)
  {
    var s := [x] + t;
    if Descending(s) {
      forall i, j | 0 <= i < j < |t| ensures LessEq(t[j].core, t[i].core) {
        assert t[i] == s[i + 1] && t[j] == s[j + 1];
      }
      forall v | v in t ensures LessEq(v.core, x.core) {
        var j :| 0 <= j < |t| && t[j] == v;
        assert s[0] == x && s[j + 1] == v;
        assert LessEq(s[j + 1].core, s[0].core);
      }
    }
    if Descending(t) && forall v | v in t :: LessEq(v.core, x.core) {
      forall i, j | 0 <= i < j < |s| ensures LessEq(s[j].core, s[i].core) {
        assert s[j] == t[j - 1];
        if i > 0 { assert s[i] == t[i - 1]; } else { assert s[j] in t; }
      }
    }
  }

  /** Matching keeps the list's order: it keeps non-decreasing and
      non-increasing lists so. */
  lemma {:induction false} MatchKeepsOrder(list: seq<Version>, gt: Core, lte: Core)
    ensures Ascending(list) ==> Ascending(Match(list, gt, lte))
    ensures Descending(list) ==> Descending(Match(list, gt, lte))
  {
    if list != [] {
      var x, t := list[0], list[1..];
      assert list == [x] + t;
      var rest := Match(t, gt, lte);
      MatchKeepsOrder(t, gt, lte);
      AscendingCons(x, t);
      AscendingCons(x, rest);
      DescendingCons(x, t);
      DescendingCons(x, rest);
      MatchCounts(t, gt, lte);
      forall v | v in rest ensures v in t {
        assert v in multiset(rest);
      }
    }
  }

  /** `s` read back to front. */
  function Reversed(s: seq<Version>): (r: seq<Version>)
    ensures |r| == |s|
  {
    seq(|s|, i requires 0 <= i < |s| => s[|s| - 1 - i])
  }

  /** Reversing keeps the same versions. */
  lemma {:induction false} ReversedIsPermutation(s: seq<Version>)
    ensures multiset(Reversed(s)) == multiset(s)
  {
    if s != [] {
      var t := s[1..];
      assert s == [s[0]] + t;
      assert Reversed(s) == Reversed(t) + [s[0]];
      ReversedIsPermutation(t);
    }
  }

  /** Reversing turns non-decreasing order into non-increasing order and
      back, and undoes itself. */
  lemma ReversedFlipsOrder(s: seq<Version>)
    ensures Ascending(s) ==> Descending(Reversed(s))
    ensures Descending(s) ==> Ascending(Reversed(s))
    ensures Reversed(Reversed(s)) == s
  {
  }

  /** Stable insertion sort by version order, in place (the library's
      `sort.Stable` on a version list). Equal versions are never swapped. */
  method SortStable(a: array<Version>)
    modifies a
    ensures Ascending(a[..])
    ensures multiset(a[..]) == old(multiset(a[..]))
  {
    var i := 0;
    while i < a.Length
      invariant 0 <= i <= a.Length
      invariant forall p, q :: 0 <= p < q < i ==> LessEq(a[p].core, a[q].core)
      invariant multiset(a[..]) == old(multiset(a[..]))
    {
      var j := i;
      while 0 < j && Less(a[j].core, a[j - 1].core)
        invariant 0 <= j <= i
        invariant forall p, q :: 0 <= p < q <= i && p != j && q != j ==> LessEq(a[p].core, a[q].core)
        invariant forall q :: j < q <= i ==> Less(a[j].core, a[q].core)
        invariant multiset(a[..]) == old(multiset(a[..]))
      {
        a[j - 1], a[j] := a[j], a[j - 1];
        j := j - 1;
      }
      i := i + 1;
    }
  }

  /** Reverses `a` in place (`slices.Reverse`). */
  method Reverse(a: array<Version>)
    modifies a
    ensures a[..] == Reversed(old(a[..]))
  {
    var lo, hi := 0, a.Length;
    while lo + 1 < hi
      invariant 0 <= lo && hi <= a.Length && lo + hi == a.Length
      invariant lo <= hi
      invariant forall k :: 0 <= k < lo || hi <= k < a.Length ==> a[k] == old(a[a.Length - 1 - k])
      invariant forall k :: lo <= k < hi ==> a[k] == old(a[k])
    {
      a[lo], a[hi - 1] := a[hi - 1], a[lo];
      lo, hi := lo + 1, hi - 1;
    }
  }
}
