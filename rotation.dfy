/** A rotation cursor: a position in an ordered list that advances cyclically,
    and the `indexOf` lookups that seed it. */
module Rotation {

  import opened Common

  /** `Array.prototype.indexOf`: the first position of `x`, or -1. */
  function IndexOf<T(==)>(s: seq<T>, x: T): (r: int)
    ensures -1 <= r < |s|
    ensures r == -1 <==> x !in s
    ensures 0 <= r ==> s[r] == x && forall j :: 0 <= j < r ==> s[j] != x
  {
    if |s| == 0 then -1
    else if s[0] == x then 0
    else
      var i := IndexOf(s[1..], x);
      if i == -1 then -1 else i + 1
  }

  /** `staffList.indexOf(name) > -1 ? staffList.indexOf(name) : 0`: a seed
      name resolves to its position, and an unknown one to the start. */
  function StartIndex(staff: seq<string>, name: string): (r: nat)
    ensures |staff| > 0 ==> r < |staff|
    ensures name in staff ==> staff[r] == name
    ensures name !in staff ==> r == 0
  {
    var i := IndexOf(staff, name);
    if i > -1 then i else 0
  }

  /** One step of a cursor round a list of `n`; `AdvanceIsMod` shows it is
      JavaScript's `(c + 1) % n`. */
  function Advance(c: int, n: int): (r: int)
    requires 0 <= c < n
    ensures 0 <= r < n
  {
    if c + 1 < n then c + 1 else 0
  }

  lemma AdvanceIsMod(c: int, n: int)
    requires 0 <= c < n
    ensures Advance(c, n) == (c + 1) % n
  {
    if c + 1 < n {
      ModUnique(c + 1, n, 0, c + 1);
    } else {
      ModUnique(c + 1, n, 1, 0);
    }
  }

  /** The cursor after `k` advances from `c`. */
  function AdvanceTimes(c: int, k: nat, n: int): (r: int)
    requires 0 <= c < n
    ensures 0 <= r < n
  {
    if k == 0 then c else Advance(AdvanceTimes(c, k - 1, n), n)
  }

  /** `k` advances move an in-range cursor `k` places round the circle. */
  lemma {:induction false} AdvanceTimesIsOffset(c: int, k: nat, n: int)
    requires n > 0 && 0 <= c < n
    ensures AdvanceTimes(c, k, n) == (c + k) % n
  {
    if k == 0 {
      assert c % n == c by { ModUnique(c, n, 0, c); }
    } else {
      AdvanceTimesIsOffset(c, k - 1, n);
      AdvanceIsMod(AdvanceTimes(c, k - 1, n), n);
      ModSucc(c + k - 1, n, AdvanceTimes(c, k - 1, n));
    }
  }

  /** Cyclic closure: advancing a cursor once per staff member brings it back. */
  lemma CyclicClosure(c: int, n: int)
    requires n > 0 && 0 <= c < n
    ensures AdvanceTimes(c, n, n) == c
  {
    AdvanceTimesIsOffset(c, n, n);
    ModUnique(c + n, n, 1, c);
  }

  /** Advancing `n` more times comes back to the same position. */
  lemma AdvanceTimesPeriodic(c: int, k: nat, n: int)
    requires n > 0 && 0 <= c < n
    ensures AdvanceTimes(c, k + n, n) == AdvanceTimes(c, k, n)
  {
    AdvanceTimesIsOffset(c, k, n);
    AdvanceTimesIsOffset(c, k + n, n);
    ModAddMultiple(c + k, 1, n);
  }

  /** Fewer than `n` advances never revisit a position. */
  lemma NoRevisitWithinCycle(c: int, i: nat, j: nat, n: int)
    requires n > 0 && 0 <= c < n && i < j < i + n
    ensures AdvanceTimes(c, i, n) != AdvanceTimes(c, j, n)
  {
    AdvanceTimesIsOffset(c, i, n);
    AdvanceTimesIsOffset(c, j, n);
    ModDistinct(c + i, c + j, n);
  }

  /** Within any `n` consecutive advances every position is reached. */
  lemma EveryoneWithinCycle(c: int, t0: nat, n: int, j: int)
    requires n > 0 && 0 <= c < n && 0 <= j < n
    ensures exists t: nat :: t0 <= t < t0 + n && AdvanceTimes(c, t, n) == j
  {
    var q, r := (j - c - t0) / n, (j - c - t0) % n;
    var t: nat := t0 + r;
    AdvanceTimesIsOffset(c, t, n);
    assert c + t == j + (-q) * n;
    ModAddMultiple(j, -q, n);
    ModUnique(j, n, 0, j);
  }

  /** In a list without repetitions, the person `t + 1` advances from `s`
      is the list successor of the person `t` advances from `s`. */
  lemma NextAfter<T>(s: seq<T>, c: int, t: nat)
    requires Distinct(s) && 0 <= c < |s|
    ensures s[AdvanceTimes(c, t, |s|)] in s
    ensures s[AdvanceTimes(c, t + 1, |s|)] == s[Advance(IndexOf(s, s[AdvanceTimes(c, t, |s|)]), |s|)]
  {
    IndexOfDistinct(s, AdvanceTimes(c, t, |s|));
  }

  predicate Distinct<T(==)>(s: seq<T>)
  {
    forall i, j :: 0 <= i < j < |s| ==> s[i] != s[j]
  }

  /** In a list without repetitions every member is found at its own place. */
  lemma IndexOfDistinct<T>(s: seq<T>, i: int)
    requires Distinct(s) && 0 <= i < |s|
    ensures IndexOf(s, s[i]) == i
  {
  }

  /** The first occurrence is where `IndexOf` finds it. */
  lemma IndexOfFirst<T>(s: seq<T>, i: int, x: T)
    requires 0 <= i < |s| && s[i] == x && forall j :: 0 <= j < i ==> s[j] != x
    ensures IndexOf(s, x) == i
  {
  }
}
