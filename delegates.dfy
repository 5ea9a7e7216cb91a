/**
 * The invocation list of a C# multicast delegate, as the signals use it.
 * `d += h` appends `h`; `d -= h` deletes the LAST occurrence of `h` and leaves
 * a list without `h` unchanged. A list that becomes empty is the null delegate.
 */
module Delegates {
  import opened Common

  /** `d += h`. */
  function Combine<T>(d: seq<T>, h: T): seq<T>
  {
    d + [h]
  }

  /** Position of the last occurrence of `h` in `d`, the one `-=` deletes. */
  function LastIndexOf<T(==)>(d: seq<T>, h: T): (r: Option<nat>)
    ensures r.None? <==> h !in d
    ensures r.Some? ==> r.value < |d| && d[r.value] == h
    ensures r.Some? ==> forall j :: r.value < j < |d| ==> d[j] != h
    decreases |d|
  {
    if d == [] then None
    else if d[|d| - 1] == h then Some(|d| - 1)
    else
      assert d == d[..|d| - 1] + [d[|d| - 1]];
      LastIndexOf(d[..|d| - 1], h)
  }

  /** `d -= h`. */
  function Remove<T(==)>(d: seq<T>, h: T): (r: seq<T>)
    ensures h !in d ==> r == d
    ensures h in d ==> |r| == |d| - 1
  {
    match LastIndexOf(d, h)
    case None => d
    case Some(i) =>
      assert d == d[..i] + [d[i]] + d[i + 1..];
      d[..i] + d[i + 1..]
  }

  /** `d -= h` takes exactly one `h` out of `d` when there is one, and nothing else. */
  lemma RemoveCount<T>(d: seq<T>, h: T)
    ensures multiset(Remove(d, h)) == multiset(d) - multiset{h}
  {
    match LastIndexOf(d, h)
    case None =>
    case Some(i) =>
      assert d == d[..i] + [d[i]] + d[i + 1..];
  }

  /** `d -= h` cuts out the position `LastIndexOf` names. */
  lemma RemoveAt<T>(d: seq<T>, h: T, i: nat)
    requires LastIndexOf(d, h) == Some(i)
    ensures Remove(d, h) == d[..i] + d[i + 1..]
  {
  }

  /** Every element after the removed one moves one place to the left; the ones before stay. */
  lemma RemoveKeepsOrder<T>(d: seq<T>, h: T, i: nat)
    requires i < |d| && d[i] == h
    requires forall j :: i < j < |d| ==> d[j] != h
    ensures Remove(d, h) == d[..i] + d[i + 1..]
  {
    var k := LastIndexOf(d, h);
    assert h in d;
    assert k.Some? && k.value == i;
  }

  /** `(d += h) -= h` gives back `d`. */
  lemma RemoveUndoesCombine<T>(d: seq<T>, h: T)
    ensures Remove(Combine(d, h), h) == d
  {
    RemoveKeepsOrder(d + [h], h, |d|);
    assert (d + [h])[..|d|] == d;
  }

  /** The last `h` of `d + t` is the last `h` of `t`, shifted past `d`, whenever `t` holds one. */
  lemma {:induction false} LastIndexOfSuffix<T>(d: seq<T>, t: seq<T>, h: T)
    requires h in t
    ensures LastIndexOf(d + t, h) == Some(|d| + LastIndexOf(t, h).value)
    decreases |t|
  {
    var n := |t| - 1;
    if t[n] != h {
      assert (d + t)[..|d + t| - 1] == d + t[..n];
      assert t == t[..n] + [t[n]];
      LastIndexOfSuffix(d, t[..n], h);
    }
  }

  /** Cutting position `|d| + k` out of `d + t` is cutting position `k` out of `t`. */
  lemma CutInSuffix<T>(d: seq<T>, t: seq<T>, k: nat)
    requires k < |t|
    ensures (d + t)[..|d| + k] + (d + t)[|d| + k + 1..] == d + (t[..k] + t[k + 1..])
  {
    assert (d + t)[..|d| + k] == d + t[..k];
    assert (d + t)[|d| + k + 1..] == t[k + 1..];
  }

  /** When `h` occurs in `t`, removing it from `d + t` leaves the prefix `d` alone. */
  lemma RemoveInSuffix<T>(d: seq<T>, t: seq<T>, h: T)
    requires h in t
    ensures Remove(d + t, h) == d + Remove(t, h)
  {
    var i := LastIndexOf(t, h).value;
    LastIndexOfSuffix(d, t, h);
    RemoveAt(t, h, i);
    RemoveAt(d + t, h, |d| + i);
    CutInSuffix(d, t, i);
  }

  /** Applies `-= hs[0]`, `-= hs[1]`, ... in order. */
  function RemoveAll<T(==)>(d: seq<T>, hs: seq<T>): (r: seq<T>)
    ensures |d| - |hs| <= |r| <= |d|
    decreases |hs|
  {
    if hs == [] then d else RemoveAll(Remove(d, hs[0]), hs[1..])
  }

  /**
   * A run of `-=` takes exactly `hs` out of `d`, as multisets; a handler that is
   * no longer present is skipped, as the multiset difference skips it.
   */
  lemma {:induction false} RemoveAllCount<T>(d: seq<T>, hs: seq<T>)
    ensures multiset(RemoveAll(d, hs)) == multiset(d) - multiset(hs)
    decreases |hs|
  {
    if hs != [] {
      assert hs == [hs[0]] + hs[1..];
      RemoveCount(d, hs[0]);
      RemoveAllCount(Remove(d, hs[0]), hs[1..]);
    }
  }

  /**
   * Removing, in any order, exactly the handlers that were appended undoes the
   * appending: the handlers already in `d` are never the ones removed.
   */
  lemma {:induction false} RemoveAllUndoesAppend<T>(d: seq<T>, t: seq<T>, hs: seq<T>)
    requires multiset(t) == multiset(hs)
    ensures RemoveAll(d + t, hs) == d
    decreases |hs|
  {
    if hs == [] {
      assert |t| == |multiset(t)| == 0;
      assert d + t == d;
    } else {
      var h := hs[0];
      assert hs == [h] + hs[1..];
      assert h in multiset(t);
      RemoveInSuffix(d, t, h);
      RemoveCount(t, h);
      RemoveAllUndoesAppend(d, Remove(t, h), hs[1..]);
    }
  }
}
