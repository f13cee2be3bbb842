/**
 * Operations on Python lists that the bot performs over and over: filtering by a
 * predicate, appending an element only when it is absent, and building a
 * dictionary from a list with a key function.
 */
module Seqs {

  import opened Wrappers

  /** No element occurs twice. */
  ghost predicate NoDups<T>(s: seq<T>) {
    forall i, j :: 0 <= i < j < |s| ==> s[i] != s[j]
  }

  /** `a` is a prefix of `b`. */
  ghost predicate IsPrefix<T>(a: seq<T>, b: seq<T>) {
    |a| <= |b| && b[..|a|] == a
  }

  /** Concatenation is associative. */
  lemma AppendAssoc<T>(a: seq<T>, b: seq<T>, c: seq<T>)
    ensures (a + b) + c == a + (b + c)
  {
  }

  /**
   * `if x not in xs: xs.append(x)` -- the idempotent multi-select step the
   * dialogue uses for flavors, shops and weekdays.
   */
  function Accumulate<T(==, !new)>(xs: seq<T>, x: T): (r: seq<T>)
    ensures x in r
    ensures forall y :: y in r <==> y in xs || y == x
    ensures IsPrefix(xs, r) && |r| <= |xs| + 1
    ensures NoDups(xs) ==> NoDups(r)
  {
    if x in xs then xs else xs + [x]
  }

  /** Selecting the same item twice gives the same selection as selecting it once. */
  lemma AccumulateIdempotent<T(!new)>(xs: seq<T>, x: T)
    ensures Accumulate(Accumulate(xs, x), x) == Accumulate(xs, x)
  {
  }

  /**
   * `for x in sel: if x not in favs: favs.append(x)` -- the commit of a
   * selection into a favorite list.
   */
  function MergeNew<T(==, !new)>(favs: seq<T>, sel: seq<T>): (r: seq<T>)
    ensures forall y :: y in r <==> y in favs || y in sel
    ensures IsPrefix(favs, r) && |r| <= |favs| + |sel|
    ensures NoDups(favs) ==> NoDups(r)
    decreases |sel|
  {
    if sel == [] then favs
    else
      var init := sel[..|sel| - 1];
      assert sel == init + [sel[|sel| - 1]];
      Accumulate(MergeNew(favs, init), sel[|sel| - 1])
  }

  /** Committing a selection twice adds nothing the second time. */
  lemma {:induction false} MergeNewIdempotent<T(!new)>(favs: seq<T>, sel: seq<T>)
    ensures MergeNew(MergeNew(favs, sel), sel) == MergeNew(favs, sel)
  {
    var m := MergeNew(favs, sel);
    MergeNewAbsorbs(m, sel);
  }

  /** Merging only elements already present changes nothing. */
  lemma {:induction false} MergeNewAbsorbs<T(!new)>(favs: seq<T>, sel: seq<T>)
    requires forall y :: y in sel ==> y in favs
    ensures MergeNew(favs, sel) == favs
    decreases |sel|
  {
    if sel != [] {
      var init := sel[..|sel| - 1];
      forall y | y in init ensures y in favs {
        assert y in sel;
      }
      MergeNewAbsorbs(favs, init);
      assert sel[|sel| - 1] in sel;
    }
  }

  /** The elements of `s` satisfying `p`, in their original order (a list comprehension). */
  function Filter<T(!new)>(s: seq<T>, p: T -> bool): (r: seq<T>)
    ensures |r| <= |s|
    ensures forall x :: x in r <==> x in s && p(x)
    decreases |s|
  {
    if s == [] then []
    else
      var init := s[..|s| - 1];
      assert s == init + [s[|s| - 1]];
      var rest := Filter(init, p);
      if p(s[|s| - 1]) then rest + [s[|s| - 1]] else rest
  }

  /** Filtering distributes over concatenation, so the filter keeps the order of `s`. */
  lemma {:induction false} FilterAppend<T(!new)>(a: seq<T>, b: seq<T>, p: T -> bool)
    ensures Filter(a + b, p) == Filter(a, p) + Filter(b, p)
    decreases |b|
  {
    if b != [] {
      var init := b[..|b| - 1];
      assert (a + b)[..|a + b| - 1] == a + init;
      FilterAppend(a, init, p);
    } else {
      assert a + b == a;
    }
  }

  /** Nothing passes the filter when no element satisfies the predicate. */
  lemma {:induction false} FilterNone<T(!new)>(s: seq<T>, p: T -> bool)
    requires forall x :: x in s ==> !p(x)
    ensures Filter(s, p) == []
    decreases |s|
  {
    if s != [] {
      assert s[|s| - 1] in s;
      FilterNone(s[..|s| - 1], p);
    }
  }

  /** `s[i]` is the last element of `s` with its key. */
  ghost predicate LastWithKey<K, V>(s: seq<V>, key: V -> K, i: int) {
    0 <= i < |s| && forall j :: i < j < |s| ==> key(s[j]) != key(s[i])
  }

  /** `{key(x): x for x in s}`: every key of `s` maps to an element with that key. */
  function IndexBy<K, V>(s: seq<V>, key: V -> K): (m: map<K, V>)
    ensures m.Keys == set x | x in s :: key(x)
    ensures forall k :: k in m ==> m[k] in s && key(m[k]) == k
    decreases |s|
  {
    if s == [] then map[]
    else
      var init, last := s[..|s| - 1], s[|s| - 1];
      assert s == init + [last];
      IndexBy(init, key)[key(last) := last]
  }

  /** On a key clash the later element wins: the last element with each key is the one it maps to. */
  lemma {:induction false} IndexByLastWins<K, V>(s: seq<V>, key: V -> K)
    ensures forall i :: LastWithKey(s, key, i) ==> IndexBy(s, key)[key(s[i])] == s[i]
    decreases |s|
  {
    if s != [] {
      var init, last := s[..|s| - 1], s[|s| - 1];
      assert s == init + [last];
      IndexByLastWins(init, key);
      forall i | LastWithKey(s, key, i) && i < |init| ensures LastWithKey(init, key, i) {
        forall j | i < j < |init| ensures key(init[j]) != key(init[i]) {
          assert init[j] == s[j] && init[i] == s[i];
        }
      }
    }
  }

  /** Python's `s.index(x)`: the first position of `x`, or `None` where Python raises. */
  function IndexOf<T(==)>(s: seq<T>, x: T): (r: Option<nat>)
    ensures r.None? <==> x !in s
    ensures r.Some? ==> r.value < |s| && s[r.value] == x && x !in s[..r.value]
    decreases |s|
  {
    if s == [] then None
    else if s[0] == x then Some(0)
    else
      match IndexOf(s[1..], x)
      case None => None
      case Some(i) =>
        assert s[..i + 1] == [s[0]] + s[1..][..i];
        Some(i + 1)
  }
}
