/**
 * The `ttl_cache` decorator (bot/utils.py): results of a wrapped function are
 * memoised under the key (arguments, time bucket), where the bucket is the
 * current time divided by `max_age`, in a least-recently-used table of at most
 * `maxsize` entries. Time is whole seconds.
 */
module TtlCache {

  import opened Seqs

  /** `int(time.time() / max_age)`: the index of the `max_age`-wide window containing `t`. */
  function Bucket(t: nat, maxAge: nat): (k: nat)
    requires maxAge > 0
    ensures k * maxAge <= t < (k + 1) * maxAge
  {
    t / maxAge
  }

  /** Every time in the window [k * maxAge, (k + 1) * maxAge) falls in bucket k. */
  lemma BucketOfWindow(t: nat, maxAge: nat, k: nat)
    requires maxAge > 0 && k * maxAge <= t < (k + 1) * maxAge
    ensures Bucket(t, maxAge) == k
  {
    var b := Bucket(t, maxAge);
    if b < k {
      MulMonotone(b + 1, k, maxAge);
    } else if k < b {
      MulMonotone(k + 1, b, maxAge);
    }
  }

  lemma MulMonotone(x: nat, y: nat, m: nat)
    requires x <= y
    ensures x * m <= y * m
  {
  }

  /** A later time never falls in an earlier bucket. */
  lemma BucketMonotone(t1: nat, t2: nat, maxAge: nat)
    requires maxAge > 0 && t1 <= t2
    ensures Bucket(t1, maxAge) <= Bucket(t2, maxAge)
  {
    var b1, b2 := Bucket(t1, maxAge), Bucket(t2, maxAge);
    if b2 < b1 {
      MulMonotone(b2 + 1, b1, maxAge);
    }
  }

  /** What one call of the wrapped function did: returned a value or raised. */
  datatype Outcome<V> = Returned(value: V) | Raised

  /** The key `lru_cache` sees: the caller's arguments plus the time bucket. */
  datatype Key<A> = Key(args: A, bucket: nat)

  /** `order` with its `i`-th key moved to the most-recently-used end. */
  function Touch<A>(order: seq<Key<A>>, i: nat): (r: seq<Key<A>>)
    requires i < |order|
  {
    order[..i] + order[i + 1..] + [order[i]]
  }

  /** The wrapped function together with its memo table. */
  class Cache<A(==, !new), V(!new)> {
    const maxAge: nat
    const maxSize: nat
    /** The `lru_cache` table. */
    var table: map<Key<A>, V>
    /** The table's keys, least recently used first. */
    var order: seq<Key<A>>
    /** Every value the wrapped function returned, with the key of the call. */
    ghost var produced: set<(Key<A>, V)>

    ghost predicate Valid()
      reads this
    {
      && maxAge > 0
      && |table| <= maxSize
      && NoDups(order)
      && (forall k :: k in order <==> k in table)
      && (forall k :: k in table ==> (k, table[k]) in produced)
    }

    /** `ttl_cache(max_age, maxsize)` applied to a function (the source defaults `maxsize` to 128): an empty table. */
    constructor (maxAge: nat, maxSize: nat)
      requires maxAge > 0
      ensures Valid() && this.maxAge == maxAge && this.maxSize == maxSize
      ensures table == map[] && order == [] && produced == {}
    {
      this.maxAge := maxAge;
      this.maxSize := maxSize;
      table := map[];
      order := [];
      produced := {};
    }

    /**
     * One call of the decorated function at time `now`. `result` is what the
     * wrapped function does if it is invoked now; `invoked` tells whether it was.
     * A hit returns the stored value and marks its key most recently used. A
     * miss invokes the function; a raise propagates and stores nothing; a value
     * is stored, evicting the least recently used key when the table is full
     * (and never stored when `maxSize` is 0).
     */
    method Call(args: A, now: nat, result: Outcome<V>) returns (r: Outcome<V>, invoked: bool)
      requires Valid()
      modifies this
      ensures Valid()
      ensures var key := Key(args, Bucket(now, maxAge));
              && (key in old(table) ==>
                    && !invoked && r == Returned(old(table)[key])
                    && table == old(table) && produced == old(produced)
                    && exists i :: 0 <= i < |old(order)| && old(order)[i] == key && order == Touch(old(order), i))
              && (key !in old(table) ==> invoked && r == result)
              && (key !in old(table) && result.Raised? ==>
                    table == old(table) && order == old(order) && produced == old(produced))
              && (key !in old(table) && result.Returned? ==>
                    produced == old(produced) + {(key, result.value)})
              && (key !in old(table) && result.Returned? && maxSize == 0 ==>
                    table == old(table) && order == old(order))
              && (key !in old(table) && result.Returned? && 0 < maxSize && |old(table)| < maxSize ==>
                    table == old(table)[key := result.value] && order == old(order) + [key])
              && (key !in old(table) && result.Returned? && 0 < maxSize && |old(table)| == maxSize ==>
                    old(order) != []
                    && table == (old(table) - {old(order)[0]})[key := result.value]
                    && order == old(order)[1..] + [key])
      ensures r.Returned? ==> (Key(args, Bucket(now, maxAge)), r.value) in produced
    {
      var key := Key(args, Bucket(now, maxAge));
      if key in table {
        var i :| 0 <= i < |order| && order[i] == key;
        r, invoked := Returned(table[key]), false;
        TouchKeeps(order, i);
        order := Touch(order, i);
      } else {
        r, invoked := result, true;
        if result.Returned? {
          Remember(key, result.value);
        }
      }
    }

    /** Stores a value the wrapped function returned on a miss. */
    method Remember(key: Key<A>, value: V)
      requires Valid() && key !in table
      modifies this
      ensures Valid()
      ensures produced == old(produced) + {(key, value)}
      ensures maxSize == 0 ==> table == old(table) && order == old(order)
      ensures 0 < maxSize && |old(table)| < maxSize ==>
                table == old(table)[key := value] && order == old(order) + [key]
      ensures 0 < maxSize && |old(table)| == maxSize ==>
                && old(order) != []
                && table == (old(table) - {old(order)[0]})[key := value]
                && order == old(order)[1..] + [key]
    {
      produced := produced + {(key, value)};
      if 0 < maxSize {
        if |table| < maxSize {
          table := table[key := value];
          order := order + [key];
        } else {
          assert order != [] by {
            assert table != map[];
            var k :| k in table;
            assert k in order;
          }
          var lru := order[0];
          assert lru in table;
          DropFirstKeeps(order);
          table := (table - {lru})[key := value];
          order := order[1..] + [key];
        }
      }
    }
  }

  lemma TouchKeeps<A>(order: seq<Key<A>>, i: nat)
    requires i < |order| && NoDups(order)
    ensures NoDups(Touch(order, i))
    ensures forall k :: k in Touch(order, i) <==> k in order
  {
    var r := Touch(order, i);
    assert |r| == |order|;
    forall a, b | 0 <= a < b < |r| ensures r[a] != r[b] {
      var ia := if a < i then a else if a < |order| - 1 then a + 1 else i;
      var ib := if b < i then b else if b < |order| - 1 then b + 1 else i;
      assert r[a] == order[ia] && r[b] == order[ib];
    }
    forall k | k in order ensures k in r {
      var j :| 0 <= j < |order| && order[j] == k;
      if j < i { assert r[j] == k; }
      else if j == i { assert r[|r| - 1] == k; }
      else { assert r[j - 1] == k; }
    }
  }

  lemma DropFirstKeeps<A>(order: seq<Key<A>>)
    requires order != [] && NoDups(order)
    ensures NoDups(order[1..]) && order[0] !in order[1..]
    ensures forall k :: k in order <==> k == order[0] || k in order[1..]
  {
    assert order == [order[0]] + order[1..];
  }

  /**
   * Two calls with the same arguments in the same bucket: when the first
   * returned a value and the table keeps entries at all, the second finds it
   * and returns the same value without invoking the wrapped function.
   */
  method RepeatedCall<A(==, !new), V(!new)>(c: Cache<A, V>, args: A, t1: nat, t2: nat, first: Outcome<V>, second: Outcome<V>)
    returns (r1: Outcome<V>, r2: Outcome<V>, invoked2: bool)
    requires c.Valid() && Bucket(t1, c.maxAge) == Bucket(t2, c.maxAge)
    modifies c
    ensures c.Valid()
    ensures r1.Returned? && c.maxSize > 0 ==> r2 == r1 && !invoked2
  {
    var invoked1;
    r1, invoked1 := c.Call(args, t1, first);
    r2, invoked2 := c.Call(args, t2, second);
  }

  /**
   * Two calls with the same arguments in different buckets, the second key not
   * stored yet: the first call cannot store the second's key, so the second
   * call invokes the wrapped function again and returns what it does.
   */
  method NewBucketCall<A(==, !new), V(!new)>(c: Cache<A, V>, args: A, t1: nat, t2: nat, first: Outcome<V>, second: Outcome<V>)
    returns (r1: Outcome<V>, r2: Outcome<V>, invoked2: bool)
    requires c.Valid() && Bucket(t1, c.maxAge) != Bucket(t2, c.maxAge)
    requires Key(args, Bucket(t2, c.maxAge)) !in c.table
    modifies c
    ensures c.Valid()
    ensures invoked2 && r2 == second
  {
    var invoked1;
    r1, invoked1 := c.Call(args, t1, first);
    r2, invoked2 := c.Call(args, t2, second);
  }
}
