/**
 * A user's persistent favorite list (`user_data["favorite_flavors"]`,
 * `user_data["favorite_shops"]`). It is an object because the source hands the
 * same list to the daily-updates job: later additions are seen by the job.
 */
module Favorites {

  import opened Seqs

  class FavoriteList<T(==, !new)> {
    var items: seq<T>

    constructor ()
      ensures items == []
    {
      items := [];
    }

    /** `if x not in favorites: favorites.append(x)`; tells whether it was appended. */
    method Add(x: T) returns (added: bool)
      modifies this
      ensures added <==> x !in old(items)
      ensures items == Accumulate(old(items), x)
    {
      added := x !in items;
      if added {
        items := items + [x];
      }
    }

    /**
     * `for x in selection: if x not in favorites: favorites.append(x)`; returns
     * how many elements were appended (`added_count`).
     */
    method AddAll(selection: seq<T>) returns (added: nat)
      modifies this
      ensures items == MergeNew(old(items), selection)
      ensures added == |items| - |old(items)|
    {
      added := 0;
      var i := 0;
      while i < |selection|
        invariant 0 <= i <= |selection|
        invariant items == MergeNew(old(items), selection[..i])
        invariant added == |items| - |old(items)|
      {
        assert selection[..i + 1][..i] == selection[..i];
        if selection[i] !in items {
          items := items + [selection[i]];
          added := added + 1;
        }
        i := i + 1;
      }
      assert selection[..i] == selection;
    }
  }
}
