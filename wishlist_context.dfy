/** The saved-products list kept by `WishlistProvider`, toggled one product id at
    a time. The list is typed as ids, but the load at sign-in stores the rows the
    server answers with (`GET /api/wishlist` returns one object per saved product),
    so the list holds two kinds of entry: ids appended by a toggle and rows loaded
    from the server. `includes` and `!==` compare a row with an id by identity, so a
    row never matches any id. The signed-in user, the outcome of each server call
    and the rows the server returns are inputs. */
module WishlistContext {
  import opened Js

  /** A row of `GET /api/wishlist`: the saved product's id and the product columns
      joined to it. */
  datatype SavedRow = SavedRow(product_id: string, name: string, price: int, images: seq<string>, category: string)

  /** An element of `wishlistIds`. */
  datatype Entry = Id(id: string) | Row(row: SavedRow)

  /** `wishlistIds.includes(productId)`: a scan from the front; only an id entry
      can be strictly equal to a string. */
  function Includes(ids: seq<Entry>, productId: string): (b: bool)
    ensures b <==> Id(productId) in ids
  {
    if |ids| == 0 then false
    else ids[0] == Id(productId) || Includes(ids[1..], productId)
  }

  /** `prev.filter((id) => id !== productId)`: every row entry is kept. */
  function Without(ids: seq<Entry>, productId: string): (r: seq<Entry>)
    ensures |r| <= |ids|
  {
    if |ids| == 0 then []
    else if ids[0] == Id(productId) then Without(ids[1..], productId)
    else [ids[0]] + Without(ids[1..], productId)
  }

  /** The list after a successful toggle: a saved id is filtered out, any other
      id is appended. */
  function Toggled(ids: seq<Entry>, productId: string): seq<Entry> {
    if Includes(ids, productId) then Without(ids, productId) else ids + [Id(productId)]
  }

  /** What `setWishlistIds(data)` stores after a load: the rows as they came. */
  function Loaded(rows: seq<SavedRow>): (r: seq<Entry>)
    ensures |r| == |rows|
    ensures forall i :: 0 <= i < |r| ==> r[i] == Row(rows[i])
  {
    if |rows| == 0 then [] else [Row(rows[0])] + Loaded(rows[1..])
  }

  class Wishlist {
    var ids: seq<Entry>
    var signedIn: bool
    var loading: bool

    constructor ()
      ensures ids == [] && !signedIn && !loading
    {
      ids := [];
      signedIn := false;
      loading := false;
    }

    predicate IsInWishlist(productId: string)
      reads this
    {
      Includes(ids, productId)
    }

    /** The effect run when the user changes: a sign-in stores the rows the
        server answers with (`data` is `None` when the request fails, keeping the
        list), a sign-out empties the list. After a load no product is found in
        the list, saved or not. */
    method UserChanged(user: bool, data: Option<seq<SavedRow>>)
      modifies this
      ensures signedIn == user
      ensures !user ==> ids == [] && loading == old(loading)
      ensures user ==> !loading && ids == (if data.Some? then Loaded(data.value) else old(ids))
      ensures user && data.Some? ==> forall p :: !IsInWishlist(p)
    {
      signedIn := user;
      if !user {
        ids := [];
        return;
      }
      loading := true;
      if data.Some? {
        ids := Loaded(data.value);
        LoadedMatchesNoId(data.value);
      }
      loading := false;
    }

    /** `toggleWishlist`; `ok` says whether the server call succeeded. */
    method Toggle(productId: string, ok: bool)
      modifies this
      ensures signedIn == old(signedIn) && loading == old(loading)
      ensures ids == if signedIn && ok then Toggled(old(ids), productId) else old(ids)
    {
      if !signedIn {
        return;
      }
      if IsInWishlist(productId) {
        if ok {
          ids := Without(ids, productId);
        }
      } else {
        if ok {
          ids := ids + [Id(productId)];
        }
      }
    }
  }

  /** A loaded list holds no id entry, so `includes` is false for every product,
      even one the server has saved. */
  lemma LoadedMatchesNoId(rows: seq<SavedRow>)
    ensures forall p :: !Includes(Loaded(rows), p)
  {
  }

  /** Toggling a product that the server has saved, right after the load, takes
      the add branch: the product's row stays and its id is appended after it. */
  lemma ToggleSavedAfterLoadAppends(rows: seq<SavedRow>, i: int)
    requires 0 <= i < |rows|
    ensures var r := Toggled(Loaded(rows), rows[i].product_id);
      r == Loaded(rows) + [Id(rows[i].product_id)] && Row(rows[i]) in r
  {
    LoadedMatchesNoId(rows);
    assert Loaded(rows)[i] == Row(rows[i]);
  }

  /** The filter keeps exactly the other entries. */
  lemma {:induction false} WithoutMembers(ids: seq<Entry>, productId: string)
    ensures forall x :: x in Without(ids, productId) <==> x in ids && x != Id(productId)
  {
    if |ids| > 0 {
      WithoutMembers(ids[1..], productId);
      assert forall x :: x in ids <==> x == ids[0] || x in ids[1..];
    }
  }

  /** A list without the id is left as it is. */
  lemma {:induction false} WithoutAbsent(ids: seq<Entry>, productId: string)
    requires Id(productId) !in ids
    ensures Without(ids, productId) == ids
  {
    if |ids| > 0 {
      assert ids[0] != Id(productId) && Id(productId) !in ids[1..];
      WithoutAbsent(ids[1..], productId);
      assert [ids[0]] + ids[1..] == ids;
    }
  }

  /** The filter keeps the order of the ids it keeps. */
  lemma {:induction false} WithoutAppend(a: seq<Entry>, b: seq<Entry>, productId: string)
    ensures Without(a + b, productId) == Without(a, productId) + Without(b, productId)
  {
    if |a| > 0 {
      assert (a + b)[0] == a[0];
      assert (a + b)[1..] == a[1..] + b;
      WithoutAppend(a[1..], b, productId);
      if a[0] != Id(productId) {
        assert Without(a + b, productId) == [a[0]] + (Without(a[1..], productId) + Without(b, productId));
      }
    } else {
      assert a + b == b;
    }
  }

  /** Toggling an id flips its membership and leaves every other entry's
      membership as it was. */
  lemma ToggleFlips(ids: seq<Entry>, productId: string)
    ensures Id(productId) in Toggled(ids, productId) <==> Id(productId) !in ids
    ensures forall x :: x != Id(productId) ==> (x in Toggled(ids, productId) <==> x in ids)
  {
    WithoutMembers(ids, productId);
  }

  /** Toggling an absent id appends it at the end. */
  lemma ToggleAbsentAppends(ids: seq<Entry>, productId: string)
    requires Id(productId) !in ids
    ensures var r := Toggled(ids, productId);
      |r| == |ids| + 1 && r[..|ids|] == ids && r[|ids|] == Id(productId)
  {
  }

  /** Toggling a saved id removes every occurrence of it. */
  lemma TogglePresentRemovesAll(ids: seq<Entry>, productId: string)
    requires Id(productId) in ids
    ensures Id(productId) !in Toggled(ids, productId)
    ensures |Toggled(ids, productId)| < |ids|
  {
    WithoutMembers(ids, productId);
    WithoutShorter(ids, productId);
  }

  lemma {:induction false} WithoutShorter(ids: seq<Entry>, productId: string)
    requires Id(productId) in ids
    ensures |Without(ids, productId)| < |ids|
  {
    if ids[0] != Id(productId) {
      WithoutShorter(ids[1..], productId);
    }
  }

  /** Toggling the same id twice restores membership; starting from an absent id it
      restores the list exactly, starting from a saved one it moves a single copy of
      the id to the end. */
  lemma ToggleTwice(ids: seq<Entry>, productId: string)
    ensures Id(productId) in Toggled(Toggled(ids, productId), productId) <==> Id(productId) in ids
    ensures Id(productId) !in ids ==> Toggled(Toggled(ids, productId), productId) == ids
    ensures Id(productId) in ids ==>
      Toggled(Toggled(ids, productId), productId) == Without(ids, productId) + [Id(productId)]
  {
    WithoutMembers(ids, productId);
    if Id(productId) !in ids {
      WithoutAppend(ids, [Id(productId)], productId);
      WithoutAbsent(ids, productId);
      assert Without([Id(productId)], productId) == [];
    }
  }
}
