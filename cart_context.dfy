/** The shopping bag kept by `CartProvider`: a list of lines keyed by
    (product id, size, colour). Every change first goes to the server; the local
    list follows only when that call succeeds. The signed-in user, the outcome of
    each server call and the rows the server returns are inputs. */
module CartContext {
  import opened Js
  import opened Catalog

  datatype CartItem = CartItem(id: string, product: Product, quantity: int, size: string, color: string)

  /** The triple `addToCart` matches on. */
  datatype Key = Key(productId: string, size: string, color: string)

  function KeyOf(item: CartItem): Key {
    Key(item.product.id, item.size, item.color)
  }

  /** No two lines share a (product, size, colour) key. */
  predicate KeysUnique(items: seq<CartItem>) {
    forall i, j :: 0 <= i < j < |items| ==> KeyOf(items[i]) != KeyOf(items[j])
  }

  const AuthPath: string := "/auth"
  const CheckoutPath: string := "/checkout"

  /** `items.find(...)` on the key: the index of the first line with key `k`. */
  function Find(items: seq<CartItem>, k: Key): (r: Option<nat>)
    ensures r.Some? ==> r.value < |items| && KeyOf(items[r.value]) == k
    ensures r.Some? ==> forall j :: 0 <= j < r.value ==> KeyOf(items[j]) != k
    ensures r.None? <==> forall j :: 0 <= j < |items| ==> KeyOf(items[j]) != k
  {
    if |items| == 0 then None
    else if KeyOf(items[0]) == k then Some(0)
    else match Find(items[1..], k) {
      case None => None
      case Some(j) => Some(j + 1)
    }
  }

  /** `prev.filter((item) => item.id !== itemId)` */
  function RemoveId(items: seq<CartItem>, itemId: string): (r: seq<CartItem>)
    ensures |r| <= |items|
  {
    if |items| == 0 then []
    else if items[0].id == itemId then RemoveId(items[1..], itemId)
    else [items[0]] + RemoveId(items[1..], itemId)
  }

  /** `prev.map((item) => item.id === itemId ? { ...item, quantity } : item)` */
  function WithQuantity(items: seq<CartItem>, itemId: string, quantity: int): (r: seq<CartItem>)
    ensures |r| == |items|
  {
    if |items| == 0 then []
    else
      var first := if items[0].id == itemId then items[0].(quantity := quantity) else items[0];
      [first] + WithQuantity(items[1..], itemId, quantity)
  }

  /** The lines after `removeFromCart` for a signed-in user; `ok` says whether
      the server call succeeded. */
  function AfterRemove(items: seq<CartItem>, itemId: string, ok: bool): seq<CartItem> {
    if ok then RemoveId(items, itemId) else items
  }

  /** The lines after `updateQuantity` for a signed-in user. */
  function AfterUpdate(items: seq<CartItem>, itemId: string, quantity: int, ok: bool): seq<CartItem> {
    if quantity < 1 then AfterRemove(items, itemId, ok)
    else if ok then WithQuantity(items, itemId, quantity)
    else items
  }

  /** The lines after `addToCart` for a signed-in user. An existing key goes through
      `updateQuantity` (whose server call reports `ok`); a new key is inserted on the
      server, which answers with the new line's id or (`None`) fails. */
  function AfterAdd(items: seq<CartItem>, product: Product, size: string, color: string, quantity: int,
                    added: Option<string>, ok: bool): seq<CartItem>
  {
    match Find(items, Key(product.id, size, color)) {
      case Some(k) => AfterUpdate(items, items[k].id, items[k].quantity + quantity, ok)
      case None => if added.Some? then items + [CartItem(added.value, product, quantity, size, color)] else items
    }
  }

  /** `items.reduce((sum, item) => sum + item.product.price * item.quantity, 0)` */
  function Total(items: seq<CartItem>): int {
    if |items| == 0 then 0
    else Total(items[..|items| - 1]) + items[|items| - 1].product.price * items[|items| - 1].quantity
  }

  /** `items.reduce((sum, item) => sum + item.quantity, 0)` */
  function ItemCount(items: seq<CartItem>): int {
    if |items| == 0 then 0
    else ItemCount(items[..|items| - 1]) + items[|items| - 1].quantity
  }

  /** A row of `GET /api/cart`: the cart line joined with its product's name, price,
      images and category. */
  datatype CartRow = CartRow(id: string, productId: string, name: string, price: int, images: seq<string>,
                             category: string, quantity: int, size: Option<string>, color: Option<string>)

  /** The line `loadCart` builds from a row: the product has no description, no
      colours or sizes and neither flag; `stock` is absent there and is 0 here. */
  function ItemOfRow(row: CartRow): (item: CartItem)
    ensures item.id == row.id && item.product.id == row.productId && item.quantity == row.quantity
    ensures item.size == (if StringTruthy(row.size) then row.size.value else "")
    ensures item.color == (if StringTruthy(row.color) then row.color.value else "")
    ensures item.product.sizes == [] && item.product.colors == [] && !item.product.isNew
  {
    CartItem(row.id, Product(row.productId, row.name, "", row.price, row.category, row.images, [], [], 0, false, false),
             row.quantity, StringOr(row.size, ""), StringOr(row.color, ""))
  }

  class Cart {
    var items: seq<CartItem>
    var isOpen: bool
    /** Whether `useAuth()` reports a user. */
    var signedIn: bool

    constructor ()
      ensures items == [] && !isOpen && !signedIn
    {
      items := [];
      isOpen := false;
      signedIn := false;
    }

    /** The effect run when the user changes: a sign-in loads the server's rows
        (`rows` is `None` when that request fails, leaving the lines as they were),
        a sign-out empties the local list. */
    method UserChanged(user: bool, rows: Option<seq<CartRow>>)
      modifies this
      ensures signedIn == user && isOpen == old(isOpen)
      ensures !user ==> items == []
      ensures user && rows.Some? ==>
        |items| == |rows.value| && forall i :: 0 <= i < |items| ==> items[i] == ItemOfRow(rows.value[i])
      ensures user && rows.None? ==> items == old(items)
    {
      signedIn := user;
      if !user {
        items := [];
        return;
      }
      if rows.Some? {
        items := seq(|rows.value|, i requires 0 <= i < |rows.value| => ItemOfRow(rows.value[i]));
      }
    }

    method RemoveFromCart(itemId: string, ok: bool)
      modifies this
      ensures signedIn == old(signedIn) && isOpen == old(isOpen)
      ensures items == if signedIn then AfterRemove(old(items), itemId, ok) else old(items)
    {
      if !signedIn {
        return;
      }
      if ok {
        items := RemoveId(items, itemId);
      }
    }

    method UpdateQuantity(itemId: string, quantity: int, ok: bool)
      modifies this
      ensures signedIn == old(signedIn) && isOpen == old(isOpen)
      ensures items == if signedIn then AfterUpdate(old(items), itemId, quantity, ok) else old(items)
    {
      if !signedIn {
        return;
      }
      if quantity < 1 {
        RemoveFromCart(itemId, ok);
        return;
      }
      if ok {
        items := WithQuantity(items, itemId, quantity);
      }
    }

    /** Returns the page it sends the browser to, if any. The bag opens only when
        a new line was inserted. */
    method AddToCart(product: Product, size: string, color: string, quantity: int, added: Option<string>, ok: bool)
      returns (nav: Option<string>)
      modifies this
      ensures signedIn == old(signedIn)
      ensures !signedIn ==> nav == Some(AuthPath) && items == old(items) && isOpen == old(isOpen)
      ensures signedIn ==> nav == None && items == AfterAdd(old(items), product, size, color, quantity, added, ok)
      ensures signedIn ==> isOpen == (old(isOpen) || (Find(old(items), Key(product.id, size, color)).None? && added.Some?))
    {
      if !signedIn {
        return Some(AuthPath);
      }
      var existing := Find(items, Key(product.id, size, color));
      if existing.Some? {
        var line := items[existing.value];
        UpdateQuantity(line.id, line.quantity + quantity, ok);
        return None;
      }
      if added.Some? {
        items := items + [CartItem(added.value, product, quantity, size, color)];
        isOpen := true;
      }
      nav := None;
    }

    /** `ok` is false when any of the deletions rejects. */
    method ClearCart(ok: bool)
      modifies this
      ensures signedIn == old(signedIn) && isOpen == old(isOpen)
      ensures items == if signedIn && ok then [] else old(items)
    {
      if !signedIn {
        return;
      }
      if ok {
        items := [];
      }
    }

    /** Returns the page it sends the browser to: the sign-in page without a user,
        nowhere for an empty bag, the checkout page otherwise (closing the bag). */
    method Checkout() returns (nav: Option<string>)
      modifies this
      ensures items == old(items) && signedIn == old(signedIn)
      ensures !signedIn ==> nav == Some(AuthPath) && isOpen == old(isOpen)
      ensures signedIn && |items| == 0 ==> nav == None && isOpen == old(isOpen)
      ensures signedIn && |items| > 0 ==> nav == Some(CheckoutPath) && !isOpen
    {
      if !signedIn {
        return Some(AuthPath);
      }
      if |items| == 0 {
        return None;
      }
      isOpen := false;
      nav := Some(CheckoutPath);
    }
  }

  // ---------------------------------------------------------------------------
  // Properties of the list operations

  /** `WithQuantity` sets the quantity of exactly the lines with that id. */
  lemma {:induction false} WithQuantityAt(items: seq<CartItem>, itemId: string, quantity: int)
    ensures forall i :: 0 <= i < |items| ==>
      WithQuantity(items, itemId, quantity)[i]
        == if items[i].id == itemId then items[i].(quantity := quantity) else items[i]
  {
    if |items| > 0 {
      WithQuantityAt(items[1..], itemId, quantity);
      var r := WithQuantity(items, itemId, quantity);
      forall i | 0 <= i < |items|
        ensures r[i] == if items[i].id == itemId then items[i].(quantity := quantity) else items[i]
      {
        if i > 0 {
          assert r[i] == WithQuantity(items[1..], itemId, quantity)[i - 1];
        }
      }
    }
  }

  /** Changing a quantity keeps every line's key. */
  lemma WithQuantityKeepsKeys(items: seq<CartItem>, itemId: string, quantity: int)
    ensures forall i :: 0 <= i < |items| ==> KeyOf(WithQuantity(items, itemId, quantity)[i]) == KeyOf(items[i])
  {
    WithQuantityAt(items, itemId, quantity);
  }

  /** The filter keeps the order of the lines it keeps. */
  lemma {:induction false} RemoveIdAppend(a: seq<CartItem>, b: seq<CartItem>, itemId: string)
    ensures RemoveId(a + b, itemId) == RemoveId(a, itemId) + RemoveId(b, itemId)
  {
    if |a| > 0 {
      assert (a + b)[0] == a[0];
      assert (a + b)[1..] == a[1..] + b;
      RemoveIdAppend(a[1..], b, itemId);
      if a[0].id != itemId {
        assert RemoveId(a + b, itemId) == [a[0]] + (RemoveId(a[1..], itemId) + RemoveId(b, itemId));
      }
    } else {
      assert a + b == b;
    }
  }

  /** The filter keeps exactly the lines whose id differs. */
  lemma {:induction false} RemoveIdMembers(items: seq<CartItem>, itemId: string)
    ensures forall x :: x in RemoveId(items, itemId) <==> x in items && x.id != itemId
  {
    if |items| > 0 {
      RemoveIdMembers(items[1..], itemId);
      assert forall x :: x in items <==> x == items[0] || x in items[1..];
    }
  }

  /** A list without that id is left as it is. */
  lemma {:induction false} RemoveAbsentId(items: seq<CartItem>, itemId: string)
    requires forall i :: 0 <= i < |items| ==> items[i].id != itemId
    ensures RemoveId(items, itemId) == items
  {
    if |items| > 0 {
      RemoveAbsentId(items[1..], itemId);
      assert [items[0]] + items[1..] == items;
    }
  }

  /** Removing lines keeps the keys distinct. */
  lemma {:induction false} RemoveIdKeepsKeysUnique(items: seq<CartItem>, itemId: string)
    requires KeysUnique(items)
    ensures KeysUnique(RemoveId(items, itemId))
  {
    if |items| > 0 {
      var rest := items[1..];
      assert KeysUnique(rest) by {
        forall i, j | 0 <= i < j < |rest| ensures KeyOf(rest[i]) != KeyOf(rest[j]) {
          assert rest[i] == items[i + 1] && rest[j] == items[j + 1];
        }
      }
      RemoveIdKeepsKeysUnique(rest, itemId);
      RemoveIdMembers(rest, itemId);
      if items[0].id != itemId {
        var r := RemoveId(rest, itemId);
        forall y | y in r ensures KeyOf(y) != KeyOf(items[0]) {
          var j :| 0 <= j < |rest| && rest[j] == y;
          assert items[j + 1] == y;
        }
        PrependKeepsKeysUnique(items[0], r);
      }
    }
  }

  lemma PrependKeepsKeysUnique(x: CartItem, r: seq<CartItem>)
    requires KeysUnique(r)
    requires forall y :: y in r ==> KeyOf(y) != KeyOf(x)
    ensures KeysUnique([x] + r)
  {
    var s := [x] + r;
    forall i, j | 0 <= i < j < |s| ensures KeyOf(s[i]) != KeyOf(s[j]) {
      if i == 0 {
        assert s[j] in r;
      } else {
        assert s[i] == r[i - 1] && s[j] == r[j - 1];
      }
    }
  }

  // ---------------------------------------------------------------------------
  // Properties of addToCart, updateQuantity and removeFromCart

  /** Adding a key already in the bag changes that line's quantity by `quantity`
      (and every line sharing its id, as the `map` does) and adds no line. */
  lemma AddExistingMerges(items: seq<CartItem>, product: Product, size: string, color: string, quantity: int,
                          added: Option<string>, k: nat)
    requires Find(items, Key(product.id, size, color)) == Some(k)
    requires items[k].quantity + quantity >= 1
    ensures var r := AfterAdd(items, product, size, color, quantity, added, true);
      && |r| == |items|
      && r[k] == items[k].(quantity := items[k].quantity + quantity)
      && forall i :: 0 <= i < |items| && items[i].id != items[k].id ==> r[i] == items[i]
  {
    var r := AfterAdd(items, product, size, color, quantity, added, true);
    var id, q := items[k].id, items[k].quantity + quantity;
    assert r == WithQuantity(items, id, q);
    WithQuantityAt(items, id, q);
    forall i | 0 <= i < |items| && items[i].id != id
      ensures r[i] == items[i]
    {
    }
  }

  /** When the merged quantity drops below one, the line (and any line sharing its
      id) is removed instead. */
  lemma AddExistingBelowOneRemoves(items: seq<CartItem>, product: Product, size: string, color: string,
                                   quantity: int, added: Option<string>, k: nat)
    requires Find(items, Key(product.id, size, color)) == Some(k)
    requires items[k].quantity + quantity < 1
    ensures var r := AfterAdd(items, product, size, color, quantity, added, true);
      && |r| < |items|
      && items[k] !in r
      && forall x :: x in items && x.id != items[k].id ==> x in r
  {
    var r := AfterAdd(items, product, size, color, quantity, added, true);
    assert r == RemoveId(items, items[k].id);
    RemoveIdShorter(items, k);
    RemoveIdMembers(items, items[k].id);
  }

  /** Removing an id present at index `k` shortens the list. */
  lemma {:induction false} RemoveIdShorter(items: seq<CartItem>, k: nat)
    requires k < |items|
    ensures |RemoveId(items, items[k].id)| < |items|
  {
    if k > 0 {
      assert items[1..][k - 1] == items[k];
      RemoveIdShorter(items[1..], k - 1);
    }
  }

  /** A new key is appended at the end with the server's id; the earlier lines stay
      as they were. */
  lemma AddNewAppends(items: seq<CartItem>, product: Product, size: string, color: string, quantity: int,
                      id: string, ok: bool)
    requires forall i :: 0 <= i < |items| ==> KeyOf(items[i]) != Key(product.id, size, color)
    ensures var r := AfterAdd(items, product, size, color, quantity, Some(id), ok);
      && |r| == |items| + 1
      && r[..|items|] == items
      && r[|items|] == CartItem(id, product, quantity, size, color)
      && ItemCount(r) == ItemCount(items) + quantity
      && Total(r) == Total(items) + product.price * quantity
  {
    var r := AfterAdd(items, product, size, color, quantity, Some(id), ok);
    assert r[..|r| - 1] == items;
  }

  /** When the server call fails, the list is unchanged on every path. */
  lemma FailedCallsKeepItems(items: seq<CartItem>, product: Product, size: string, color: string,
                             quantity: int, itemId: string, newQuantity: int)
    ensures AfterAdd(items, product, size, color, quantity, None, false) == items
    ensures AfterUpdate(items, itemId, newQuantity, false) == items
    ensures AfterRemove(items, itemId, false) == items
  {
  }

  /** `addToCart` keeps the (product, size, colour) keys distinct. */
  lemma AddKeepsKeysUnique(items: seq<CartItem>, product: Product, size: string, color: string, quantity: int,
                           added: Option<string>, ok: bool)
    requires KeysUnique(items)
    ensures KeysUnique(AfterAdd(items, product, size, color, quantity, added, ok))
  {
    var key := Key(product.id, size, color);
    match Find(items, key) {
      case Some(k) =>
        UpdateKeepsKeysUnique(items, items[k].id, items[k].quantity + quantity, ok);
      case None =>
    }
  }

  /** `updateQuantity` and `removeFromCart` keep the keys distinct. */
  lemma UpdateKeepsKeysUnique(items: seq<CartItem>, itemId: string, quantity: int, ok: bool)
    requires KeysUnique(items)
    ensures KeysUnique(AfterUpdate(items, itemId, quantity, ok))
    ensures KeysUnique(AfterRemove(items, itemId, ok))
  {
    RemoveIdKeepsKeysUnique(items, itemId);
    WithQuantityKeepsKeys(items, itemId, quantity);
  }

  /** `updateQuantity` below one is `removeFromCart`: no line with that id is left. */
  lemma UpdateBelowOneRemoves(items: seq<CartItem>, itemId: string, quantity: int)
    requires quantity < 1
    ensures forall x :: x in AfterUpdate(items, itemId, quantity, true) ==> x.id != itemId
    ensures AfterUpdate(items, itemId, quantity, true) == AfterRemove(items, itemId, true)
  {
    RemoveIdMembers(items, itemId);
  }

  /** `updateQuantity` from one upwards changes only the quantity of the lines with
      that id, keeping their order and every other line. */
  lemma UpdateChangesOnlyMatching(items: seq<CartItem>, itemId: string, quantity: int)
    requires quantity >= 1
    ensures var r := AfterUpdate(items, itemId, quantity, true);
      && |r| == |items|
      && forall i :: 0 <= i < |items| ==>
           if items[i].id == itemId then r[i] == items[i].(quantity := quantity) else r[i] == items[i]
  {
    WithQuantityAt(items, itemId, quantity);
  }

  // ---------------------------------------------------------------------------
  // total and itemCount

  /** The folds split over concatenation. */
  lemma {:induction false} FoldsAppend(a: seq<CartItem>, b: seq<CartItem>)
    ensures Total(a + b) == Total(a) + Total(b)
    ensures ItemCount(a + b) == ItemCount(a) + ItemCount(b)
  {
    if |b| > 0 {
      var b' := b[..|b| - 1];
      assert (a + b)[..|a + b| - 1] == a + b';
      FoldsAppend(a, b');
    } else {
      assert a + b == a;
    }
  }

  /** With non-negative prices and quantities, every line contributes its whole
      price × quantity, so the total is at least any one line's amount. */
  lemma {:induction false} TotalBoundsLine(items: seq<CartItem>, i: nat)
    requires i < |items|
    requires forall j :: 0 <= j < |items| ==> items[j].product.price >= 0 && items[j].quantity >= 0
    ensures Total(items) >= items[i].product.price * items[i].quantity >= 0
    ensures ItemCount(items) >= items[i].quantity
  {
    var n := |items|;
    if i < n - 1 {
      TotalBoundsLine(items[..n - 1], i);
      assert items[n - 1].product.price * items[n - 1].quantity >= 0;
    } else {
      NonNegativeFolds(items[..n - 1]);
    }
  }

  lemma {:induction false} NonNegativeFolds(items: seq<CartItem>)
    requires forall j :: 0 <= j < |items| ==> items[j].product.price >= 0 && items[j].quantity >= 0
    ensures Total(items) >= 0 && ItemCount(items) >= 0
  {
    if |items| > 0 {
      NonNegativeFolds(items[..|items| - 1]);
      var last := items[|items| - 1];
      assert last.product.price * last.quantity >= 0;
    }
  }

  /** Merging into a line whose id is unique changes the item count by exactly the
      quantity difference. */
  lemma WithQuantityCount(items: seq<CartItem>, k: nat, quantity: int)
    requires k < |items|
    requires forall i :: 0 <= i < |items| && i != k ==> items[i].id != items[k].id
    ensures ItemCount(WithQuantity(items, items[k].id, quantity)) == ItemCount(items) - items[k].quantity + quantity
  {
    var r := WithQuantity(items, items[k].id, quantity);
    WithQuantityAt(items, items[k].id, quantity);
    forall i | 0 <= i < |items| && i != k
      ensures r[i] == items[i]
    {
    }
    CountOnePlaceChanged(items, r, k);
  }

  /** Two lists that differ at one place only differ in item count by that line. */
  lemma {:induction false} CountOnePlaceChanged(a: seq<CartItem>, b: seq<CartItem>, k: nat)
    requires |a| == |b| && k < |a|
    requires forall i :: 0 <= i < |a| && i != k ==> a[i] == b[i]
    ensures ItemCount(b) == ItemCount(a) - a[k].quantity + b[k].quantity
  {
    var n := |a|;
    if k == n - 1 {
      assert a[..n - 1] == b[..n - 1];
    } else {
      CountOnePlaceChanged(a[..n - 1], b[..n - 1], k);
      assert a[n - 1] == b[n - 1];
    }
  }
}
