/** The product page: stepping through the images, the quantity stepper, and
    the checks before the product goes into the bag. */
module ProductDetail {
  import opened Js
  import opened Catalog

  // ---------------------------------------------------------------------------
  // Image gallery

  /** `nextImage`: `(prev + 1) % images.length`. */
  function NextImage(prev: int, n: int): (i: int)
    requires 0 <= prev < n
    ensures 0 <= i < n
    ensures i == if prev == n - 1 then 0 else prev + 1
  {
    Remainder(prev + 1, n)
  }

  /** `prevImage`: `(prev - 1 + images.length) % images.length`. */
  function PrevImage(prev: int, n: int): (i: int)
    requires 0 <= prev < n
    ensures 0 <= i < n
    ensures i == if prev == 0 then n - 1 else prev - 1
  {
    Remainder(prev - 1 + n, n)
  }

  /** The arrows undo each other. */
  lemma NextThenPrev(i: int, n: int)
    requires 0 <= i < n
    ensures PrevImage(NextImage(i, n), n) == i
    ensures NextImage(PrevImage(i, n), n) == i
  {
  }

  /** The image shown after pressing "next" `k` times from image `i`. */
  function NextTimes(i: int, n: int, k: nat): (j: int)
    requires 0 <= i < n
    ensures 0 <= j < n
  {
    if k == 0 then i else NextImage(NextTimes(i, n, k - 1), n)
  }

  /** From the first image, "next" visits the images in order and, after the
      last one, comes back to the first. */
  lemma NextCycles(n: int)
    requires n > 0
    ensures forall k: nat :: k < n ==> NextTimes(0, n, k) == k
    ensures NextTimes(0, n, n) == 0
  {
    forall k: nat | k < n ensures NextTimes(0, n, k) == k {
      NextVisitsInOrder(n, k);
    }
    NextVisitsInOrder(n, n - 1);
  }

  lemma {:induction false} NextVisitsInOrder(n: int, k: nat)
    requires k < n
    ensures NextTimes(0, n, k) == k
  {
    if k > 0 {
      NextVisitsInOrder(n, k - 1);
    }
  }

  // ---------------------------------------------------------------------------
  // Quantity

  /** The minus button: `Math.max(1, quantity - 1)`. */
  function Decrease(quantity: int): (q: int)
    ensures q >= 1
    ensures quantity > 1 ==> q == quantity - 1
    ensures quantity <= 1 ==> q == 1
  {
    if quantity - 1 > 1 then quantity - 1 else 1
  }

  /** The plus button. */
  function Increase(quantity: int): (q: int)
    ensures q == quantity + 1
  {
    quantity + 1
  }

  datatype Step = Minus | Plus

  /** The quantity after a run of clicks on the stepper, starting from 1. */
  function QuantityAfter(steps: seq<Step>): int {
    if steps == [] then 1
    else
      var q := QuantityAfter(steps[..|steps| - 1]);
      if steps[|steps| - 1] == Minus then Decrease(q) else Increase(q)
  }

  /** Whatever the clicks, the quantity stays at least 1, and minus undoes plus. */
  lemma {:induction false} QuantityAtLeastOne(steps: seq<Step>)
    ensures QuantityAfter(steps) >= 1
    ensures QuantityAfter(steps + [Plus, Minus]) == QuantityAfter(steps)
  {
    if steps != [] {
      QuantityAtLeastOne(steps[..|steps| - 1]);
    }
    var q := QuantityAfter(steps);
    assert (steps + [Plus, Minus])[..|steps| + 1] == steps + [Plus];
    assert (steps + [Plus])[..|steps|] == steps;
    assert QuantityAfter(steps + [Plus]) == q + 1;
  }

  // ---------------------------------------------------------------------------
  // Adding to the bag

  /** A selection is made by clicking one of the listed buttons, so it is either
      still empty or one of the listed values. */
  predicate Selectable(choice: string, listed: seq<string>) {
    choice == "" || choice in listed
  }

  /** `handleAddToCart`: the arguments passed to `addToCart`, or `None` when a size
      or a colour is still missing. */
  function AddToCartCall(p: Product, size: string, color: string, quantity: int): (call: Option<(Product, string, string, int)>)
    ensures call.Some? <==> size != "" && color != ""
    ensures call.Some? ==> call.value == (p, size, color, quantity)
  {
    if size == "" then None
    else if color == "" then None
    else Some((p, size, color, quantity))
  }

  /** The "Add to Bag" button is disabled: some sizes or colours are listed and
      none of them is chosen. */
  predicate Disabled(p: Product, size: string, color: string) {
    (|p.sizes| > 0 && size == "") || (|p.colors| > 0 && color == "")
  }

  /** A product without listed sizes, or without listed colours, can never be
      added, since nothing can be selected for it. */
  lemma UnlistedNeverAdded(p: Product, size: string, color: string, quantity: int)
    requires Selectable(size, p.sizes) && Selectable(color, p.colors)
    requires p.sizes == [] || p.colors == []
    ensures AddToCartCall(p, size, color, quantity).None?
  {
  }

  /** Every click that adds comes from an enabled button; yet the button of a
      product with no listed sizes (or colours) is enabled and does nothing. */
  lemma DisabledAndGate(p: Product, size: string, color: string, quantity: int)
    ensures AddToCartCall(p, size, color, quantity).Some? ==> !Disabled(p, size, color)
    ensures p.sizes == [] && size == "" && (p.colors == [] || color != "") ==>
      !Disabled(p, size, color) && AddToCartCall(p, size, color, quantity).None?
    ensures p.sizes != [] && p.colors != [] ==>
      (!Disabled(p, size, color) <==> AddToCartCall(p, size, color, quantity).Some?)
  {
  }
}
