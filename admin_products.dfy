/** The admin product page: the comma-separated colour and size fields, the search
    box, the image list sent on add and update, the stock indicator, and the form
    state around the add and edit dialogs. Uploads and the product API are inputs. */
module AdminProducts {
  import opened Js
  import opened JsString

  /** The page's own view of a product: description, images, colours and sizes
      may be missing. */
  datatype Product = Product(
    id: string,
    name: string,
    description: Option<string>,
    category: string,
    price: int,
    stock: int,
    isFeatured: bool,
    isNew: bool,
    images: Option<seq<string>>,
    colors: Option<seq<string>>,
    sizes: Option<seq<string>>)

  // ---------------------------------------------------------------------------
  // Comma lists

  const Comma: char := ','
  const ListSeparator: string := ", "

  /** `.map(c => c.trim())` */
  function TrimAll(xs: seq<string>): (r: seq<string>)
    ensures |r| == |xs|
    ensures forall i :: 0 <= i < |xs| ==> r[i] == Trim(xs[i])
  {
    if xs == [] then [] else [Trim(xs[0])] + TrimAll(xs[1..])
  }

  /** `.filter(c => c.length > 0)` */
  function NonEmpty(xs: seq<string>): (r: seq<string>)
    ensures forall i :: 0 <= i < |r| ==> r[i] != "" && r[i] in xs
  {
    if xs == [] then []
    else if xs[0] == "" then NonEmpty(xs[1..])
    else [xs[0]] + NonEmpty(xs[1..])
  }

  /** `s.split(',').map(c => c.trim()).filter(c => c.length > 0)` */
  function ParseList(s: string): seq<string> {
    NonEmpty(TrimAll(Split(s, Comma)))
  }

  /** Every parsed entry is non-empty, trimmed and free of commas. */
  lemma ParsedEntriesClean(s: string)
    ensures forall i :: 0 <= i < |ParseList(s)| ==> CleanEntry(ParseList(s)[i])
  {
    var pieces := Split(s, Comma);
    var trimmed := TrimAll(pieces);
    var r := NonEmpty(trimmed);
    forall i | 0 <= i < |r| ensures CleanEntry(r[i]) {
      var j :| 0 <= j < |trimmed| && trimmed[j] == r[i];
      TrimKeepsOut(pieces[j], Comma);
    }
  }

  /** An entry of a parsed list: non-empty, without surrounding white space, and
      without a comma. */
  predicate CleanEntry(x: string) {
    x != "" && Trimmed(x) && Comma !in x
  }

  /** The pieces after the first, each behind the space of `", "`. */
  function Spaced(xs: seq<string>): (r: seq<string>)
    ensures |r| == |xs|
    ensures forall i :: 0 <= i < |xs| ==> r[i] == [' '] + xs[i]
  {
    if xs == [] then [] else [[' '] + xs[0]] + Spaced(xs[1..])
  }

  lemma {:induction false} SplitJoin(pre: string, xs: seq<string>)
    requires |xs| >= 1 && Comma !in pre
    requires forall i :: 0 <= i < |xs| ==> Comma !in xs[i]
    ensures Split(pre + Join(xs, ListSeparator), Comma) == [pre + xs[0]] + Spaced(xs[1..])
    decreases |xs|
  {
    if |xs| == 1 {
      SplitWithoutSeparator(pre + xs[0], Comma);
    } else {
      var rest := Join(xs[1..], ListSeparator);
      assert pre + Join(xs, ListSeparator) == (pre + xs[0]) + [Comma] + ([' '] + rest);
      SplitAtSeparator(pre + xs[0], [' '] + rest, Comma);
      SplitJoin([' '], xs[1..]);
      assert Spaced(xs[1..]) == [[' '] + xs[1]] + Spaced(xs[2..]);
    }
  }

  lemma {:induction false} NonEmptyOfNonEmpty(xs: seq<string>)
    requires forall i :: 0 <= i < |xs| ==> xs[i] != ""
    ensures NonEmpty(xs) == xs
  {
    if xs != [] {
      NonEmptyOfNonEmpty(xs[1..]);
      assert [xs[0]] + xs[1..] == xs;
    }
  }

  /** Trimming the pieces of a joined list strips the spaces `", "` left. */
  lemma TrimPieces(xs: seq<string>)
    requires |xs| >= 1
    requires forall i :: 0 <= i < |xs| ==> CleanEntry(xs[i])
    ensures TrimAll([xs[0]] + Spaced(xs[1..])) == xs
  {
    var pieces := [xs[0]] + Spaced(xs[1..]);
    forall i | 0 <= i < |pieces| ensures Trim(pieces[i]) == xs[i] {
      if i > 0 {
        assert pieces[i] == [' '] + xs[i];
        TrimAfterSpace(xs[i]);
      }
      TrimOfTrimmed(xs[i]);
    }
  }

  /** Joining clean entries with `", "` and parsing the field gives the same list
      back: what the edit dialog shows is what an unchanged save sends. */
  lemma ParseJoin(xs: seq<string>)
    requires forall i :: 0 <= i < |xs| ==> CleanEntry(xs[i])
    ensures ParseList(Join(xs, ListSeparator)) == xs
  {
    var s := Join(xs, ListSeparator);
    if xs == [] {
      assert Split(s, Comma) == [""];
      assert Trim("") == "";
      assert TrimAll([""]) == [""];
      assert NonEmpty([""]) == [];
    } else {
      SplitJoin("", xs);
      assert "" + s == s && "" + xs[0] == xs[0];
      TrimPieces(xs);
      NonEmptyOfNonEmpty(xs);
    }
  }

  // ---------------------------------------------------------------------------
  // Search

  /** The product's lower-cased name or category contains the lower-cased term. */
  predicate MatchesSearch(p: Product, term: string) {
    Includes(ToLower(p.name), ToLower(term)) || Includes(ToLower(p.category), ToLower(term))
  }

  /** `filteredProducts` */
  function FilterProducts(products: seq<Product>, term: string): (r: seq<Product>)
    ensures |r| <= |products|
  {
    if products == [] then []
    else if MatchesSearch(products[0], term) then [products[0]] + FilterProducts(products[1..], term)
    else FilterProducts(products[1..], term)
  }

  /** The list keeps exactly the matching products. */
  lemma {:induction false} FilterProductsIff(products: seq<Product>, term: string)
    ensures forall p :: p in FilterProducts(products, term) <==> p in products && MatchesSearch(p, term)
  {
    if products != [] {
      FilterProductsIff(products[1..], term);
      assert forall p :: p in products <==> p == products[0] || p in products[1..];
    }
  }

  /** An empty search box lists every product. */
  lemma {:induction false} EmptySearchKeepsAll(products: seq<Product>)
    ensures FilterProducts(products, "") == products
  {
    if products != [] {
      IncludesEmpty(ToLower(products[0].name));
      assert ToLower("") == "";
      EmptySearchKeepsAll(products[1..]);
      assert [products[0]] + products[1..] == products;
    }
  }

  // ---------------------------------------------------------------------------
  // Stock indicator

  const InStockColor: string := "bg-emerald-500"
  const LowStockColor: string := "bg-orange-500"
  const OutOfStockColor: string := "bg-rose-500"

  /** The dot beside the stock count. */
  function StockColor(stock: int): (c: string)
    ensures c == InStockColor <==> stock > 10
    ensures c == LowStockColor <==> 1 <= stock <= 10
    ensures c == OutOfStockColor <==> stock <= 0
  {
    if stock > 10 then InStockColor else if stock > 0 then LowStockColor else OutOfStockColor
  }

  // ---------------------------------------------------------------------------
  // Form state and the add and update handlers

  datatype ProductForm = ProductForm(
    name: string,
    description: string,
    price: string,
    category: string,
    stock: string,
    colors: string,
    sizes: string,
    isFeatured: bool,
    isNew: bool)

  /** The form after a successful add (and when the page opens). */
  const EmptyForm: ProductForm := ProductForm("", "", "", "", "", "", "", false, true)

  /** `list?.join(', ') || ""` */
  function ListField(xs: Option<seq<string>>): string {
    if xs.Some? then Join(xs.value, ListSeparator) else ""
  }

  /** The form `handleEditProduct` fills from a product: the numbers are printed
      in decimal, so reading the fields back with `parseInt` gives them again. */
  function FormOf(p: Product): (f: ProductForm)
    ensures f.name == p.name && f.category == p.category
    ensures f.description == p.description.GetOr("")
    ensures f.price == IntToString(p.price) && ParseInt(f.price) == Int(p.price)
    ensures f.stock == IntToString(p.stock) && ParseInt(f.stock) == Int(p.stock)
    ensures f.colors == ListField(p.colors) && f.sizes == ListField(p.sizes)
    ensures f.isFeatured == p.isFeatured && f.isNew == p.isNew
  {
    ParsePrinted(Int(p.price));
    ParsePrinted(Int(p.stock));
    assert NumberToString(Int(p.price)) == IntToString(p.price);
    assert NumberToString(Int(p.stock)) == IntToString(p.stock);
    ProductForm(p.name, StringOr(p.description, ""), IntToString(p.price), p.category,
                IntToString(p.stock), ListField(p.colors), ListField(p.sizes), p.isFeatured, p.isNew)
  }

  /** The product fields sent to `createProduct` / `updateProduct`; the price, read
      with `parseFloat`, is not part of this model. */
  datatype ProductBody = ProductBody(
    name: string,
    description: string,
    category: string,
    stock: Number,
    images: seq<string>,
    colors: seq<string>,
    sizes: seq<string>,
    isFeatured: bool,
    isNew: bool)

  function BodyOf(f: ProductForm, images: seq<string>): ProductBody {
    ProductBody(f.name, f.description, f.category, ParseInt(f.stock), images,
                ParseList(f.colors), ParseList(f.sizes), f.isFeatured, f.isNew)
  }

  /** Saving an edited product without touching the form sends back its stock,
      colours and sizes, when every colour and size is a clean entry. */
  lemma EditThenSaveKeepsFields(p: Product, images: seq<string>)
    requires p.colors.Some? ==> forall i :: 0 <= i < |p.colors.value| ==> CleanEntry(p.colors.value[i])
    requires p.sizes.Some? ==> forall i :: 0 <= i < |p.sizes.value| ==> CleanEntry(p.sizes.value[i])
    ensures BodyOf(FormOf(p), images).stock == Int(p.stock)
    ensures BodyOf(FormOf(p), images).colors == p.colors.GetOr([])
    ensures BodyOf(FormOf(p), images).sizes == p.sizes.GetOr([])
  {
    ParsePrinted(Int(p.stock));
    assert NumberToString(Int(p.stock)) == IntToString(p.stock);
    if p.colors.Some? { ParseJoin(p.colors.value); } else { ParseEmpty(); }
    if p.sizes.Some? { ParseJoin(p.sizes.value); } else { ParseEmpty(); }
  }

  lemma ParseEmpty()
    ensures ParseList("") == []
  {
    ParseJoin([]);
  }

  class AdminProductsPage {
    var products: seq<Product>
    var searchTerm: string
    var form: ProductForm
    var selected: Option<Product>
    /** Upload results for the chosen files: the stored URL, or `None` when that
        upload throws. */
    var imageFiles: seq<Option<string>>
    var addOpen: bool
    var editOpen: bool
    var uploading: bool

    constructor ()
      ensures products == [] && searchTerm == "" && form == EmptyForm && selected == None
      ensures imageFiles == [] && !addOpen && !editOpen && !uploading
    {
      products := [];
      searchTerm := "";
      form := EmptyForm;
      selected := None;
      imageFiles := [];
      addOpen := false;
      editOpen := false;
      uploading := false;
    }

    /** The rows shown under the search box. */
    function Shown(): (rows: seq<Product>)
      reads this
      ensures forall p :: p in rows ==> p in products && MatchesSearch(p, searchTerm)
    {
      FilterProductsIff(products, searchTerm);
      FilterProducts(products, searchTerm)
    }

    /** `handleEditProduct` */
    method EditProduct(p: Product)
      modifies this
      ensures selected == Some(p) && form == FormOf(p) && editOpen
      ensures products == old(products) && searchTerm == old(searchTerm) && imageFiles == old(imageFiles)
      ensures addOpen == old(addOpen) && uploading == old(uploading)
    {
      selected := Some(p);
      form := FormOf(p);
      editOpen := true;
    }

    /** `handleAddProduct`: uploads every chosen file, then sends the product;
        `created` is whether `createProduct` succeeds. Returns the body sent, if
        any. */
    method AddProduct(created: bool) returns (sent: Option<ProductBody>)
      modifies this
      ensures !uploading && products == old(products) && searchTerm == old(searchTerm)
      ensures selected == old(selected) && editOpen == old(editOpen)
      ensures sent.Some? <==> forall i :: 0 <= i < |old(imageFiles)| ==> old(imageFiles)[i].Some?
      ensures sent.Some? ==> sent.value == BodyOf(old(form), UploadedUrls(old(imageFiles)))
      ensures sent.Some? && created ==> form == EmptyForm && !addOpen && imageFiles == []
      ensures !(sent.Some? && created) ==> form == old(form) && addOpen == old(addOpen) && imageFiles == old(imageFiles)
    {
      uploading := true;
      var urls := CollectImageUrls([], imageFiles);
      if urls.None? {
        uploading := false;
        return None;
      }
      assert [] + UploadedUrls(imageFiles) == UploadedUrls(imageFiles);
      sent := Some(BodyOf(form, urls.value));
      if created {
        addOpen := false;
        form := EmptyForm;
        imageFiles := [];
      }
      uploading := false;
    }

    /** `handleUpdateProduct`: keeps the product's images and appends the uploads;
        `updated` is whether `updateProduct` succeeds. Returns the id and body
        sent, if any. */
    method UpdateProduct(updated: bool) returns (sent: Option<(string, ProductBody)>)
      modifies this
      ensures products == old(products) && searchTerm == old(searchTerm) && form == old(form)
      ensures selected == old(selected) && addOpen == old(addOpen)
      ensures old(selected).None? ==>
        sent.None? && uploading == old(uploading) && imageFiles == old(imageFiles) && editOpen == old(editOpen)
      ensures old(selected).Some? ==> !uploading
      ensures sent.Some? <==> old(selected).Some? && forall i :: 0 <= i < |old(imageFiles)| ==> old(imageFiles)[i].Some?
      ensures sent.Some? ==> sent.value == (old(selected).value.id,
        BodyOf(old(form), old(selected).value.images.GetOr([]) + UploadedUrls(old(imageFiles))))
      ensures sent.Some? && updated ==> !editOpen && imageFiles == []
      ensures !(sent.Some? && updated) ==> editOpen == old(editOpen) && imageFiles == old(imageFiles)
    {
      if selected.None? {
        return None;
      }
      uploading := true;
      var p := selected.value;
      var urls := CollectImageUrls(p.images.GetOr([]), imageFiles);
      if urls.None? {
        uploading := false;
        return None;
      }
      sent := Some((p.id, BodyOf(form, urls.value)));
      if updated {
        editOpen := false;
        imageFiles := [];
      }
      uploading := false;
    }
  }

  /** The URLs of a list of successful uploads. */
  function UploadedUrls(uploads: seq<Option<string>>): (urls: seq<string>)
    requires forall i :: 0 <= i < |uploads| ==> uploads[i].Some?
    ensures |urls| == |uploads|
    ensures forall i :: 0 <= i < |uploads| ==> urls[i] == uploads[i].value
  {
    seq(|uploads|, i requires 0 <= i < |uploads| && uploads[i].Some? => uploads[i].value)
  }

  /** The upload loop: starts from `existing` and pushes each uploaded URL in turn;
      the first failing upload aborts the handler. */
  method CollectImageUrls(existing: seq<string>, uploads: seq<Option<string>>) returns (urls: Option<seq<string>>)
    ensures urls.Some? <==> forall i :: 0 <= i < |uploads| ==> uploads[i].Some?
    ensures urls.Some? ==> urls.value == existing + UploadedUrls(uploads)
  {
    var acc := existing;
    var k := 0;
    while k < |uploads|
      invariant 0 <= k <= |uploads|
      invariant forall i :: 0 <= i < k ==> uploads[i].Some?
      invariant |acc| == |existing| + k && acc[..|existing|] == existing
      invariant forall i :: 0 <= i < k ==> acc[|existing| + i] == uploads[i].value
    {
      if uploads[k].None? {
        return None;
      }
      acc := acc + [uploads[k].value];
      k := k + 1;
    }
    urls := Some(acc);
  }
}
