/** The product details page (`src/pages/ProductDetails.tsx`): finding the product for the
    route id in the product list (or, when loading fails, among the bundled samples), the image
    selected first, and the row of at most three thumbnails derived from the raw attachments. */
module ProductDetails {
  import opened Wrappers
  import opened Js
  import opened Seqs
  import opened Proxy
  import opened PageData

  /** `String(p.id) === String(id) || String(p.rawId || '') === String(id)`. */
  predicate MatchesId(h: Host, id: string, p: Value) {
    ToStr(h, Prop(p, "id")) == id || ToStr(h, Or(Prop(p, "rawId"), Str(""))) == id
  }

  /** The samples are matched on `id` alone. */
  predicate MatchesSampleId(h: Host, id: string, p: Value) {
    ToStr(h, Prop(p, "id")) == id
  }

  const LoadError := "Produkt konnte nicht geladen werden."

  /** The `catch` branch. */
  function FromSamples(h: Host, id: string, sample: seq<Value>): (r: Loaded)
    requires forall i :: 0 <= i < |sample| ==> sample[i].Obj?
    ensures r.Shown? ==> r.item in sample && MatchesSampleId(h, id, r.item)
    ensures r.Failed? <==> forall i :: 0 <= i < |sample| ==> !MatchesSampleId(h, id, sample[i])
    ensures r.Failed? ==> r.error == LoadError
    ensures !r.NotFound?
  {
    match SearchFor(sample, p => MatchesSampleId(h, id, p))
    case Hit(p) => Shown(p)
    case Miss => Failed(LoadError)
    case Throws => assert false; Failed(LoadError)
  }

  /** `load`. `payload` is the parsed body of `/api/products`, `None` when the request failed,
      was not 2xx or did not parse. `payload?.products || []` must be an array and its entries
      objects for `find` to succeed; otherwise the samples are searched. */
  function Load(h: Host, id: string, payload: Option<Value>, sample: seq<Value>): (r: Loaded)
    requires forall i :: 0 <= i < |sample| ==> sample[i].Obj?
    ensures payload.None? ==> r == FromSamples(h, id, sample)
    ensures payload.Some? && !Or(Prop(payload.value, "products"), Arr([])).Arr? ==> r == FromSamples(h, id, sample)
    ensures payload.Some? && Or(Prop(payload.value, "products"), Arr([])).Arr? ==>
      var products := Or(Prop(payload.value, "products"), Arr([])).items;
      var s := SearchFor(products, p => MatchesId(h, id, p));
      && (s.Throws? ==> r == FromSamples(h, id, sample))
      && (s.Miss? ==> r == NotFound)
      && (s.Hit? ==> r == if Truthy(s.item) then Shown(s.item) else NotFound)
    ensures r.Shown? ==> Truthy(r.item) && (MatchesId(h, id, r.item) || (r.item in sample && MatchesSampleId(h, id, r.item)))
    ensures r.Failed? ==> r.error == LoadError
  {
    if payload.None? then FromSamples(h, id, sample)
    else
      var products := Or(Prop(payload.value, "products"), Arr([]));
      if !products.Arr? then FromSamples(h, id, sample)
      else
        match SearchFor(products.items, p => MatchesId(h, id, p))
        case Hit(p) => if Truthy(p) then Shown(p) else NotFound
        case Miss => NotFound
        case Throws => FromSamples(h, id, sample)
  }

  /** The first product matching the route id is the one shown, provided it is an object and
      no `null` or `undefined` entry comes before it. */
  lemma FoundByPosition(h: Host, id: string, products: seq<Value>, i: nat)
    requires i < |products| && products[i].Obj? && MatchesId(h, id, products[i])
    requires forall k :: 0 <= k < i ==> !IsNullish(products[k]) && !MatchesId(h, id, products[k])
    ensures Load(h, id, Some(Obj([("products", Arr(products))])), []) == Shown(products[i])
  {
    var payload := Obj([("products", Arr(products))]);
    assert Prop(payload, "products") == Arr(products);
    SearchFirst(products, p => MatchesId(h, id, p), i);
  }

  /** `setSelectedImage(product.image || '')` once a product is shown. */
  function SelectedImage(product: Value): (r: Value)
    ensures Truthy(Prop(product, "image")) ==> r == Prop(product, "image")
    ensures !Truthy(Prop(product, "image")) ==> r == Str("")
  {
    Or(Prop(product, "image"), Str(""))
  }

  /** `a?.url || a?.thumbnails?.large?.url || ''` for one attachment. */
  function Thumb(a: Value): (r: Value)
    ensures Truthy(Prop(a, "url")) ==> r == Prop(a, "url")
    ensures !Truthy(Prop(a, "url")) && Truthy(Path(a, LargeThumbUrl)) ==> r == Path(a, LargeThumbUrl)
    ensures !Truthy(Prop(a, "url")) && !Truthy(Path(a, LargeThumbUrl)) ==> r == Str("")
  {
    OrChain([Prop(a, "url"), Path(a, LargeThumbUrl)], Str(""))
  }

  /** The thumbnails: the first three of `Weitere Bilder`, else `Produkt-Bild`, each mapped to its
      URL (empty strings kept); without attachments, three copies of `product.image`. `None`
      when the attachment field has a length but is not an array: `map` is missing and
      rendering throws. */
  function Thumbnails(product: Value): (r: Option<seq<Value>>)
    ensures var att := OrChain([Prop(RawFields(product), "Weitere Bilder"), Prop(RawFields(product), "Produkt-Bild")], Arr([]));
      && (r.None? <==> HasLength(att) && !att.Arr?)
      && (!HasLength(att) ==> r == Some([Prop(product, "image"), Prop(product, "image"), Prop(product, "image")]))
      && (att.Arr? && |att.items| > 0 ==>
            r.Some? && |r.value| == (if |att.items| < 3 then |att.items| else 3)
            && forall i :: 0 <= i < |r.value| ==> r.value[i] == Thumb(att.items[i]))
    ensures r.Some? ==> |r.value| <= 3
  {
    var rf := RawFields(product);
    var att := OrChain([Prop(rf, "Weitere Bilder"), Prop(rf, "Produkt-Bild")], Arr([]));
    if !HasLength(att) then Some([Prop(product, "image"), Prop(product, "image"), Prop(product, "image")])
    else if !att.Arr? then None
    else
      var gallery := seq(|att.items|, i requires 0 <= i < |att.items| => Thumb(att.items[i]));
      Some(Take(gallery, 3))
  }
}
