/** The products proxy (`api/products.ts`): each Airtable record of the products table becomes
    one product of a fixed shape, with fallbacks for every field the German schema may lack. */
module Products {
  import opened Wrappers
  import opened Text
  import opened Js
  import opened UrlScan
  import opened Proxy

  /** `v && typeof v === 'string'` holds: a non-empty string. */
  predicate IsNonEmptyString(v: Value) {
    v.Str? && |v.s| > 0
  }

  /** `v` if it is a non-empty string, `undefined` otherwise. */
  function NonEmptyStringOr(v: Value): (r: Value)
    ensures IsNonEmptyString(v) ==> r == v
    ensures !IsNonEmptyString(v) ==> r == Undefined
  {
    if IsNonEmptyString(v) then v else Undefined
  }

  /** The early returns of `extractFirstUrl` that look at the first element of a non-empty
      array; `None` means control falls through to the checks on the value itself. */
  function FromFirstElement(first: Value): Option<Value> {
    if Truthy(first) && IsObjectLike(first) then
      if IsNonEmptyString(Prop(first, "url")) then Some(Prop(first, "url"))
      else if Truthy(AndPath(first, LargeThumbUrl)) then Some(AndPath(first, LargeThumbUrl))
      else if Truthy(AndPath(first, FullThumbUrl)) then Some(AndPath(first, FullThumbUrl))
      else None
    else if first.Str? && FindUrl(ProductsPattern, first.s).Some? then Some(UrlIn(ProductsPattern, first.s))
    else None
  }

  /** `extractFirstUrl`: the first usable image URL in a field of unknown shape. An attachment
      array answers with its first attachment's `url`, large thumbnail or full thumbnail; an array
      of strings and a plain string answer with the leftmost `http(s)://` URL in the text (for a
      plain string after white space is collapsed and trimmed, which changes nothing); an object
      answers with its string `url`. Everything else, falsy values included, gives `undefined`. */
  function ExtractFirstUrl(v: Value): (r: Value)
    ensures !Truthy(v) ==> r == Undefined
    ensures r == Undefined || Truthy(r)
    ensures v.Str? ==> r == UrlIn(ProductsPattern, v.s)
    ensures IsNonEmptyArray(v) && v.items[0].Str? ==> r == UrlIn(ProductsPattern, v.items[0].s)
    ensures IsNonEmptyArray(v) && Truthy(v.items[0]) && IsObjectLike(v.items[0]) ==>
      r == OrChain([NonEmptyStringOr(Prop(v.items[0], "url")), Path(v.items[0], LargeThumbUrl),
                    Path(v.items[0], FullThumbUrl)], Undefined)
    ensures IsNonEmptyArray(v) && !IsObjectLike(v.items[0]) && !v.items[0].Str? ==> r == Undefined
    ensures v.Arr? && |v.items| == 0 ==> r == Undefined
    ensures v.Obj? ==> r == NonEmptyStringOr(Prop(v, "url"))
    ensures v.Num? || v.Bool? ==> r == Undefined
  {
    if !Truthy(v) then Undefined
    else if IsNonEmptyArray(v) && FromFirstElement(v.items[0]).Some? then FromFirstElement(v.items[0]).value
    else if IsObjectLike(v) && IsNonEmptyString(Prop(v, "url")) then Prop(v, "url")
    else if v.Str? then
      FindUrlCollapseTrim(ProductsPattern, v.s);
      UrlIn(ProductsPattern, Trim(Collapse(v.s)))
    else Undefined
  }

  /** A URL found in text is a whole match of `/https?:\/\/[^\s)]+/i`: longer than `http://`
      and free of white space and ')'. */
  lemma ExtractedTextUrl(v: Value)
    requires v.Str? || (IsNonEmptyArray(v) && v.items[0].Str?)
    ensures ExtractFirstUrl(v) != Undefined ==>
      var m := ExtractFirstUrl(v);
      m.Str? && |m.s| > 7 && MatchAt(ProductsPattern, m.s) == Some(|m.s|)
      && StopFree(ProductsPattern, m.s, 0, |m.s|)
  {
    if v.Str? {
      FindUrlIsMatch(ProductsPattern, v.s);
    } else {
      FindUrlIsMatch(ProductsPattern, v.items[0].s);
    }
  }

  /** One normalised product. `id` is the position in the list plus one; `rawId` is the
      Airtable record id and `raw` the field map. */
  datatype Product = Product(
    id: nat,
    name: Value,
    category: string,
    image: Value,
    description: Value,
    shortDescription: Value,
    material: Value,
    sku: Value,
    stock: real,
    manufacturer: Option<string>,
    price: Option<real>,
    rawId: Value,
    raw: Value)

  const NameKeys: seq<string> := ["Titel", "TITLE", "Title", "Name", "name"]
  const ImageKeys: seq<string> :=
    ["Produkt Bild", "Bilder", "Weitere Bilder", "Images", "Image", "Attachment", "Attachments"]
  const DescriptionKeys: seq<string> := ["Beschreibung", "Beschreibung", "Kurzbeschreibung", "Kurzbeschreibung"]
  const ShortDescriptionKeys: seq<string> := ["Kurzbeschreibung", "Kurzbeschreibung"]
  const MaterialKeys: seq<string> := ["Beschaffenheit", "Beschaffenheit"]
  const SkuKeys: seq<string> := ["Artikelnummer", "Artikelnummer"]

  /** `"Produkt " + (idx + 1)`. */
  function DefaultName(idx: nat): string {
    "Produkt " + NatToStr(idx + 1)
  }

  /** The category: `Art des Produkts` when truthy, else the first linked `Produktgruppe`, else
      `Unkategorisiert`; whatever is chosen is converted with `String`. */
  function Category(h: Host, f: Value): (c: string)
    ensures Truthy(Prop(f, "Art des Produkts")) ==> c == ToStr(h, Prop(f, "Art des Produkts"))
    ensures !Truthy(Prop(f, "Art des Produkts")) && IsNonEmptyArray(Prop(f, "Produktgruppe")) ==>
      c == ToStr(h, Prop(f, "Produktgruppe").items[0])
    ensures !Truthy(Prop(f, "Art des Produkts")) && !IsNonEmptyArray(Prop(f, "Produktgruppe")) ==>
      c == "Unkategorisiert"
  {
    if Truthy(Prop(f, "Art des Produkts")) then ToStr(h, Prop(f, "Art des Produkts"))
    else if IsNonEmptyArray(Prop(f, "Produktgruppe")) then ToStr(h, Prop(f, "Produktgruppe").items[0])
    else "Unkategorisiert"
  }

  /** `typeof b === 'number' ? b : parseInt(String(b || ''), 10) || 0`. */
  function Stock(h: Host, b: Value): (r: real)
    ensures b.Num? ==> r == b.n
    ensures !b.Num? ==> r == r.Floor as real
    ensures !b.Num? && !Truthy(b) ==> r == 0.0
    ensures !b.Num? && ParseInt(ToStr(h, Or(b, Str("")))).None? ==> r == 0.0
    ensures !b.Num? && ParseInt(ToStr(h, Or(b, Str("")))).Some? ==> r == ParseInt(ToStr(h, Or(b, Str("")))).value as real
  {
    if b.Num? then b.n
    else
      match ParseInt(ToStr(h, Or(b, Str(""))))
      case Some(n) => n as real
      case None => 0.0
  }

  /** A stock count written as decimal digits, with or without trailing text such as
      `"3 Stück"`, is read back exactly. */
  lemma StockOfDigits(h: Host, n: nat, rest: string)
    requires |rest| == 0 || !IsDigit(rest[0])
    ensures Stock(h, Str(NatToStr(n) + rest)) == n as real
  {
    var s := NatToStr(n) + rest;
    assert Or(Str(s), Str("")) == Str(s);
    assert ToStr(h, Str(s)) == s;
    ParseIntOfNatToStr(n, rest);
  }

  /** The manufacturer: the first element of a non-empty `Herstellername` array, else of a
      non-empty `Hergestellt von` array (both through `String`), else a string `Herstellername`. */
  function Manufacturer(h: Host, f: Value): (r: Option<string>)
    ensures IsNonEmptyArray(Prop(f, "Herstellername")) ==>
      r == Some(ToStr(h, Prop(f, "Herstellername").items[0]))
    ensures !IsNonEmptyArray(Prop(f, "Herstellername")) && IsNonEmptyArray(Prop(f, "Hergestellt von")) ==>
      r == Some(ToStr(h, Prop(f, "Hergestellt von").items[0]))
    ensures (!IsNonEmptyArray(Prop(f, "Herstellername")) && !IsNonEmptyArray(Prop(f, "Hergestellt von"))
             && Prop(f, "Herstellername").Str?) ==> r == Some(Prop(f, "Herstellername").s)
    ensures r.None? <==>
      !IsNonEmptyArray(Prop(f, "Herstellername")) && !IsNonEmptyArray(Prop(f, "Hergestellt von"))
      && !Prop(f, "Herstellername").Str?
  {
    var hn := Prop(f, "Herstellername");
    var hv := Prop(f, "Hergestellt von");
    if IsNonEmptyArray(hn) then Some(ToStr(h, hn.items[0]))
    else if IsNonEmptyArray(hv) then Some(ToStr(h, hv.items[0]))
    else if hn.Str? then Some(hn.s)
    else None
  }

  /** The price: a number is kept as it is, zero included; a string has its first ',' turned into
      '.' and is parsed, a zero or unparsable result meaning no price; anything else has none. */
  function Price(v: Value): (r: Option<real>)
    ensures v.Num? ==> r == Some(v.n)
    ensures !v.Num? && !v.Str? ==> r.None?
    ensures v.Str? && r.Some? ==> r.value != 0.0 && r == ParseFloat(ReplaceFirst(v.s, ',', '.'))
    ensures v.Str? && r.None? ==> ParseFloat(ReplaceFirst(v.s, ',', '.')) in {None, Some(0.0)}
  {
    if v.Num? then Some(v.n)
    else if v.Str? then
      match ParseFloat(ReplaceFirst(v.s, ',', '.'))
      case Some(x) => if x != 0.0 then Some(x) else None
      case None => None
    else None
  }

  /** A German decimal such as `"12,50"` is read as the number it denotes (`12.5`), and a zero
      such as `"0,00"` as no price. */
  lemma PriceOfGermanDecimal(a: nat, ds: string)
    requires |ds| > 0 && AllDigits(ds)
    ensures var x := Decimal(a, DigitsValue(ds), |ds|);
      Price(Str(NatToStr(a) + "," + ds)) == if x != 0.0 then Some(x) else None
  {
    var d := NatToStr(a);
    var s := d + "," + ds;
    var t := d + "." + ds;
    CommaIndex(d, ds);
    assert ReplaceFirst(s, ',', '.') == t by {
      var r := ReplaceFirst(s, ',', '.');
      assert forall j :: 0 <= j < |s| ==> r[j] == t[j];
    }
    ParseDecimal(a, ds);
  }

  lemma CommaIndex(d: string, ds: string)
    requires AllDigits(d)
    ensures IndexOf(d + "," + ds, ',') == Some(|d|)
  {
    var s := d + "," + ds;
    assert s[|d|] == ',';
  }

  lemma ParseDecimal(a: nat, ds: string)
    requires |ds| > 0 && AllDigits(ds)
    ensures ParseFloat(NatToStr(a) + "." + ds) == Some(Decimal(a, DigitsValue(ds), |ds|))
  {
    var d := NatToStr(a);
    var u := d + "." + ds;
    PointedParts(d, ds);
    DigitRunOfDigits(d, "." + ds);
    DigitRunOfDigits(ds, "");
    ParseFloatOfPointed(u, |d|, |ds|);
    DigitsValueOfNatToStr(a);
  }

  lemma PointedParts(d: string, ds: string)
    requires |d| > 0
    ensures var u := d + "." + ds;
      && u == d + ("." + ds) && u[0] == d[0] && u[|d|] == '.'
      && u[..|d|] == d && u[|d| + 1..] == ds + "" && u[|d| + 1..][..|ds|] == ds
  {
  }

  /** `normalize` for one record at position `idx`. */
  function NormalizeRecord(h: Host, r: Record, idx: nat): (p: Product)
    ensures p.id == idx + 1 && p.rawId == r.id && p.raw == Fields(r)
    ensures FirstTruthy(Props(Fields(r), NameKeys)).None? ==> p.name == Str(DefaultName(idx))
    ensures FirstTruthy(Props(Fields(r), NameKeys)).Some? ==>
      p.name == Prop(Fields(r), NameKeys[FirstTruthy(Props(Fields(r), NameKeys)).value])
    ensures var hits := Hits(Fields(r), ImageKeys, ExtractFirstUrl);
      && (FirstTruthy(hits).Some? ==> p.image == hits[FirstTruthy(hits).value])
      && (FirstTruthy(hits).None? ==> p.image == Undefined)
    ensures p.category == Category(h, Fields(r))
    ensures p.stock == Stock(h, Prop(Fields(r), "Bestand"))
    ensures p.manufacturer == Manufacturer(h, Fields(r))
    ensures p.price == Price(Prop(Fields(r), "Einzelpreis"))
    ensures p.description == PickField(Fields(r), DescriptionKeys, Str(""))
    ensures p.shortDescription == PickField(Fields(r), ShortDescriptionKeys, Str(""))
    ensures p.material == PickField(Fields(r), MaterialKeys, Str(""))
    ensures p.sku == PickField(Fields(r), SkuKeys, Str(""))
  {
    var f := Fields(r);
    Product(
      idx + 1,
      PickField(f, NameKeys, Str(DefaultName(idx))),
      Category(h, f),
      FirstHit(f, ImageKeys, ExtractFirstUrl),
      PickField(f, DescriptionKeys, Str("")),
      PickField(f, ShortDescriptionKeys, Str("")),
      PickField(f, MaterialKeys, Str("")),
      PickField(f, SkuKeys, Str("")),
      Stock(h, Prop(f, "Bestand")),
      Manufacturer(h, f),
      Price(Prop(f, "Einzelpreis")),
      r.id,
      f)
  }

  /** `normalize`: one product per record, in the records' order, numbered from 1. */
  function Normalize(h: Host, records: seq<Record>): (ps: seq<Product>)
    ensures |ps| == |records|
    ensures forall i :: 0 <= i < |ps| ==> ps[i] == NormalizeRecord(h, records[i], i)
    ensures forall i :: 0 <= i < |ps| ==> ps[i].id == i + 1 && ps[i].rawId == records[i].id
  {
    seq(|records|, i requires 0 <= i < |records| => NormalizeRecord(h, records[i], i))
  }

  /** The handler. All three variables are required, `AIRTABLE_PRODUCTS_TABLE` included; the
      single upstream call lists one page of the table. */
  function Handler(h: Host, verb: string, env: Env, fetched: Fetch): (r: (Response<Product>, seq<Call>))
    requires WellFormed(fetched)
    ensures verb != "GET" ==> r.0.status == 405 && r.0.allow == Some("GET") && r.1 == []
    ensures verb == "GET" && !(Configured(env.apiKey) && Configured(env.baseId) && Configured(env.table)) ==>
      r.0 == Response(500, None, Failure(NotConfigured, None)) && r.1 == []
    ensures r.1 != [] ==> r.1 == [ListRecords(env.baseId.value, env.table.value)]
    ensures r.0.status == 200 <==>
      verb == "GET" && Configured(env.apiKey) && Configured(env.baseId) && Configured(env.table)
      && fetched.Ok? && DecodeRecords(fetched.payload).Some?
    ensures r.0.status == 200 ==> r.0.body == Many(Normalize(h, DecodeRecords(fetched.payload).value))
  {
    var required := [env.apiKey, env.baseId, env.table];
    match Guard(verb, required)
    case Some(refusal) => (refusal, [])
    case None =>
      assert Configured(required[0]) && Configured(required[1]) && Configured(required[2]);
      ListResponse(ListRecords(env.baseId.value, env.table.value), fetched, rs => Normalize(h, rs))
  }
}
