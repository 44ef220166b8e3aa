/** What the two detail pages share: searching a parsed JSON list with `find`, the outcome of a
    page load, and the `raw.fields || raw || {}` rule for reaching the Airtable fields of an
    item. */
module PageData {
  import opened Wrappers
  import opened Js
  import opened Seqs

  /** What `items.find(p)` does with a list of parsed JSON values when `p` reads a property of
      its argument: reading a property of `null` or `undefined` throws before any later element
      is looked at. */
  datatype Search = Hit(item: Value) | Miss | Throws

  function SearchFor(items: seq<Value>, p: Value -> bool): (r: Search)
    ensures r.Hit? ==> exists i :: (0 <= i < |items| && items[i] == r.item && p(r.item)
      && forall j :: 0 <= j < i ==> !IsNullish(items[j]) && !p(items[j]))
    ensures r.Miss? <==> forall i :: 0 <= i < |items| ==> !IsNullish(items[i]) && !p(items[i])
    ensures r.Hit? ==> !IsNullish(r.item)
    ensures (forall i :: 0 <= i < |items| ==> !IsNullish(items[i])) ==> !r.Throws?
  {
    if |items| == 0 then Miss
    else if IsNullish(items[0]) then Throws
    else if p(items[0]) then Hit(items[0])
    else
      var r := SearchFor(items[1..], p);
      if r.Hit? then
        ghost var i :| 0 <= i < |items[1..]| && items[1..][i] == r.item && p(r.item)
          && forall j :: 0 <= j < i ==> !IsNullish(items[1..][j]) && !p(items[1..][j]);
        assert items[i + 1] == r.item;
        r
      else
        assert r.Miss? ==> forall i :: 1 <= i < |items| ==> items[i] == items[1..][i - 1];
        r
  }

  /** On a list without `null` or `undefined` entries the search is plain `find`. */
  lemma {:induction false} SearchIsFind(items: seq<Value>, p: Value -> bool)
    requires forall i :: 0 <= i < |items| ==> !IsNullish(items[i])
    ensures !SearchFor(items, p).Throws?
    ensures SearchFor(items, p).Hit? <==> Find(items, p).Some?
    ensures SearchFor(items, p).Hit? ==> SearchFor(items, p).item == Find(items, p).value
  {
    if |items| > 0 {
      SearchIsFind(items[1..], p);
      if !p(items[0]) {
        FindSkip(items, p);
      }
    }
  }

  /** The search returns the first element satisfying `p` when no `null` or `undefined`
      comes before it; later elements are never looked at. */
  lemma {:induction false} SearchFirst(items: seq<Value>, p: Value -> bool, i: nat)
    requires i < |items| && p(items[i]) && !IsNullish(items[i])
    requires forall j :: 0 <= j < i ==> !IsNullish(items[j]) && !p(items[j])
    ensures SearchFor(items, p) == Hit(items[i])
  {
    if i > 0 {
      assert forall j :: 0 <= j < i - 1 ==> items[1..][j] == items[j + 1];
      SearchFirst(items[1..], p, i - 1);
    }
  }

  /** What a detail page ends up showing: the item, "not found", or an error message. */
  datatype Loaded = Shown(item: Value) | NotFound | Failed(error: string)

  /** `item?.raw?.fields || item?.raw || {}`. */
  function RawFields(item: Value): (f: Value)
    ensures Truthy(Path(item, ["raw", "fields"])) ==> f == Path(item, ["raw", "fields"])
    ensures !Truthy(Path(item, ["raw", "fields"])) && Truthy(Prop(item, "raw")) ==> f == Prop(item, "raw")
    ensures !Truthy(Path(item, ["raw", "fields"])) && !Truthy(Prop(item, "raw")) ==> f == Obj([])
    ensures Truthy(f)
  {
    OrChain([Path(item, ["raw", "fields"]), Prop(item, "raw")], Obj([]))
  }
}
