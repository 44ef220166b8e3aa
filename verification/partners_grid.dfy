/** The partners grid (`src/components/PartnersGrid.tsx`): which list of partners it shows (the
    explicit prop, else the partners context, else the bundled samples), how many, and where each
    card's details link points. Partners arrive as parsed JSON values. */
module PartnersGrid {
  import opened Wrappers
  import opened Js
  import opened Seqs

  const DefaultCount := 4

  /** The list shown before slicing. `prop` is the `partners` prop (`None` when not passed);
      `context` the provider's partners (`None` when there is no provider, so `usePartners`
      throws and the grid continues with `[]`); `sample` the bundled sample partners. */
  function Source(prop: Option<seq<Value>>, context: Option<seq<Value>>, sample: seq<Value>): (r: seq<Value>)
    ensures prop.Some? && |prop.value| > 0 ==> r == prop.value
    ensures !(prop.Some? && |prop.value| > 0) && context.Some? && |context.value| > 0 ==> r == context.value
    ensures !(prop.Some? && |prop.value| > 0) && !(context.Some? && |context.value| > 0) ==> r == sample
  {
    var fromContext := context.GetOr([]);
    if prop.Some? && |prop.value| > 0 then prop.value
    else if |fromContext| > 0 then fromContext
    else sample
  }

  /** The grid is never empty while the samples are not: an empty prop or context, or none at
      all, falls through. */
  lemma SourceNonEmpty(prop: Option<seq<Value>>, context: Option<seq<Value>>, sample: seq<Value>)
    requires |sample| > 0
    ensures |Source(prop, context, sample)| > 0
  {
  }

  /** The cards rendered: `list.slice(0, count)`, with `count` defaulting to 4. */
  function Cards(prop: Option<seq<Value>>, context: Option<seq<Value>>, sample: seq<Value>, count: Option<int>): (r: seq<Value>)
    ensures var list := Source(prop, context, sample);
      |r| <= |list| && r == list[..|r|]
    ensures count.None? ==> |r| == if |Source(prop, context, sample)| < DefaultCount then |Source(prop, context, sample)| else DefaultCount
    ensures count.Some? && count.value >= 0 ==>
      |r| == if |Source(prop, context, sample)| < count.value then |Source(prop, context, sample)| else count.value
  {
    Take(Source(prop, context, sample), count.GetOr(DefaultCount))
  }

  /** The id of a partner's section on the partners page, `partner-${p.id}`. */
  function SectionId(h: Host, p: Value): (id: string)
    ensures |id| >= |"partner-"| && id[..|"partner-"|] == "partner-"
  {
    "partner-" + ToStr(h, Prop(p, "id"))
  }

  const PagePrefix := "/partners#"

  /** A card's details link, `/partners#partner-${p.id}`: its fragment is the section id of the
      same partner, so following it scrolls to that partner's section. */
  function DetailsHref(h: Host, p: Value): (href: string)
    ensures |href| >= |PagePrefix| && href[..|PagePrefix|] == PagePrefix
    ensures href[|PagePrefix|..] == SectionId(h, p)
  {
    PagePrefix + SectionId(h, p)
  }

  /** Two partners with different ids get different links. */
  lemma HrefsDistinguishPartners(h: Host, p: Value, q: Value)
    requires ToStr(h, Prop(p, "id")) != ToStr(h, Prop(q, "id"))
    ensures DetailsHref(h, p) != DetailsHref(h, q)
  {
    var n := |PagePrefix| + |"partner-"|;
    assert SectionId(h, p)[|"partner-"|..] == ToStr(h, Prop(p, "id"));
    assert SectionId(h, q)[|"partner-"|..] == ToStr(h, Prop(q, "id"));
    assert DetailsHref(h, p)[n..] == SectionId(h, p)[|"partner-"|..];
    assert DetailsHref(h, q)[n..] == SectionId(h, q)[|"partner-"|..];
  }
}
