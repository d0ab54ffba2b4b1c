/** What the dictionaries hold of what the tools returned: for each id, the last item that files it. */
module EvidenceFacts {
  import opened Evidence

  /** What one tool returned: the items of a list, or the value itself. */
  function Returned(output: Json): seq<Json> {
    match output
    case Arr(items) => items
    case _ => [output]
  }

  /** Everything returned, in order. */
  function All(outputs: seq<Json>): seq<Json> {
    if outputs == [] then [] else All(outputs[..|outputs| - 1]) + Returned(outputs[|outputs| - 1])
  }

  /** The item is an object with an evidence id and a citation that has an address. */
  predicate Files(item: Json, id: string) {
    && item.Obj? && "evidence_id" in item.fields && item.fields["evidence_id"] == Str(id)
    && "citation" in item.fields && item.fields["citation"].Obj?
    && "url" in item.fields["citation"].fields && item.fields["citation"].fields["url"].Str?
  }

  predicate Given(j: Json, fields: Fields, key: string) {
    if key in fields then j == fields[key] else j == Null
  }

  /** The objects of a list, in order. */
  predicate ObjectsOf(items: seq<Json>, fields: seq<Fields>) {
    if items == [] then fields == []
    else if items[0].Obj? then fields != [] && fields[0] == items[0].fields && ObjectsOf(items[1..], fields[1..])
    else ObjectsOf(items[1..], fields)
  }

  /** What is kept of the item: its address, titles and commit; its metadata; its images. */
  predicate Entered(g: Gathered, id: string, item: Json)
    requires Files(item, id)
  {
    && id in g.citations && id in g.metadata && id in g.images
    && var c, fields, cited := g.citations[id], item.fields, item.fields["citation"].fields;
       && c.evidenceId == id && Str(c.url) == cited["url"]
       && Given(c.pageTitle, cited, "page_title") && Given(c.sectionTitle, cited, "section_title")
       && Given(c.commit, cited, "source_commit")
       && (if "metadata" in fields && fields["metadata"].Obj? then g.metadata[id] == fields["metadata"].fields
           else g.metadata[id] == map[])
       && (if "images" in fields && fields["images"].Arr? then ObjectsOf(fields["images"].items, g.images[id])
           else g.images[id] == [])
  }

  predicate Absent(g: Gathered, id: string) { id !in g.citations && id !in g.metadata && id !in g.images }

  lemma {:induction false} ItemsOn(g: Gathered, a: seq<Json>, b: seq<Json>)
    ensures WithItems(g, a + b) == WithItems(WithItems(g, a), b)
    decreases |a|
  {
    hide WithItem;
    if a == [] {
      assert a + b == b;
    } else {
      assert (a + b)[0] == a[0] && (a + b)[1..] == a[1..] + b;
      ItemsOn(WithItem(g, a[0]), a[1..], b);
    }
  }

  lemma {:induction false} EvidenceOfAll(outputs: seq<Json>)
    ensures EvidenceOf(outputs) == WithItems(Nothing, All(outputs))
    decreases |outputs|
  {
    hide WithItems;
    if outputs == [] {
      NoItems();
    } else {
      var rest, last := outputs[..|outputs| - 1], outputs[|outputs| - 1];
      EvidenceOfAll(rest);
      ItemsOn(Nothing, All(rest), Items(last));
    }
  }

  lemma NoItems()
    ensures WithItems(Nothing, []) == Nothing
  {
  }

  lemma ItemLast(g: Gathered, items: seq<Json>, item: Json)
    ensures WithItems(g, items + [item]) == WithItem(WithItems(g, items), item)
  {
    hide WithItem;
    ItemsOn(g, items, [item]);
    assert [item][1..] == [];
  }

  lemma {:induction false} ObjectsThem(items: seq<Json>)
    ensures ObjectsOf(items, Objects(items))
    decreases |items|
  {
    if items != [] {
      ObjectsThem(items[1..]);
      var rest := Objects(items[1..]);
      assert items[0].Obj? ==> ([items[0].fields] + rest)[1..] == rest;
      assert [] + rest == rest;
    }
  }

  lemma OneItem(g: Gathered, item: Json, id: string)
    ensures Files(item, id) ==> Entered(WithItem(g, item), id, item)
    ensures !Files(item, id) ==>
      var out := WithItem(g, item);
      && (id in out.citations <==> id in g.citations) && (id in g.citations ==> out.citations[id] == g.citations[id])
      && (id in out.metadata <==> id in g.metadata) && (id in g.metadata ==> out.metadata[id] == g.metadata[id])
      && (id in out.images <==> id in g.images) && (id in g.images ==> out.images[id] == g.images[id])
  {
    if Files(item, id) {
      assert Citable(item) && CitationOf(item).evidenceId == id;
      if Get(item.fields, "images").Arr? { ObjectsThem(Get(item.fields, "images").items); }
    } else if Citable(item) {
      assert CitationOf(item).evidenceId != id;
    }
  }

  lemma {:induction false} LastEntered(items: seq<Json>, id: string, k: nat)
    requires k < |items| && Files(items[k], id) && forall l :: k < l < |items| ==> !Files(items[l], id)
    ensures Entered(WithItems(Nothing, items), id, items[k])
    decreases |items|
  {
    hide WithItem, Files;
    var n := |items| - 1;
    assert items == items[..n] + [items[n]];
    ItemLast(Nothing, items[..n], items[n]);
    OneItem(WithItems(Nothing, items[..n]), items[n], id);
    if k < n { LastEntered(items[..n], id, k); }
  }

  lemma {:induction false} NoneEntered(items: seq<Json>, id: string)
    requires forall l :: 0 <= l < |items| ==> !Files(items[l], id)
    ensures Absent(WithItems(Nothing, items), id)
    decreases |items|
  {
    hide WithItem, Files;
    if items != [] {
      var n := |items| - 1;
      assert items == items[..n] + [items[n]];
      ItemLast(Nothing, items[..n], items[n]);
      OneItem(WithItems(Nothing, items[..n]), items[n], id);
      NoneEntered(items[..n], id);
    }
  }

  /** An id is in the evidence exactly when something returned files it, and the dictionaries then hold
      what the last to do so says. */
  lemma EvidenceIs(outputs: seq<Json>, id: string)
    ensures var g, items := EvidenceOf(outputs), All(outputs);
      && ((forall l :: 0 <= l < |items| ==> !Files(items[l], id)) ==> Absent(g, id))
      && forall k: nat ::
           k < |items| && Files(items[k], id) && (forall l :: k < l < |items| ==> !Files(items[l], id)) ==>
             Entered(g, id, items[k])
  {
    hide EvidenceOf, All, Files, Entered, Absent, WithItems;
    EvidenceOfAll(outputs);
    var items := All(outputs);
    if forall l :: 0 <= l < |items| ==> !Files(items[l], id) { NoneEntered(items, id); }
    forall k: nat | k < |items| && Files(items[k], id) && (forall l :: k < l < |items| ==> !Files(items[l], id))
      ensures Entered(EvidenceOf(outputs), id, items[k])
    {
      LastEntered(items, id, k);
    }
  }
}
