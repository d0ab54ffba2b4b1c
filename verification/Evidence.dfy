/** What the agent's tools returned: citable evidence, its metadata and its images. */
module Evidence {
  import opened Options

  /** A decoded JSON value. */
  datatype Json =
    | Null
    | Bool(b: bool)
    | Int(n: int)
    | Float(x: real)
    | Str(s: string)
    | Arr(items: seq<Json>)
    | Obj(fields: Fields)

  type Fields = map<string, Json>

  /** dict.get. */
  function Get(fields: Fields, key: string): Json {
    if key in fields then fields[key] else Null
  }

  predicate Truthy(j: Json) {
    match j
    case Null => false
    case Bool(b) => b
    case Int(n) => n != 0
    case Float(x) => x != 0.0
    case Str(s) => s != ""
    case Arr(items) => items != []
    case Obj(fields) => fields != map[]
  }

  /** Library functions the loop calls and this model does not open: a JSON parser, str(), and the
      query normaliser. */
  datatype Library = Library(
    parse: string -> Option<Json>,
    render: Json -> string,
    normalize: string -> string)

  datatype Citation = Citation(evidenceId: string, url: string, pageTitle: Json, sectionTitle: Json, commit: Json)

  datatype Gathered = Gathered(
    citations: map<string, Citation>, metadata: map<string, Fields>, images: map<string, seq<Fields>>)

  const Nothing := Gathered(map[], map[], map[])

  function Items(output: Json): seq<Json> {
    if output.Arr? then output.items else [output]
  }

  /** A tool result that can be cited: it has an evidence id and a citation with a url. */
  predicate Citable(item: Json) {
    && item.Obj?
    && Get(item.fields, "evidence_id").Str?
    && Get(item.fields, "citation").Obj?
    && Get(Get(item.fields, "citation").fields, "url").Str?
  }

  function CitationOf(item: Json): Citation
    requires Citable(item)
  {
    var c := Get(item.fields, "citation").fields;
    Citation(Get(item.fields, "evidence_id").s, Get(c, "url").s,
             Get(c, "page_title"), Get(c, "section_title"), Get(c, "source_commit"))
  }

  function MetadataOf(item: Json): Fields
    requires item.Obj?
  {
    if Get(item.fields, "metadata").Obj? then Get(item.fields, "metadata").fields else map[]
  }

  function Objects(items: seq<Json>): seq<Fields> {
    if items == [] then [] else (if items[0].Obj? then [items[0].fields] else []) + Objects(items[1..])
  }

  function ImagesOf(item: Json): seq<Fields>
    requires item.Obj?
  {
    if Get(item.fields, "images").Arr? then Objects(Get(item.fields, "images").items) else []
  }

  /** A later result with the same id replaces an earlier one. */
  function WithItem(g: Gathered, item: Json): Gathered {
    if !Citable(item) then g
    else
      var id := CitationOf(item).evidenceId;
      Gathered(g.citations[id := CitationOf(item)], g.metadata[id := MetadataOf(item)], g.images[id := ImagesOf(item)])
  }

  function WithItems(g: Gathered, items: seq<Json>): Gathered
    decreases |items|
  {
    if items == [] then g else WithItems(WithItem(g, items[0]), items[1..])
  }

  function EvidenceOf(outputs: seq<Json>): Gathered
    decreases |outputs|
  {
    if outputs == [] then Nothing
    else WithItems(EvidenceOf(outputs[..|outputs| - 1]), Items(outputs[|outputs| - 1]))
  }

  /** The dictionaries a turn fills as its tools answer. */
  class EvidenceStore {
    var citations: map<string, Citation>
    var metadata: map<string, Fields>
    var images: map<string, seq<Fields>>

    constructor ()
      ensures Value() == Nothing
    {
      citations, metadata, images := map[], map[], map[];
    }

    function Value(): Gathered
      reads this
    {
      Gathered(citations, metadata, images)
    }

    method Collect(output: Json)
      modifies this
      ensures Value() == WithItems(old(Value()), Items(output))
    {
      var items := Items(output);
      assert items[0..] == items;
      for i := 0 to |items|
        invariant WithItems(Value(), items[i..]) == WithItems(old(Value()), items)
      {
        var item := items[i];
        assert items[i..][0] == item && items[i..][1..] == items[i + 1..];
        ghost var before := Value();
        if Citable(item) {
          var citation := CitationOf(item);
          citations := citations[citation.evidenceId := citation];
          metadata := metadata[citation.evidenceId := MetadataOf(item)];
          images := images[citation.evidenceId := ImagesOf(item)];
        }
        assert Value() == WithItem(before, item);
      }
    }
  }

  // --- Where evidence comes from ----------------------------------------------------------------------

  /** Entry `id` is exactly what `item` says. */
  ghost predicate Says(item: Json, g: Gathered, id: string) {
    && Citable(item) && CitationOf(item).evidenceId == id
    && id in g.citations && g.citations[id] == CitationOf(item)
    && id in g.metadata && g.metadata[id] == MetadataOf(item)
    && id in g.images && g.images[id] == ImagesOf(item)
  }

  predicate Among(item: Json, outputs: seq<Json>) {
    exists k :: 0 <= k < |outputs| && item in Items(outputs[k])
  }

  /** Every entry was returned by some executed tool. */
  ghost predicate Sourced(g: Gathered, outputs: seq<Json>) {
    && g.citations.Keys == g.metadata.Keys == g.images.Keys
    && forall id <- g.citations.Keys :: exists item :: Among(item, outputs) && Says(item, g, id)
  }

  lemma SourcedItem(g: Gathered, outputs: seq<Json>, item: Json)
    requires Sourced(g, outputs) && Among(item, outputs)
    ensures Sourced(WithItem(g, item), outputs)
  {
    hide Among, Citable, MetadataOf, ImagesOf, Get;
    var out := WithItem(g, item);
    forall id | id in out.citations.Keys ensures exists i :: Among(i, outputs) && Says(i, out, id) {
      if Citable(item) && CitationOf(item).evidenceId == id {
        assert Says(item, out, id);
      } else {
        var i :| Among(i, outputs) && Says(i, g, id);
        assert Says(i, out, id);
      }
    }
  }

  lemma {:induction false} SourcedItems(g: Gathered, outputs: seq<Json>, items: seq<Json>)
    requires Sourced(g, outputs) && forall item :: item in items ==> Among(item, outputs)
    ensures Sourced(WithItems(g, items), outputs)
    decreases |items|
  {
    hide Sourced, Among, WithItem;
    if items != [] {
      assert items[0] in items;
      SourcedItem(g, outputs, items[0]);
      SourcedItems(WithItem(g, items[0]), outputs, items[1..]);
    }
  }

  lemma SourcedMore(g: Gathered, outputs: seq<Json>, output: Json)
    requires Sourced(g, outputs)
    ensures Sourced(g, outputs + [output])
  {
    hide Says;
    var more := outputs + [output];
    forall id | id in g.citations.Keys ensures exists item :: Among(item, more) && Says(item, g, id) {
      var item :| Among(item, outputs) && Says(item, g, id);
      var k :| 0 <= k < |outputs| && item in Items(outputs[k]);
      assert more[k] == outputs[k] && Among(item, more);
    }
  }

  /** All evidence of a turn was returned by a tool executed in that turn. */
  lemma {:induction false} EvidenceIsSourced(outputs: seq<Json>)
    ensures Sourced(EvidenceOf(outputs), outputs)
    decreases |outputs|
  {
    hide Says, Items, WithItems;
    if outputs != [] {
      var rest, last := outputs[..|outputs| - 1], outputs[|outputs| - 1];
      EvidenceIsSourced(rest);
      SourcedMore(EvidenceOf(rest), rest, last);
      assert rest + [last] == outputs;
      forall item | item in Items(last) ensures Among(item, outputs) {
        assert outputs[|outputs| - 1] == last;
      }
      SourcedItems(EvidenceOf(rest), outputs, Items(last));
    }
  }
}
