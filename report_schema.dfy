/**
 * The report records (sections with their provenance, key figures, the report wrapper) and the
 * JSON values the language model answers with.
 */
module ReportSchema {
  import opened Wrappers

  /** A decoded JSON value. */
  datatype Value =
    | Null
    | Bool(b: bool)
    | Int(i: int)
    | Float(x: real)
    | Str(s: string)
    | List(items: seq<Value>)
    | Object(fields: map<string, Value>)
  {
    /** Python truthiness: `None`, `False`, zero and empty strings, lists and dicts are false. */
    predicate Truthy() {
      match this
      case Null => false
      case Bool(b) => b
      case Int(i) => i != 0
      case Float(x) => x != 0.0
      case Str(s) => s != ""
      case List(xs) => xs != []
      case Object(m) => m != map[]
    }
  }

  /** A JSON dict. */
  type JsonObject = map<string, Value>

  /** `d.get(key, default)`. */
  function Get(d: JsonObject, key: string, default: Value): Value {
    if key in d then d[key] else default
  }

  /** `None` or an int, as a JSON value. */
  function IntOrNull(x: Option<int>): Value {
    match x
    case None => Null
    case Some(i) => Int(i)
  }

  /** `None` or a string, as a JSON value. */
  function StrOrNull(x: Option<string>): Value {
    match x
    case None => Null
    case Some(s) => Str(s)
  }

  /** A report section; `sources` holds one dict per piece of evidence (chunk id, pages, section). */
  datatype ReportSection = ReportSection(heading: string, content: string, sources: seq<JsonObject>)

  /** A key figure; `context` defaults to `""`. */
  datatype KeyFigure = KeyFigure(name: string, value: string, unit: string, context: string)

  datatype ReportModel = ReportModel(title: string, summary: string, sections: seq<ReportSection>,
                                     key_figures: seq<KeyFigure>, conclusion: string)

  /** The sources of a section dict: the list's dicts, `[]` when the key is absent. */
  function SourcesOf(d: JsonObject): Option<seq<JsonObject>> {
    if "sources" !in d then Some([])
    else if d["sources"].List? then ObjectsOf(d["sources"].items)
    else None
  }

  /**
   * `ReportSection(**d)`: the heading and content must be strings and the sources, which default
   * to `[]`, a list of dicts; other keys are ignored. Anything else is a validation error, `None` here.
   */
  function SectionOf(d: JsonObject): (r: Option<ReportSection>)
    ensures r.Some? <==> "heading" in d && d["heading"].Str? && "content" in d && d["content"].Str?
                         && ("sources" in d ==>
                               d["sources"].List? && forall k :: 0 <= k < |d["sources"].items| ==> d["sources"].items[k].Object?)
    ensures r.Some? ==> r.value.heading == d["heading"].s && r.value.content == d["content"].s
    ensures r.Some? && "sources" !in d ==> r.value.sources == []
    ensures r.Some? && "sources" in d ==>
              |r.value.sources| == |d["sources"].items|
              && forall k :: 0 <= k < |r.value.sources| ==> r.value.sources[k] == d["sources"].items[k].fields
  {
    if "heading" in d && d["heading"].Str? && "content" in d && d["content"].Str? then
      match SourcesOf(d)
      case Some(srcs) => Some(ReportSection(d["heading"].s, d["content"].s, srcs))
      case None => None
    else None
  }

  /** The dicts of a list whose items are all dicts, `None` when one is not. */
  function ObjectsOf(vs: seq<Value>): (r: Option<seq<JsonObject>>)
    ensures r.Some? <==> forall k :: 0 <= k < |vs| ==> vs[k].Object?
    ensures r.Some? ==> |r.value| == |vs| && forall k :: 0 <= k < |vs| ==> r.value[k] == vs[k].fields
  {
    if vs == [] then Some([])
    else
      match ObjectsOf(vs[..|vs| - 1])
      case None => None
      case Some(front) =>
        if vs[|vs| - 1].Object? then Some(front + [vs[|vs| - 1].fields]) else None
  }

  /**
   * `KeyFigure(**item)`: a dict whose name, value and unit are strings and whose context, when
   * present, is a string; anything else raises and is `None` here.
   */
  function FigureOf(item: Value): (r: Option<KeyFigure>)
    ensures r.Some? <==> item.Object? && "name" in item.fields && item.fields["name"].Str?
                         && "value" in item.fields && item.fields["value"].Str?
                         && "unit" in item.fields && item.fields["unit"].Str?
                         && ("context" in item.fields ==> item.fields["context"].Str?)
    ensures r.Some? ==> r.value.name == item.fields["name"].s && r.value.value == item.fields["value"].s
                        && r.value.unit == item.fields["unit"].s
                        && r.value.context == (if "context" in item.fields then item.fields["context"].s else "")
  {
    if item.Object? then
      var m := item.fields;
      if "name" in m && m["name"].Str? && "value" in m && m["value"].Str? && "unit" in m && m["unit"].Str?
         && ("context" in m ==> m["context"].Str?) then
        Some(KeyFigure(m["name"].s, m["value"].s, m["unit"].s, if "context" in m then m["context"].s else ""))
      else None
    else None
  }
}
