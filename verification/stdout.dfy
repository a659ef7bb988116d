/** The chain-name selection of `StdOutCallbackHandler.on_chain_start`
    (`core/callbacks/stdout.py`). */
module StdOut {
  import opened Wrappers

  /** A value in the serialized description of a chain. */
  datatype Serial = Text(s: string) | TextList(items: seq<string>) | Other

  /** Why indexing `[-1]` fails: an empty list or string, or a value that cannot be indexed. */
  datatype LookupError = IndexError | TypeError

  const Unknown := "<unknown>"

  /** `value[-1]`. */
  function Last(v: Serial): (r: Result<Serial, LookupError>)
    ensures r.Success? <==> (v.Text? && v.s != "") || (v.TextList? && v.items != [])
    ensures v.Text? && v.s != "" ==> r == Success(Text([v.s[|v.s| - 1]]))
    ensures v.TextList? && v.items != [] ==> r == Success(Text(v.items[|v.items| - 1]))
  {
    match v
    case Text(s) => if s == "" then Failure(IndexError) else Success(Text([s[|s| - 1]]))
    case TextList(items) => if items == [] then Failure(IndexError) else Success(Text(items[|items| - 1]))
    case Other => Failure(TypeError)
  }

  /** `serialized.get("name", serialized.get("id", ["<unknown>"])[-1])`. Python evaluates the
      default before the lookup, so a bad "id" fails even when "name" is present. */
  function ClassName(serialized: map<string, Serial>): (r: Result<Serial, LookupError>)
    ensures r.Failure? <==> "id" in serialized && Last(serialized["id"]).Failure?
    ensures r.Success? && "name" in serialized ==> r.value == serialized["name"]
    ensures "name" !in serialized && "id" in serialized ==> r == Last(serialized["id"])
    ensures "name" !in serialized && "id" !in serialized ==> r == Success(Text(Unknown))
  {
    var default := Last(if "id" in serialized then serialized["id"] else TextList([Unknown]));
    if default.Failure? then Failure(default.error)
    else if "name" in serialized then Success(serialized["name"])
    else default
  }

  /** The eager default: a present name does not save an empty id list. */
  lemma EagerIdDefault(name: string)
    ensures ClassName(map["name" := Text(name), "id" := TextList([])]) == Failure(IndexError)
    ensures ClassName(map["name" := Text(name), "id" := TextList(["pkg", "Chain"])]) == Success(Text(name))
    ensures ClassName(map["id" := TextList(["pkg", "Chain"])]) == Success(Text("Chain"))
  {
  }
}
