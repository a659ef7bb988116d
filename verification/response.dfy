/** The query `Response` record (`core/response/schema.py`). */
module Response {
  import opened Wrappers

  datatype Response = Response(response: Option<string>, metadata: Option<map<string, string>>)

  /** `Response(response)`: the metadata defaults to `None`. */
  function NewResponse(response: Option<string>): (r: Response)
    ensures r.metadata.None? && r.response == response
  {
    Response(response, None)
  }

  /** `__str__`: `self.response or "None"`. */
  function Str(r: Response): (s: string)
    ensures r.response.Some? && r.response.value != "" ==> s == r.response.value
    ensures r.response.None? || r.response.value == "" ==> s == "None"
    ensures s != ""
  {
    if r.response.Some? && r.response.value != "" then r.response.value else "None"
  }

  /** `sep.join(texts)`. */
  function Join(sep: string, texts: seq<string>): (s: string)
    ensures texts == [] ==> s == ""
    ensures |texts| == 1 ==> s == texts[0]
    decreases |texts|
  {
    if texts == [] then "" else if |texts| == 1 then texts[0] else texts[0] + sep + Join(sep, texts[1..])
  }

  /** `get_formatted_sources(length)`: no source texts are collected, so the result is
      empty whatever the length. */
  function GetFormattedSources(r: Response, length: int): (s: string)
    ensures s == ""
  {
    var texts: seq<string> := [];
    Join("\n\n", texts)
  }

  /** The string form never depends on the metadata, and an empty response prints like a
      missing one. */
  lemma StrIgnoresMetadata(r: Response, metadata: Option<map<string, string>>)
    ensures Str(r.(metadata := metadata)) == Str(r)
    ensures Str(Response(Some(""), metadata)) == Str(Response(None, metadata)) == "None"
  {
  }
}
