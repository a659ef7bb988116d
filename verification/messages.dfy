/** Chat messages, as far as the prompt values and the dispatcher use them. */
module Messages {

  /** A chat message. `HumanMessage` carries the `example` flag, which defaults to false;
      every other message kind is described by its `type` string. */
  datatype Message =
    | HumanMessage(content: string, example: bool)
    | OtherMessage(kind: string, content: string)
  {
    /** The `type` field of the message. */
    function Type(): string {
      match this
      case HumanMessage(_, _) => "human"
      case OtherMessage(k, _) => k
    }
  }

  /** Builds a human message the way `HumanMessage(content=...)` does: `example` takes its default. */
  function NewHumanMessage(content: string): (m: Message)
    ensures m.Type() == "human"
    ensures m.HumanMessage? && m.content == content && !m.example
  {
    HumanMessage(content, false)
  }
}
