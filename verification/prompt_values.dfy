/** String prompt values (`core/prompt_values.py`) and their chat-message form. */
module PromptValues {
  import opened Messages

  /** The two prompt-value classes, for their class-level constants. */
  datatype PromptClass = PromptValueClass | StringPromptValueClass

  /** `get_lc_namespace()`: the subclass overrides the base class's namespace. */
  function LcNamespace(c: PromptClass): (ns: seq<string>)
    ensures |ns| == 3 && ns[0] == "langchain"
    ensures c == PromptValueClass ==> ns[1..] == ["schema", "prompt"]
    ensures c == StringPromptValueClass ==> ns[1..] == ["prompts", "base"]
  {
    match c
    case PromptValueClass => ["langchain", "schema", "prompt"]
    case StringPromptValueClass => ["langchain", "prompts", "base"]
  }

  /** A `StringPromptValue`: its text; its `type` field is the constant below. */
  datatype StringPromptValue = StringPromptValue(text: string)

  const StringPromptValueType := "StringPromptValue"

  function ToString(p: StringPromptValue): (s: string)
    ensures s == p.text
  {
    p.text
  }

  /** `to_messages()`: exactly one human message, not an example, holding the text. */
  function ToMessages(p: StringPromptValue): (ms: seq<Message>)
    ensures |ms| == 1
    ensures ms[0].Type() == "human" && ms[0].HumanMessage? && !ms[0].example
    ensures ms[0].content == ToString(p)
  {
    [NewHumanMessage(p.text)]
  }

  /** The two renderings agree, and the text is recovered from the message form. */
  lemma MessagesRoundTrip(p: StringPromptValue)
    ensures StringPromptValue(ToMessages(p)[0].content) == p
    ensures forall q :: ToMessages(q) == ToMessages(p) ==> q == p
  {
    forall q | ToMessages(q) == ToMessages(p) ensures q == p {
      assert ToMessages(q)[0].content == q.text;
    }
  }

  /** The subclass overrides the namespace: it differs from the base's. */
  lemma NamespacesDiffer()
    ensures LcNamespace(StringPromptValueClass) != LcNamespace(PromptValueClass)
  {
    assert LcNamespace(StringPromptValueClass)[1] != LcNamespace(PromptValueClass)[1];
  }
}
