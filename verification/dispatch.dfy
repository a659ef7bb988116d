/** The generic event dispatcher (`handle_event`) and the coroutine drain (`_run_coros`). */
module Dispatch {
  import opened Wrappers
  import opened Messages
  import opened Callbacks

  const ChatModelStart: string := "on_chat_model_start"
  const LlmStart: string := "on_llm_start"
  const IgnoreLlm: string := "ignore_llm"

  /** What one dispatch did: every handler method invoked (fallback invocations included), the
      warnings logged, every batch handed to the coroutine drain, how many times the chat
      messages were flattened to strings, and the error that escaped, if any. */
  datatype Trace = Trace(
    calls: seq<Call>,
    warnings: seq<Warning>,
    drains: seq<seq<Coro>>,
    conversions: nat,
    raised: Option<Error>)

  /** The local state of the dispatch loop. */
  datatype LoopState = LoopState(
    calls: seq<Call>,
    warnings: seq<Warning>,
    drains: seq<seq<Coro>>,
    coros: seq<Coro>,
    messageStrings: Option<seq<string>>,
    conversions: nat,
    raised: Option<Error>)

  const Start: LoopState := LoopState([], [], [], [], None, 0, None)

  /** The handler is skipped when an ignore attribute is named and it is true on the handler. */
  predicate Skipped(h: Handler, ignore: Option<string>) {
    ignore.Some? && ignore.value in h.ignores
  }

  /** The handler's behaviour for `event`. An event it does not script falls to the base
      handler: not implemented for the chat event, a no-op for every other event. */
  function OutcomeOf(h: Handler, event: string): Outcome {
    if event in h.script then h.script[event]
    else if event == ChatModelStart then NotImplemented
    else Returns
  }

  /** The chat fallback can read its messages: `args[1]` exists and is a list of message lists. */
  predicate ChatArgsOk(args: seq<Value>) {
    |args| >= 2 && args[1].MessageBatches?
  }

  /** `[get_buffer_string(m) for m in batches]`; `bufferString` stands for `get_buffer_string`. */
  function BufferStrings(batches: seq<seq<Message>>, bufferString: seq<Message> -> string): (r: seq<string>)
    ensures |r| == |batches|
    ensures forall i :: 0 <= i < |batches| ==> r[i] == bufferString(batches[i])
  {
    seq(|batches|, i requires 0 <= i < |batches| => bufferString(batches[i]))
  }

  /** The positional arguments of the re-dispatched `on_llm_start`: the first argument, the
      flattened messages, then the rest unchanged. */
  function FallbackArgs(args: seq<Value>, strings: seq<string>): (r: seq<Value>)
    requires |args| >= 2
    ensures |r| == |args| && r[0] == args[0] && r[1] == Strs(strings)
    ensures r[2..] == args[2..]
  {
    [args[0], Strs(strings)] + args[2..]
  }

  /** Orders the mutual recursion: only the chat event re-dispatches, and only to `on_llm_start`. */
  function Rank(event: string): nat {
    if event == ChatModelStart then 1 else 0
  }

  /** The log of one drain: the coroutine ids run, in order, and the failures logged. */
  datatype DrainReport = DrainReport(ran: seq<nat>, warnings: seq<Warning>)

  /** `_run_coros`: runs every coroutine in turn; one that raises is logged and the next one is
      still run. Nothing escapes: the result has no error part. */
  function RunCoros(coros: seq<Coro>): (r: DrainReport)
    ensures |r.ran| == |coros|
    ensures forall i :: 0 <= i < |coros| ==> r.ran[i] == coros[i].id
    ensures |r.warnings| <= |coros|
    ensures (forall i :: 0 <= i < |coros| ==> coros[i].failure.None?) <==> r.warnings == []
    ensures forall w :: w in r.warnings ==>
              exists i :: 0 <= i < |coros| && coros[i].failure.Some? && w == CoroutineFailed(coros[i].id, coros[i].failure.value)
  {
    if coros == [] then DrainReport([], [])
    else
      var rest := RunCoros(coros[1..]);
      var logged := match coros[0].failure
        case Some(m) => [CoroutineFailed(coros[0].id, m)]
        case None => [];
      DrainReport([coros[0].id] + rest.ran, logged + rest.warnings)
  }

  /** `handle_event(handlers, event, ignore, *args, **kwargs)`. The loop runs the handlers in
      order and stops at the first error that escapes; the `finally` block then hands the
      collected coroutines, if any, to the drain exactly once. */
  function HandleEvent(
    hs: seq<Handler>, event: string, ignore: Option<string>,
    args: seq<Value>, kwargs: map<string, Value>, bufferString: seq<Message> -> string): (t: Trace)
    ensures t.conversions <= 1
    ensures event != ChatModelStart ==> t.conversions == 0
    decreases Rank(event), |hs|, 2
  {
    var st := Loop(hs, event, ignore, args, kwargs, bufferString, Start);
    if st.coros == [] then
      Trace(st.calls, st.warnings, st.drains, st.conversions, st.raised)
    else
      Trace(st.calls, st.warnings + RunCoros(st.coros).warnings, st.drains + [st.coros],
            st.conversions, st.raised)
  }

  /** The `for handler in handlers` loop; it is left early by an escaping error. */
  function Loop(
    hs: seq<Handler>, event: string, ignore: Option<string>,
    args: seq<Value>, kwargs: map<string, Value>, bufferString: seq<Message> -> string,
    st: LoopState): (r: LoopState)
    requires st.messageStrings.Some? ==> ChatArgsOk(args)
    requires st.conversions == (if st.messageStrings.Some? then 1 else 0)
    requires event != ChatModelStart ==> st.messageStrings.None?
    ensures r.messageStrings.Some? ==> ChatArgsOk(args)
    ensures r.conversions == (if r.messageStrings.Some? then 1 else 0)
    ensures event != ChatModelStart ==> r.messageStrings.None?
    decreases Rank(event), |hs|, 1
  {
    if hs == [] || st.raised.Some? then st
    else Loop(hs[1..], event, ignore, args, kwargs, bufferString,
              Step(hs[0], event, ignore, args, kwargs, bufferString, st))
  }

  /** One iteration of the loop: the body of the `try` and its two `except` clauses. */
  function Step(
    h: Handler, event: string, ignore: Option<string>,
    args: seq<Value>, kwargs: map<string, Value>, bufferString: seq<Message> -> string,
    st: LoopState): (r: LoopState)
    requires st.raised.None?
    requires st.messageStrings.Some? ==> ChatArgsOk(args)
    requires st.conversions == (if st.messageStrings.Some? then 1 else 0)
    requires event != ChatModelStart ==> st.messageStrings.None?
    ensures r.messageStrings.Some? ==> ChatArgsOk(args)
    ensures r.conversions == (if r.messageStrings.Some? then 1 else 0)
    ensures event != ChatModelStart ==> r.messageStrings.None?
    decreases Rank(event), 0, 0
  {
    if Skipped(h, ignore) then st
    else
      var st1 := st.(calls := st.calls + [Call(h.id, event, args, kwargs)]);
      match OutcomeOf(h, event)
      case Returns => st1
      case Coroutine(c) => st1.(coros := st1.coros + [c])
      case Fails(m) =>
        var st2 := st1.(warnings := st1.warnings + [ErrorIn(h.id, event, m)]);
        if h.raiseError then st2.(raised := Some(Raised(m))) else st2
      case NotImplemented =>
        if event != ChatModelStart then
          st1.(warnings := st1.warnings + [NotImplementedIn(h.id, event)])
        else if st1.messageStrings.None? && |args| < 2 then
          st1.(raised := Some(ArgIndexError))
        else if st1.messageStrings.None? && !args[1].MessageBatches? then
          st1.(raised := Some(ArgTypeError))
        else
          var strings :=
            if st1.messageStrings.Some? then st1.messageStrings.value
            else BufferStrings(args[1].batches, bufferString);
          var nested := HandleEvent([h], LlmStart, Some(IgnoreLlm),
                                    FallbackArgs(args, strings), kwargs, bufferString);
          st1.(calls := st1.calls + nested.calls,
               warnings := st1.warnings + nested.warnings,
               drains := st1.drains + nested.drains,
               messageStrings := Some(strings),
               conversions := st1.conversions + (if st1.messageStrings.None? then 1 else 0),
               raised := nested.raised)
  }
}
