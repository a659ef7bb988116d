/** A reference description of `handle_event`, handler by handler, and the lemmas that tie
    the dispatcher to it. */
module DispatchSpec {
  import opened Wrappers
  import opened Messages
  import opened Callbacks
  import opened Dispatch

  /** What handling one event contributes to a dispatch. */
  datatype Effect = Effect(calls: seq<Call>, warnings: seq<Warning>, drains: seq<seq<Coro>>, coros: seq<Coro>)

  const NoEffect: Effect := Effect([], [], [], [])

  /** One effect followed by another. */
  function Then(a: Effect, b: Effect): Effect {
    Effect(a.calls + b.calls, a.warnings + b.warnings, a.drains + b.drains, a.coros + b.coros)
  }

  /** The drain batches a `finally` block produces: one batch, or none when nothing was collected. */
  function Batch(coros: seq<Coro>): seq<seq<Coro>> {
    if coros == [] then [] else [coros]
  }

  /** The warnings such a drain logs. */
  function DrainLog(coros: seq<Coro>): seq<Warning> {
    if coros == [] then [] else RunCoros(coros).warnings
  }

  /** The handler takes the chat fallback: it is not skipped, its chat method is not
      implemented, and the messages can be read. */
  predicate FallsBack(h: Handler, event: string, ignore: Option<string>, args: seq<Value>) {
    !Skipped(h, ignore) && OutcomeOf(h, event) == NotImplemented && event == ChatModelStart && ChatArgsOk(args)
  }

  /** What one handler contributes, described per outcome. A chat fallback contributes the
      chat call, then what the handler does for `on_llm_start` with flattened messages,
      followed by that single-handler dispatch's own drain. */
  function HandlerEffect(
    h: Handler, event: string, ignore: Option<string>,
    args: seq<Value>, kwargs: map<string, Value>, bufferString: seq<Message> -> string): Effect
    decreases Rank(event)
  {
    if Skipped(h, ignore) then NoEffect
    else
      var call := [Call(h.id, event, args, kwargs)];
      match OutcomeOf(h, event)
      case Returns => Effect(call, [], [], [])
      case Coroutine(c) => Effect(call, [], [], [c])
      case Fails(m) => Effect(call, [ErrorIn(h.id, event, m)], [], [])
      case NotImplemented =>
        if event != ChatModelStart then Effect(call, [NotImplementedIn(h.id, event)], [], [])
        else if !ChatArgsOk(args) then Effect(call, [], [], [])
        else
          var n := HandlerEffect(h, LlmStart, Some(IgnoreLlm),
                                 FallbackArgs(args, BufferStrings(args[1].batches, bufferString)),
                                 kwargs, bufferString);
          Effect(call + n.calls, n.warnings + DrainLog(n.coros), n.drains + Batch(n.coros), [])
  }

  /** The effects of a list of handlers, in list order. */
  function ListEffect(
    hs: seq<Handler>, event: string, ignore: Option<string>,
    args: seq<Value>, kwargs: map<string, Value>, bufferString: seq<Message> -> string): Effect
  {
    if hs == [] then NoEffect
    else Then(HandlerEffect(hs[0], event, ignore, args, kwargs, bufferString),
              ListEffect(hs[1..], event, ignore, args, kwargs, bufferString))
  }

  /** The error a handler's own method raises and that it is configured to re-raise. */
  function OwnError(h: Handler, event: string, ignore: Option<string>): Option<Error> {
    if Skipped(h, ignore) then None
    else match OutcomeOf(h, event)
      case Fails(m) => if h.raiseError then Some(Raised(m)) else None
      case _ => None
  }

  /** The error that escapes when this handler is dispatched to. In the chat fallback, an
      unreadable `args[1]` and an error re-raised by the nested dispatch escape whatever the
      handler's `raise_error` says, because they are raised inside the `except` clause. */
  function PropagatedError(h: Handler, event: string, ignore: Option<string>, args: seq<Value>): Option<Error> {
    if !Skipped(h, ignore) && OutcomeOf(h, event) == NotImplemented && event == ChatModelStart then
      if |args| < 2 then Some(ArgIndexError)
      else if !args[1].MessageBatches? then Some(ArgTypeError)
      else OwnError(h, LlmStart, Some(IgnoreLlm))
    else OwnError(h, event, ignore)
  }

  /** The handlers the loop reaches: all of them, or those up to and including the first one
      whose error escapes. */
  function Processed(hs: seq<Handler>, event: string, ignore: Option<string>, args: seq<Value>): (p: seq<Handler>)
    ensures |p| <= |hs| && p == hs[..|p|]
  {
    if hs == [] then []
    else if PropagatedError(hs[0], event, ignore, args).Some? then [hs[0]]
    else [hs[0]] + Processed(hs[1..], event, ignore, args)
  }

  /** The first escaping error, if any handler has one. */
  function RaisedBy(hs: seq<Handler>, event: string, ignore: Option<string>, args: seq<Value>): Option<Error> {
    if hs == [] then None
    else if PropagatedError(hs[0], event, ignore, args).Some? then PropagatedError(hs[0], event, ignore, args)
    else RaisedBy(hs[1..], event, ignore, args)
  }

  /** Some handler of the list takes the chat fallback (so the messages get flattened). */
  predicate Converts(hs: seq<Handler>, event: string, ignore: Option<string>, args: seq<Value>) {
    hs != [] && (FallsBack(hs[0], event, ignore, args) || Converts(hs[1..], event, ignore, args))
  }

  /** The handlers that are not skipped, in order. */
  function Eligible(hs: seq<Handler>, ignore: Option<string>): seq<Handler> {
    if hs == [] then []
    else if Skipped(hs[0], ignore) then Eligible(hs[1..], ignore)
    else [hs[0]] + Eligible(hs[1..], ignore)
  }

  /** The coroutines the eligible handlers return, in order. */
  function Coroutines(hs: seq<Handler>, event: string, ignore: Option<string>): seq<Coro> {
    if hs == [] then []
    else if !Skipped(hs[0], ignore) && OutcomeOf(hs[0], event).Coroutine? then
      [OutcomeOf(hs[0], event).coro] + Coroutines(hs[1..], event, ignore)
    else Coroutines(hs[1..], event, ignore)
  }

  /** The handlers that receive a re-dispatched `on_llm_start`. */
  function FallbackTargets(hs: seq<Handler>, ignore: Option<string>, args: seq<Value>): seq<Handler> {
    if hs == [] then []
    else if FallsBack(hs[0], ChatModelStart, ignore, args) && !Skipped(hs[0], Some(IgnoreLlm)) then
      [hs[0]] + FallbackTargets(hs[1..], ignore, args)
    else FallbackTargets(hs[1..], ignore, args)
  }

  /** One call of `event` per handler, with the same arguments. */
  function Deliveries(hs: seq<Handler>, event: string, args: seq<Value>, kwargs: map<string, Value>): (r: seq<Call>)
    ensures |r| == |hs|
    ensures forall i :: 0 <= i < |hs| ==> r[i] == Call(hs[i].id, event, args, kwargs)
  {
    if hs == [] then [] else [Call(hs[0].id, event, args, kwargs)] + Deliveries(hs[1..], event, args, kwargs)
  }

  /** The calls made for one event, in order. */
  function CallsOf(event: string, calls: seq<Call>): seq<Call> {
    if calls == [] then []
    else if calls[0].event == event then [calls[0]] + CallsOf(event, calls[1..])
    else CallsOf(event, calls[1..])
  }

  // ---------------------------------------------------------------------------------------
  // The dispatcher meets the reference description.

  /** The state the loop keeps about the flattened messages is the one the reference expects. */
  predicate Consistent(st: LoopState, event: string, args: seq<Value>, bufferString: seq<Message> -> string) {
    && st.raised.None?
    && (st.messageStrings.Some? ==> ChatArgsOk(args) && st.messageStrings.value == BufferStrings(args[1].batches, bufferString))
    && st.conversions == (if st.messageStrings.Some? then 1 else 0)
    && (event != ChatModelStart ==> st.messageStrings.None?)
  }

  /** One loop iteration adds exactly the handler's own contribution. */
  lemma {:induction false} StepMeetsSpec(
    h: Handler, event: string, ignore: Option<string>,
    args: seq<Value>, kwargs: map<string, Value>, bufferString: seq<Message> -> string, st: LoopState)
    requires Consistent(st, event, args, bufferString)
    ensures var r := Step(h, event, ignore, args, kwargs, bufferString, st);
            var e := HandlerEffect(h, event, ignore, args, kwargs, bufferString);
            && r.calls == st.calls + e.calls
            && r.warnings == st.warnings + e.warnings
            && r.drains == st.drains + e.drains
            && r.coros == st.coros + e.coros
            && r.raised == PropagatedError(h, event, ignore, args)
            && (r.messageStrings.Some? <==> st.messageStrings.Some? || FallsBack(h, event, ignore, args))
            && (r.messageStrings.Some? ==> r.messageStrings.value == BufferStrings(args[1].batches, bufferString))
    decreases Rank(event), 0, 1
  {
    if !Skipped(h, ignore) {
      match OutcomeOf(h, event)
      case Returns =>
      case Coroutine(c) =>
      case Fails(m) =>
      case NotImplemented =>
        if event == ChatModelStart && ChatArgsOk(args) {
          StepFallbackMeetsSpec(h, event, ignore, args, kwargs, bufferString, st);
        }
    }
  }

  /** The loop state after a fallback iteration, in terms of the nested dispatch. */
  lemma StepFallbackShape(
    h: Handler, event: string, ignore: Option<string>,
    args: seq<Value>, kwargs: map<string, Value>, bufferString: seq<Message> -> string, st: LoopState)
    requires Consistent(st, event, args, bufferString)
    requires !Skipped(h, ignore) && OutcomeOf(h, event) == NotImplemented
    requires event == ChatModelStart && ChatArgsOk(args)
    ensures var strings := BufferStrings(args[1].batches, bufferString);
            var t := HandleEvent([h], LlmStart, Some(IgnoreLlm), FallbackArgs(args, strings), kwargs, bufferString);
            Step(h, event, ignore, args, kwargs, bufferString, st)
            == st.(calls := st.calls + [Call(h.id, event, args, kwargs)] + t.calls,
                   warnings := st.warnings + t.warnings,
                   drains := st.drains + t.drains,
                   messageStrings := Some(strings),
                   conversions := 1,
                   raised := t.raised)
  {
  }

  /** The handler's reference effect in the fallback case. */
  lemma HandlerFallbackShape(
    h: Handler, event: string, ignore: Option<string>,
    args: seq<Value>, kwargs: map<string, Value>, bufferString: seq<Message> -> string)
    requires !Skipped(h, ignore) && OutcomeOf(h, event) == NotImplemented
    requires event == ChatModelStart && ChatArgsOk(args)
    ensures var fa := FallbackArgs(args, BufferStrings(args[1].batches, bufferString));
            var n := HandlerEffect(h, LlmStart, Some(IgnoreLlm), fa, kwargs, bufferString);
            && HandlerEffect(h, event, ignore, args, kwargs, bufferString)
               == Effect([Call(h.id, event, args, kwargs)] + n.calls, n.warnings + DrainLog(n.coros),
                         n.drains + Batch(n.coros), [])
            && PropagatedError(h, event, ignore, args) == OwnError(h, LlmStart, Some(IgnoreLlm))
  {
  }

  /** The fallback iteration: the handler's call, then its nested `on_llm_start` dispatch,
      sharing the strings computed once. */
  lemma {:induction false} StepFallbackMeetsSpec(
    h: Handler, event: string, ignore: Option<string>,
    args: seq<Value>, kwargs: map<string, Value>, bufferString: seq<Message> -> string, st: LoopState)
    requires Consistent(st, event, args, bufferString)
    requires !Skipped(h, ignore) && OutcomeOf(h, event) == NotImplemented
    requires event == ChatModelStart && ChatArgsOk(args)
    ensures var r := Step(h, event, ignore, args, kwargs, bufferString, st);
            var e := HandlerEffect(h, event, ignore, args, kwargs, bufferString);
            && r.calls == st.calls + e.calls
            && r.warnings == st.warnings + e.warnings
            && r.drains == st.drains + e.drains
            && r.coros == st.coros + e.coros
            && r.raised == PropagatedError(h, event, ignore, args)
            && (r.messageStrings.Some? <==> st.messageStrings.Some? || FallsBack(h, event, ignore, args))
            && (r.messageStrings.Some? ==> r.messageStrings.value == BufferStrings(args[1].batches, bufferString))
    decreases Rank(event), 0, 0
  {
    var strings := BufferStrings(args[1].batches, bufferString);
    var fa := FallbackArgs(args, strings);
    assert Rank(LlmStart) == 0;
    SingleDispatchMeetsSpec(h, fa, kwargs, bufferString);
    StepFallbackShape(h, event, ignore, args, kwargs, bufferString, st);
    HandlerFallbackShape(h, event, ignore, args, kwargs, bufferString);
    var n := HandlerEffect(h, LlmStart, Some(IgnoreLlm), fa, kwargs, bufferString);
    CombineFallback(st, Step(h, event, ignore, args, kwargs, bufferString, st),
                    HandlerEffect(h, event, ignore, args, kwargs, bufferString),
                    HandleEvent([h], LlmStart, Some(IgnoreLlm), fa, kwargs, bufferString), n,
                    Call(h.id, event, args, kwargs), DrainLog(n.coros), Batch(n.coros), strings);
  }

  /** The bookkeeping of a fallback iteration: the loop state after it extends the state before
      by the handler's effect, when both are built from the same nested dispatch. */
  lemma CombineFallback(
    st: LoopState, r: LoopState, e: Effect, t: Trace, n: Effect, call: Call,
    log: seq<Warning>, batch: seq<seq<Coro>>, strings: seq<string>)
    requires r == st.(calls := st.calls + [call] + t.calls, warnings := st.warnings + t.warnings,
                      drains := st.drains + t.drains, messageStrings := Some(strings),
                      conversions := 1, raised := t.raised)
    requires e == Effect([call] + n.calls, n.warnings + log, n.drains + batch, [])
    requires t.calls == n.calls && t.warnings == n.warnings + log && t.drains == n.drains + batch
    ensures r.calls == st.calls + e.calls && r.warnings == st.warnings + e.warnings
    ensures r.drains == st.drains + e.drains && r.coros == st.coros + e.coros
    ensures r.raised == t.raised && r.messageStrings == Some(strings)
  {
    assert st.calls + [call] + n.calls == st.calls + ([call] + n.calls);
    assert st.coros + [] == st.coros;
  }

  /** The re-dispatch of the chat fallback, to one handler, is that handler's own effect
      followed by its own drain. */
  lemma {:induction false} SingleDispatchMeetsSpec(
    h: Handler, args: seq<Value>, kwargs: map<string, Value>, bufferString: seq<Message> -> string)
    ensures var t := HandleEvent([h], LlmStart, Some(IgnoreLlm), args, kwargs, bufferString);
            var n := HandlerEffect(h, LlmStart, Some(IgnoreLlm), args, kwargs, bufferString);
            && t.calls == n.calls
            && t.warnings == n.warnings + DrainLog(n.coros)
            && t.drains == n.drains + Batch(n.coros)
            && t.raised == OwnError(h, LlmStart, Some(IgnoreLlm))
    decreases 0, 1, 3
  {
    assert Rank(LlmStart) == 0;
    HandleEventMeetsSpec([h], LlmStart, Some(IgnoreLlm), args, kwargs, bufferString);
    var n := HandlerEffect(h, LlmStart, Some(IgnoreLlm), args, kwargs, bufferString);
    assert [h][1..] == [];
    assert Processed([h], LlmStart, Some(IgnoreLlm), args) == [h];
    assert ListEffect([h], LlmStart, Some(IgnoreLlm), args, kwargs, bufferString) == Then(n, NoEffect);
    assert Then(n, NoEffect) == n;
    assert RaisedBy([h], LlmStart, Some(IgnoreLlm), args) == OwnError(h, LlmStart, Some(IgnoreLlm));
  }

  /** The loop state `r` extends `st` by the effect `e`. */
  predicate Extends(r: LoopState, st: LoopState, e: Effect) {
    && r.calls == st.calls + e.calls
    && r.warnings == st.warnings + e.warnings
    && r.drains == st.drains + e.drains
    && r.coros == st.coros + e.coros
  }

  lemma ExtendsThen(r: LoopState, s1: LoopState, st: LoopState, e0: Effect, e1: Effect)
    requires Extends(s1, st, e0) && Extends(r, s1, e1)
    ensures Extends(r, st, Then(e0, e1))
  {
    assert st.calls + (e0.calls + e1.calls) == (st.calls + e0.calls) + e1.calls;
    assert st.warnings + (e0.warnings + e1.warnings) == (st.warnings + e0.warnings) + e1.warnings;
    assert st.drains + (e0.drains + e1.drains) == (st.drains + e0.drains) + e1.drains;
    assert st.coros + (e0.coros + e1.coros) == (st.coros + e0.coros) + e1.coros;
  }

  lemma {:induction false} LoopMeetsSpec(
    hs: seq<Handler>, event: string, ignore: Option<string>,
    args: seq<Value>, kwargs: map<string, Value>, bufferString: seq<Message> -> string, st: LoopState)
    requires Consistent(st, event, args, bufferString)
    ensures var r := Loop(hs, event, ignore, args, kwargs, bufferString, st);
            var p := Processed(hs, event, ignore, args);
            && Extends(r, st, ListEffect(p, event, ignore, args, kwargs, bufferString))
            && r.raised == RaisedBy(hs, event, ignore, args)
            && (r.messageStrings.Some? <==> st.messageStrings.Some? || Converts(p, event, ignore, args))
    decreases Rank(event), |hs|, 1
  {
    if hs != [] {
      var h := hs[0];
      var s1 := Step(h, event, ignore, args, kwargs, bufferString, st);
      assert Loop(hs, event, ignore, args, kwargs, bufferString, st)
          == Loop(hs[1..], event, ignore, args, kwargs, bufferString, s1);
      StepMeetsSpec(h, event, ignore, args, kwargs, bufferString, st);
      var e0 := HandlerEffect(h, event, ignore, args, kwargs, bufferString);
      assert Extends(s1, st, e0);
      if PropagatedError(h, event, ignore, args).Some? {
        assert Loop(hs[1..], event, ignore, args, kwargs, bufferString, s1) == s1;
        assert Processed(hs, event, ignore, args) == [h];
        assert ListEffect([h], event, ignore, args, kwargs, bufferString) == Then(e0, NoEffect);
        assert Then(e0, NoEffect) == e0;
        assert Converts([h], event, ignore, args) == FallsBack(h, event, ignore, args);
      } else {
        LoopMeetsSpec(hs[1..], event, ignore, args, kwargs, bufferString, s1);
        var p1 := Processed(hs[1..], event, ignore, args);
        assert Processed(hs, event, ignore, args) == [h] + p1;
        assert ([h] + p1)[1..] == p1;
        var e1 := ListEffect(p1, event, ignore, args, kwargs, bufferString);
        assert ListEffect([h] + p1, event, ignore, args, kwargs, bufferString) == Then(e0, e1);
        ExtendsThen(Loop(hs[1..], event, ignore, args, kwargs, bufferString, s1), s1, st, e0, e1);
      }
    }
  }

  /** `handle_event` does exactly what the handler-by-handler description says: the calls, the
      warnings and the drain batches of the handlers it reaches, in order, then one drain of
      every collected coroutine (also when an error escapes); the escaping error is the first
      handler's that has one; the messages are flattened at most once, and only when some
      handler takes the chat fallback. */
  lemma {:induction false} HandleEventMeetsSpec(
    hs: seq<Handler>, event: string, ignore: Option<string>,
    args: seq<Value>, kwargs: map<string, Value>, bufferString: seq<Message> -> string)
    ensures var t := HandleEvent(hs, event, ignore, args, kwargs, bufferString);
            var p := Processed(hs, event, ignore, args);
            var e := ListEffect(p, event, ignore, args, kwargs, bufferString);
            && t.calls == e.calls
            && t.warnings == e.warnings + DrainLog(e.coros)
            && t.drains == e.drains + Batch(e.coros)
            && t.raised == RaisedBy(hs, event, ignore, args)
            && t.conversions == (if Converts(p, event, ignore, args) then 1 else 0)
    decreases Rank(event), |hs|, 2
  {
    LoopMeetsSpec(hs, event, ignore, args, kwargs, bufferString, Start);
    var st := Loop(hs, event, ignore, args, kwargs, bufferString, Start);
    var e := ListEffect(Processed(hs, event, ignore, args), event, ignore, args, kwargs, bufferString);
    assert Extends(st, Start, e);
    assert st.calls == e.calls && st.warnings == e.warnings && st.drains == e.drains && st.coros == e.coros;
  }
}
