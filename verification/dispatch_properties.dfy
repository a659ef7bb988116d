/** Consequences of the reference description of `handle_event`: the properties a caller of
    the dispatcher relies on. */
module DispatchProperties {
  import opened Wrappers
  import opened Messages
  import opened Callbacks
  import opened Dispatch
  import opened DispatchSpec

  /** With no ignore attribute named, no handler is skipped. */
  lemma {:induction false} NoIgnoreNameSkipsNone(hs: seq<Handler>)
    ensures Eligible(hs, None) == hs
  {
    if hs != [] {
      NoIgnoreNameSkipsNone(hs[1..]);
      assert hs == [hs[0]] + hs[1..];
    }
  }

  lemma {:induction false} CallsOfAppend(event: string, a: seq<Call>, b: seq<Call>)
    ensures CallsOf(event, a + b) == CallsOf(event, a) + CallsOf(event, b)
  {
    if a == [] {
      assert a + b == b;
    } else {
      assert (a + b)[1..] == a[1..] + b;
      CallsOfAppend(event, a[1..], b);
    }
  }

  /** The nested `on_llm_start` dispatch of a fallback calls the handler at most once. */
  lemma NestedCalls(h: Handler, fa: seq<Value>, kwargs: map<string, Value>, bufferString: seq<Message> -> string)
    ensures HandlerEffect(h, LlmStart, Some(IgnoreLlm), fa, kwargs, bufferString).calls
         == if Skipped(h, Some(IgnoreLlm)) then [] else [Call(h.id, LlmStart, fa, kwargs)]
  {
  }

  /** For one handler, the calls made for the dispatched event are its one delivery, unless it is skipped. */
  lemma HandlerCallsOfEvent(
    h: Handler, event: string, ignore: Option<string>,
    args: seq<Value>, kwargs: map<string, Value>, bufferString: seq<Message> -> string)
    ensures CallsOf(event, HandlerEffect(h, event, ignore, args, kwargs, bufferString).calls)
         == if Skipped(h, ignore) then [] else [Call(h.id, event, args, kwargs)]
  {
    var e := HandlerEffect(h, event, ignore, args, kwargs, bufferString);
    if !Skipped(h, ignore) {
      var call := Call(h.id, event, args, kwargs);
      if FallsBack(h, event, ignore, args) {
        var fa := FallbackArgs(args, BufferStrings(args[1].batches, bufferString));
        var n := HandlerEffect(h, LlmStart, Some(IgnoreLlm), fa, kwargs, bufferString);
        assert e.calls == [call] + n.calls;
        NestedCalls(h, fa, kwargs, bufferString);
        assert CallsOf(event, n.calls) == [];
        CallsOfAppend(event, [call], n.calls);
      } else {
        assert e.calls == [call];
      }
    }
  }

  lemma {:induction false} ListCallsOfEvent(
    p: seq<Handler>, event: string, ignore: Option<string>,
    args: seq<Value>, kwargs: map<string, Value>, bufferString: seq<Message> -> string)
    ensures CallsOf(event, ListEffect(p, event, ignore, args, kwargs, bufferString).calls)
         == Deliveries(Eligible(p, ignore), event, args, kwargs)
  {
    if p != [] {
      var e0 := HandlerEffect(p[0], event, ignore, args, kwargs, bufferString);
      var e1 := ListEffect(p[1..], event, ignore, args, kwargs, bufferString);
      CallsOfAppend(event, e0.calls, e1.calls);
      HandlerCallsOfEvent(p[0], event, ignore, args, kwargs, bufferString);
      ListCallsOfEvent(p[1..], event, ignore, args, kwargs, bufferString);
      if !Skipped(p[0], ignore) {
        assert Eligible(p, ignore) == [p[0]] + Eligible(p[1..], ignore);
        assert ([p[0]] + Eligible(p[1..], ignore))[1..] == Eligible(p[1..], ignore);
      }
    }
  }

  /** Handlers receive the event in list order, each with the caller's arguments, and a handler
      is passed over exactly when its ignore attribute is set; the loop reaches the handlers
      of `Processed`. */
  lemma DeliveredInOrder(
    hs: seq<Handler>, event: string, ignore: Option<string>,
    args: seq<Value>, kwargs: map<string, Value>, bufferString: seq<Message> -> string)
    ensures CallsOf(event, HandleEvent(hs, event, ignore, args, kwargs, bufferString).calls)
         == Deliveries(Eligible(Processed(hs, event, ignore, args), ignore), event, args, kwargs)
  {
    HandleEventMeetsSpec(hs, event, ignore, args, kwargs, bufferString);
    ListCallsOfEvent(Processed(hs, event, ignore, args), event, ignore, args, kwargs, bufferString);
  }

  lemma {:induction false} RaisedByFirst(hs: seq<Handler>, event: string, ignore: Option<string>, args: seq<Value>)
    ensures RaisedBy(hs, event, ignore, args).Some?
        <==> exists i :: 0 <= i < |hs| && PropagatedError(hs[i], event, ignore, args).Some?
    ensures RaisedBy(hs, event, ignore, args).None? ==> Processed(hs, event, ignore, args) == hs
  {
    if hs != [] {
      RaisedByFirst(hs[1..], event, ignore, args);
      if RaisedBy(hs, event, ignore, args).None? {
        assert hs == [hs[0]] + hs[1..];
      }
      if PropagatedError(hs[0], event, ignore, args).None? {
        forall i | 0 <= i < |hs[1..]| && PropagatedError(hs[1..][i], event, ignore, args).Some?
          ensures exists j :: 0 <= j < |hs| && PropagatedError(hs[j], event, ignore, args).Some?
        {
          assert hs[1..][i] == hs[i + 1];
        }
        forall i | 0 <= i < |hs| && PropagatedError(hs[i], event, ignore, args).Some?
          ensures exists j :: 0 <= j < |hs[1..]| && PropagatedError(hs[1..][j], event, ignore, args).Some?
        {
          assert i != 0;
          assert hs[1..][i - 1] == hs[i];
        }
      }
    }
  }

  /** An error escapes the dispatch exactly when some handler has one; with none, every
      handler is reached. */
  lemma IsolationUnlessRaising(
    hs: seq<Handler>, event: string, ignore: Option<string>,
    args: seq<Value>, kwargs: map<string, Value>, bufferString: seq<Message> -> string)
    ensures var t := HandleEvent(hs, event, ignore, args, kwargs, bufferString);
            && (t.raised.Some? <==> exists i :: 0 <= i < |hs| && PropagatedError(hs[i], event, ignore, args).Some?)
            && (t.raised.None? ==> Processed(hs, event, ignore, args) == hs)
  {
    HandleEventMeetsSpec(hs, event, ignore, args, kwargs, bufferString);
    RaisedByFirst(hs, event, ignore, args);
  }

  lemma {:induction false} ProcessedStopsAtFirst(
    hs: seq<Handler>, i: nat, event: string, ignore: Option<string>, args: seq<Value>)
    requires i < |hs| && PropagatedError(hs[i], event, ignore, args).Some?
    requires forall j :: 0 <= j < i ==> PropagatedError(hs[j], event, ignore, args).None?
    ensures Processed(hs, event, ignore, args) == hs[..i + 1]
    ensures RaisedBy(hs, event, ignore, args) == PropagatedError(hs[i], event, ignore, args)
  {
    if i > 0 {
      forall j | 0 <= j < i - 1 ensures PropagatedError(hs[1..][j], event, ignore, args).None? {
        assert hs[1..][j] == hs[j + 1];
      }
      assert hs[1..][i - 1] == hs[i];
      ProcessedStopsAtFirst(hs[1..], i - 1, event, ignore, args);
      assert PropagatedError(hs[0], event, ignore, args).None?;
      assert hs[..i + 1] == [hs[0]] + hs[1..][..i];
    }
  }

  /** The re-raise is immediate: when handler `i` is the first whose error escapes, the
      dispatch raises that error and the handlers after it are never called. */
  lemma RaiseIsImmediate(
    hs: seq<Handler>, i: nat, event: string, ignore: Option<string>,
    args: seq<Value>, kwargs: map<string, Value>, bufferString: seq<Message> -> string)
    requires i < |hs| && PropagatedError(hs[i], event, ignore, args).Some?
    requires forall j :: 0 <= j < i ==> PropagatedError(hs[j], event, ignore, args).None?
    ensures var t := HandleEvent(hs, event, ignore, args, kwargs, bufferString);
            && t.raised == PropagatedError(hs[i], event, ignore, args)
            && t.calls == ListEffect(hs[..i + 1], event, ignore, args, kwargs, bufferString).calls
  {
    HandleEventMeetsSpec(hs, event, ignore, args, kwargs, bufferString);
    ProcessedStopsAtFirst(hs, i, event, ignore, args);
  }

  lemma {:induction false} CollectedAreCoroutines(
    p: seq<Handler>, event: string, ignore: Option<string>,
    args: seq<Value>, kwargs: map<string, Value>, bufferString: seq<Message> -> string)
    ensures ListEffect(p, event, ignore, args, kwargs, bufferString).coros == Coroutines(p, event, ignore)
    ensures event != ChatModelStart ==> ListEffect(p, event, ignore, args, kwargs, bufferString).drains == []
  {
    if p != [] {
      CollectedAreCoroutines(p[1..], event, ignore, args, kwargs, bufferString);
    }
  }

  /** The coroutines the reached handlers return are drained in one batch, in order, also when
      an error escapes; nothing is drained when none was collected. Only the chat fallback's
      own single-handler dispatches drain earlier. */
  lemma DrainedOnceInFinally(
    hs: seq<Handler>, event: string, ignore: Option<string>,
    args: seq<Value>, kwargs: map<string, Value>, bufferString: seq<Message> -> string)
    ensures var t := HandleEvent(hs, event, ignore, args, kwargs, bufferString);
            var p := Processed(hs, event, ignore, args);
            && t.drains == ListEffect(p, event, ignore, args, kwargs, bufferString).drains + Batch(Coroutines(p, event, ignore))
            && (event != ChatModelStart ==> t.drains == Batch(Coroutines(p, event, ignore)))
  {
    HandleEventMeetsSpec(hs, event, ignore, args, kwargs, bufferString);
    CollectedAreCoroutines(Processed(hs, event, ignore, args), event, ignore, args, kwargs, bufferString);
  }

  /** A handler written only against `on_llm_start` (it has no chat method of its own) is
      served by the fallback: dispatching the chat event to it flattens the messages once
      and calls its `on_llm_start` with them, unless its `ignore_llm` is set. */
  lemma UnscriptedChatFallsBack(
    h: Handler, args: seq<Value>, kwargs: map<string, Value>, bufferString: seq<Message> -> string)
    requires ChatModelStart !in h.script && ChatArgsOk(args)
    ensures var t := HandleEvent([h], ChatModelStart, None, args, kwargs, bufferString);
            && t.conversions == 1
            && CallsOf(LlmStart, t.calls)
               == if Skipped(h, Some(IgnoreLlm)) then []
                  else [Call(h.id, LlmStart, FallbackArgs(args, BufferStrings(args[1].batches, bufferString)), kwargs)]
  {
    assert FallsBack(h, ChatModelStart, None, args);
    HandleEventMeetsSpec([h], ChatModelStart, None, args, kwargs, bufferString);
    ChatFallbackRedispatch([h], None, args, kwargs, bufferString);
    var p := Processed([h], ChatModelStart, None, args);
    assert [h][1..] == [];
    assert p == [h];
    assert Converts(p, ChatModelStart, None, args);
    assert FallbackTargets([h][1..], None, args) == [];
  }

  /** For one handler of a chat dispatch, the `on_llm_start` calls are its fallback, if any. */
  lemma HandlerFallbackCalls(
    h: Handler, ignore: Option<string>,
    args: seq<Value>, kwargs: map<string, Value>, bufferString: seq<Message> -> string)
    requires ChatArgsOk(args)
    ensures CallsOf(LlmStart, HandlerEffect(h, ChatModelStart, ignore, args, kwargs, bufferString).calls)
         == if FallsBack(h, ChatModelStart, ignore, args) && !Skipped(h, Some(IgnoreLlm))
            then [Call(h.id, LlmStart, FallbackArgs(args, BufferStrings(args[1].batches, bufferString)), kwargs)]
            else []
  {
    var e0 := HandlerEffect(h, ChatModelStart, ignore, args, kwargs, bufferString);
    var fa := FallbackArgs(args, BufferStrings(args[1].batches, bufferString));
    if !Skipped(h, ignore) {
      var call := Call(h.id, ChatModelStart, args, kwargs);
      assert CallsOf(LlmStart, [call]) == [];
      if FallsBack(h, ChatModelStart, ignore, args) {
        var n := HandlerEffect(h, LlmStart, Some(IgnoreLlm), fa, kwargs, bufferString);
        assert e0.calls == [call] + n.calls;
        CallsOfAppend(LlmStart, [call], n.calls);
        if !Skipped(h, Some(IgnoreLlm)) {
          assert n.calls == [Call(h.id, LlmStart, fa, kwargs)];
        }
      } else {
        assert OutcomeOf(h, ChatModelStart) != NotImplemented;
        assert e0.calls == [call];
      }
    }
  }

  lemma {:induction false} ListFallbackCalls(
    p: seq<Handler>, ignore: Option<string>,
    args: seq<Value>, kwargs: map<string, Value>, bufferString: seq<Message> -> string)
    requires ChatArgsOk(args)
    ensures CallsOf(LlmStart, ListEffect(p, ChatModelStart, ignore, args, kwargs, bufferString).calls)
         == Deliveries(FallbackTargets(p, ignore, args), LlmStart,
                       FallbackArgs(args, BufferStrings(args[1].batches, bufferString)), kwargs)
  {
    if p != [] {
      var h := p[0];
      var e0 := HandlerEffect(h, ChatModelStart, ignore, args, kwargs, bufferString);
      var e1 := ListEffect(p[1..], ChatModelStart, ignore, args, kwargs, bufferString);
      CallsOfAppend(LlmStart, e0.calls, e1.calls);
      ListFallbackCalls(p[1..], ignore, args, kwargs, bufferString);
      HandlerFallbackCalls(h, ignore, args, kwargs, bufferString);
      if FallsBack(h, ChatModelStart, ignore, args) && !Skipped(h, Some(IgnoreLlm)) {
        assert FallbackTargets(p, ignore, args) == [h] + FallbackTargets(p[1..], ignore, args);
        assert ([h] + FallbackTargets(p[1..], ignore, args))[1..] == FallbackTargets(p[1..], ignore, args);
      }
    }
  }

  /** When a chat handler is not implemented, that handler alone receives `on_llm_start`
      (unless its `ignore_llm` is set), once, with the first argument, the messages flattened
      by one shared conversion, and the other arguments unchanged; with unreadable messages
      no handler does. */
  lemma ChatFallbackRedispatch(
    hs: seq<Handler>, ignore: Option<string>,
    args: seq<Value>, kwargs: map<string, Value>, bufferString: seq<Message> -> string)
    ensures var t := HandleEvent(hs, ChatModelStart, ignore, args, kwargs, bufferString);
            var p := Processed(hs, ChatModelStart, ignore, args);
            && (ChatArgsOk(args) ==>
                  CallsOf(LlmStart, t.calls)
                  == Deliveries(FallbackTargets(p, ignore, args), LlmStart,
                                FallbackArgs(args, BufferStrings(args[1].batches, bufferString)), kwargs))
            && (!ChatArgsOk(args) ==> CallsOf(LlmStart, t.calls) == [] && t.conversions == 0)
  {
    HandleEventMeetsSpec(hs, ChatModelStart, ignore, args, kwargs, bufferString);
    var p := Processed(hs, ChatModelStart, ignore, args);
    if ChatArgsOk(args) {
      ListFallbackCalls(p, ignore, args, kwargs, bufferString);
    } else {
      NoFallbackWithoutMessages(p, ignore, args, kwargs, bufferString);
    }
  }

  lemma {:induction false} NoFallbackWithoutMessages(
    p: seq<Handler>, ignore: Option<string>,
    args: seq<Value>, kwargs: map<string, Value>, bufferString: seq<Message> -> string)
    requires !ChatArgsOk(args)
    ensures CallsOf(LlmStart, ListEffect(p, ChatModelStart, ignore, args, kwargs, bufferString).calls) == []
    ensures !Converts(p, ChatModelStart, ignore, args)
  {
    if p != [] {
      var e0 := HandlerEffect(p[0], ChatModelStart, ignore, args, kwargs, bufferString);
      var e1 := ListEffect(p[1..], ChatModelStart, ignore, args, kwargs, bufferString);
      CallsOfAppend(LlmStart, e0.calls, e1.calls);
      NoFallbackWithoutMessages(p[1..], ignore, args, kwargs, bufferString);
    }
  }

  /** The warnings a drain should log, read from the last coroutine backwards: one per failing
      coroutine, naming it and its error, in run order. */
  function FailureWarnings(coros: seq<Coro>): seq<Warning>
    decreases |coros|
  {
    if coros == [] then []
    else
      var last := coros[|coros| - 1];
      FailureWarnings(coros[..|coros| - 1])
      + (if last.failure.Some? then [CoroutineFailed(last.id, last.failure.value)] else [])
  }

  /** Draining two runs of coroutines back to back logs the first run's warnings, then the
      second's. */
  lemma {:induction false} DrainLogAppends(a: seq<Coro>, b: seq<Coro>)
    ensures RunCoros(a + b).warnings == RunCoros(a).warnings + RunCoros(b).warnings
    decreases |a|
  {
    if a == [] {
      assert a + b == b;
    } else {
      assert (a + b)[0] == a[0];
      assert (a + b)[1..] == a[1..] + b;
      DrainLogAppends(a[1..], b);
    }
  }

  /** `_run_coros` logs exactly one warning per failing coroutine, in order, and nothing else. */
  lemma {:induction false} DrainLogsEachFailure(coros: seq<Coro>)
    ensures RunCoros(coros).warnings == FailureWarnings(coros)
    decreases |coros|
  {
    if coros != [] {
      var init := coros[..|coros| - 1];
      var last := coros[|coros| - 1];
      assert coros == init + [last];
      DrainLogAppends(init, [last]);
      DrainLogsEachFailure(init);
      assert [last][1..] == [];
    }
  }

  /** A coroutine that fails is logged by `_run_coros`. */
  lemma {:induction false} FailureLogged(coros: seq<Coro>, i: nat)
    requires i < |coros| && coros[i].failure.Some?
    ensures CoroutineFailed(coros[i].id, coros[i].failure.value) in RunCoros(coros).warnings
  {
    if i > 0 {
      FailureLogged(coros[1..], i - 1);
      assert coros[1..][i - 1] == coros[i];
    }
  }

  /** `_run_coros` runs every coroutine; each failure is logged and does not stop the
      coroutines after it. */
  lemma DrainIsolation(coros: seq<Coro>, i: nat)
    requires i < |coros| && coros[i].failure.Some?
    ensures CoroutineFailed(coros[i].id, coros[i].failure.value) in RunCoros(coros).warnings
    ensures RunCoros(coros).ran == RunCoros(coros[..i + 1]).ran + RunCoros(coros[i + 1..]).ran
  {
    FailureLogged(coros, i);
    var before := RunCoros(coros[..i + 1]).ran;
    var after := RunCoros(coros[i + 1..]).ran;
    forall j | 0 <= j < |coros| ensures RunCoros(coros).ran[j] == (before + after)[j] {
      if j <= i {
        assert coros[..i + 1][j] == coros[j];
      } else {
        assert coros[i + 1..][j - i - 1] == coros[j];
      }
    }
  }
}
