/** `CallbackManager.on_llm_start`: one child run manager per prompt. */
module RunManager {
  import opened Wrappers
  import opened Messages
  import opened Callbacks
  import opened Dispatch

  /** `CallbackManagerForLLMRun`: a manager bound to one run id. Its handlers, inheritable
      handlers, parent run, tags and metadata are those of `scope`. */
  datatype LlmRun = LlmRun(runId: RunId, scope: Manager)

  /** The keyword arguments `on_llm_start` passes itself; the caller's `**kwargs` may not repeat them. */
  const ReservedKeywords: set<string> := {"run_id", "parent_run_id", "tags", "metadata"}

  /** The parameters of `handle_event` itself, bound positionally by `on_llm_start`; the
      caller's `**kwargs` may not name them either. */
  const HandleEventParameters: set<string> := {"handlers", "event_name", "ignore_condition_name"}

  /** The caller's keyword arguments repeat one that the call of `handle_event` in
      `on_llm_start` already binds, so that call raises a `TypeError` before any handler
      runs. (`run_id` is listed for completeness: in the source it binds to the parameter of
      `on_llm_start` and never reaches `**kwargs`.) */
  predicate RepeatsReserved(kwargs: map<string, Value>) {
    || "run_id" in kwargs || "parent_run_id" in kwargs || "tags" in kwargs || "metadata" in kwargs
    || "handlers" in kwargs || "event_name" in kwargs || "ignore_condition_name" in kwargs
  }

  /** A keyword argument is refused exactly when it is one of the reserved keywords or one of
      `handle_event`'s own parameters. */
  lemma RefusedNames(kwargs: map<string, Value>)
    ensures RepeatsReserved(kwargs) <==> exists k :: k in kwargs && (k in ReservedKeywords || k in HandleEventParameters)
  {
  }

  /** The run id of prompt `i`: the caller's one for the first prompt when given, otherwise
      the id `uuid4` returns for that prompt (`uuids[i]`). */
  function RunIdAt(i: nat, runId: Option<RunId>, uuids: seq<RunId>): RunId
    requires i < |uuids|
  {
    if i == 0 && runId.Some? then runId.value else uuids[i]
  }

  /** `uuid4` never repeats itself and never returns the caller's id. */
  predicate FreshIds(runId: Option<RunId>, uuids: seq<RunId>) {
    && (forall i, j :: 0 <= i < j < |uuids| ==> uuids[i] != uuids[j])
    && (runId.Some? ==> forall i :: 0 <= i < |uuids| ==> uuids[i] != runId.value)
  }

  /** The keyword arguments of one start event. */
  function StartKwargs(m: Manager, id: RunId, kwargs: map<string, Value>): map<string, Value> {
    kwargs + map["run_id" := Uid(Some(id)), "parent_run_id" := Uid(m.parentRunId),
                 "tags" := Strs(m.tags), "metadata" := Dict(m.metadata)]
  }

  /** A start event carries the prompt as its only prompt, every keyword argument of the
      caller that is not reserved, and the run's own id, parent, tags and metadata. */
  lemma StartEventCarriesRun(
    m: Manager, serialized: Value, prompt: string, id: RunId,
    kwargs: map<string, Value>, bufferString: seq<Message> -> string)
    ensures var d := StartEvent(m, serialized, prompt, id, kwargs, bufferString);
            && d.args == [serialized, Strs([prompt])]
            && (forall k :: k in d.kwargs <==> k in kwargs || k in ReservedKeywords)
            && d.kwargs["run_id"] == Uid(Some(id)) && d.kwargs["parent_run_id"] == Uid(m.parentRunId)
            && d.kwargs["tags"] == Strs(m.tags) && d.kwargs["metadata"] == Dict(m.metadata)
            && (forall k :: k in kwargs && k !in ReservedKeywords ==> d.kwargs[k] == kwargs[k])
  {
  }

  /** One `handle_event` call made by `on_llm_start`, with its arguments. */
  datatype StartDispatch = StartDispatch(args: seq<Value>, kwargs: map<string, Value>, trace: Trace)

  /** The start event of one prompt under run id `id`: positional arguments `serialized` and
      `[prompt]`, the run's keyword arguments, dispatched to every handler of `m` with
      `ignore_llm` as the ignore attribute. */
  function StartEvent(
    m: Manager, serialized: Value, prompt: string, id: RunId,
    kwargs: map<string, Value>, bufferString: seq<Message> -> string): (d: StartDispatch)
  {
    var args := [serialized, Strs([prompt])];
    var kw := StartKwargs(m, id, kwargs);
    StartDispatch(args, kw, HandleEvent(m.handlers, LlmStart, Some(IgnoreLlm), args, kw, bufferString))
  }

  /** The start events of the first `n` prompts, in order. */
  function StartEvents(
    m: Manager, serialized: Value, prompts: seq<string>, runId: Option<RunId>,
    kwargs: map<string, Value>, uuids: seq<RunId>, bufferString: seq<Message> -> string, n: nat)
    : (ds: seq<StartDispatch>)
    requires n <= |prompts| <= |uuids|
    ensures |ds| == n
    ensures forall i :: 0 <= i < n ==>
              ds[i] == StartEvent(m, serialized, prompts[i], RunIdAt(i, runId, uuids), kwargs, bufferString)
  {
    seq(n, i requires 0 <= i < n =>
      StartEvent(m, serialized, prompts[i], RunIdAt(i, runId, uuids), kwargs, bufferString))
  }

  /** The run managers of the first `n` prompts: each bound to its prompt's run id, all in the
      caller's scope. */
  function Runs(m: Manager, runId: Option<RunId>, uuids: seq<RunId>, n: nat): (rs: seq<LlmRun>)
    requires n <= |uuids|
    ensures |rs| == n
    ensures forall i :: 0 <= i < n ==> rs[i] == LlmRun(RunIdAt(i, runId, uuids), m)
  {
    seq(n, i requires 0 <= i < n => LlmRun(RunIdAt(i, runId, uuids), m))
  }

  /** The loop of `on_llm_start`: one start event per prompt, in order, stopping at the first
      error that escapes a dispatch. */
  method StartEach(
    m: Manager, serialized: Value, prompts: seq<string>, runId: Option<RunId>,
    kwargs: map<string, Value>, uuids: seq<RunId>, bufferString: seq<Message> -> string)
    returns (dispatches: seq<StartDispatch>, result: Result<seq<LlmRun>, Error>)
    requires |uuids| >= |prompts|
    ensures |dispatches| <= |prompts|
    ensures forall i :: 0 <= i < |dispatches| ==>
              dispatches[i] == StartEvent(m, serialized, prompts[i], RunIdAt(i, runId, uuids), kwargs, bufferString)
    ensures forall i :: 0 <= i < |dispatches| - 1 ==> dispatches[i].trace.raised.None?
    ensures result.Success? ==>
              && result.value == Runs(m, runId, uuids, |prompts|)
              && |dispatches| == |prompts|
              && forall i :: 0 <= i < |prompts| ==> dispatches[i].trace.raised.None?
    ensures result.Failure? ==>
              dispatches != [] && dispatches[|dispatches| - 1].trace.raised == Some(result.error)
  {
    dispatches := [];
    var i := 0;
    while i < |prompts|
      invariant 0 <= i <= |prompts|
      invariant |dispatches| == i
      invariant forall k :: 0 <= k < i ==>
                  dispatches[k] == StartEvent(m, serialized, prompts[k], RunIdAt(k, runId, uuids), kwargs, bufferString)
      invariant forall k :: 0 <= k < i ==> dispatches[k].trace.raised.None?
    {
      var d := StartEvent(m, serialized, prompts[i], RunIdAt(i, runId, uuids), kwargs, bufferString);
      dispatches := dispatches + [d];
      if d.trace.raised.Some? {
        return dispatches, Failure(d.trace.raised.value);
      }
      i := i + 1;
    }
    // Each prompt's manager carries the run id its dispatch used.
    result := Success(Runs(m, runId, uuids, |prompts|));
  }

  /** `on_llm_start(serialized, prompts, run_id, **kwargs)`. An error that escapes a dispatch
      escapes here too, after the dispatches made so far. */
  method OnLlmStart(
    m: Manager, serialized: Value, prompts: seq<string>, runId: Option<RunId>,
    kwargs: map<string, Value>, uuids: seq<RunId>, bufferString: seq<Message> -> string)
    returns (dispatches: seq<StartDispatch>, result: Result<seq<LlmRun>, Error>)
    requires |uuids| >= |prompts|
    ensures |dispatches| <= |prompts|
    ensures dispatches == StartEvents(m, serialized, prompts, runId, kwargs, uuids, bufferString, |dispatches|)
    ensures forall i :: 0 <= i < |dispatches| - 1 ==> dispatches[i].trace.raised.None?
    ensures result.Success? ==>
              && result.value == Runs(m, runId, uuids, |prompts|)
              && |dispatches| == |prompts|
              && forall i :: 0 <= i < |prompts| ==> dispatches[i].trace.raised.None?
    ensures prompts != [] && RepeatsReserved(kwargs) ==>
              dispatches == [] && result == Failure(DuplicateKeyword)
    ensures result.Failure? && dispatches == [] ==> prompts != [] && RepeatsReserved(kwargs)
    ensures result.Failure? && dispatches != [] ==>
              dispatches[|dispatches| - 1].trace.raised == Some(result.error)
  {
    // The first call of `handle_event` already fails on a repeated keyword argument.
    if prompts != [] && RepeatsReserved(kwargs) {
      return [], Failure(DuplicateKeyword);
    }
    dispatches, result := StartEach(m, serialized, prompts, runId, kwargs, uuids, bufferString);
  }

  /** The run ids of a batch: the caller's id is reused for the first prompt only, every
      other prompt gets the id `uuid4` returned for it, and under a fresh `uuid4` no two
      managers of the batch share a run id. */
  lemma BatchRunIds(runs: seq<LlmRun>, runId: Option<RunId>, uuids: seq<RunId>)
    requires |runs| <= |uuids|
    requires forall i :: 0 <= i < |runs| ==> runs[i].runId == RunIdAt(i, runId, uuids)
    ensures |runs| > 0 && runId.Some? ==> runs[0].runId == runId.value
    ensures forall i :: 0 < i < |runs| ==> runs[i].runId == uuids[i]
    ensures runId.None? ==> forall i :: 0 <= i < |runs| ==> runs[i].runId == uuids[i]
    ensures FreshIds(runId, uuids) ==> forall i, j :: 0 <= i < j < |runs| ==> runs[i].runId != runs[j].runId
  {
    if FreshIds(runId, uuids) {
      forall i, j | 0 <= i < j < |runs|
        ensures runs[i].runId != runs[j].runId
      {
        assert runs[j].runId == uuids[j];
      }
    }
  }
}
