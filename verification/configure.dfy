/** `_configure`: builds the manager of a top-level run from inheritable and local handlers,
    tags and metadata, then attaches the process-wide diagnostic handlers and hooks. */
module Configure {
  import opened Wrappers
  import opened Callbacks

  /** The `inheritable_callbacks` / `local_callbacks` argument: a handler list or a manager.
      `None` behaves exactly like the empty list here. */
  datatype CallbackArg = HandlerList(handlers: seq<Handler>) | FromManager(manager: Manager)

  /** Python truthiness of the argument: a list when non-empty, a manager always. */
  predicate Truthy(c: CallbackArg) {
    c.FromManager? || |c.handlers| > 0
  }

  /** A call to `add_handler`, `add_tags` or `add_metadata`, with the `inherit` flag the call
      site passes. */
  datatype Op =
    | AddHandler(handler: Handler, inherit: bool)
    | AddTags(tags: seq<string>, inherit: bool)
    | AddMetadata(metadata: map<string, string>, inherit: bool)

  /** The manager being configured and the calls made on it so far. */
  datatype Building = Building(manager: Manager, ops: seq<Op>)

  /** One call on the manager, as an append: to the visible part always, to the inheritable
      part when `inherit` is set. */
  function Apply(b: Building, op: Op): (r: Building)
    ensures r.ops == b.ops + [op]
    ensures r.manager.parentRunId == b.manager.parentRunId
  {
    var m := b.manager;
    var m' := match op
      case AddHandler(h, inherit) =>
        m.(handlers := m.handlers + [h],
           inheritableHandlers := if inherit then m.inheritableHandlers + [h] else m.inheritableHandlers)
      case AddTags(ts, inherit) =>
        m.(tags := m.tags + ts,
           inheritableTags := if inherit then m.inheritableTags + ts else m.inheritableTags)
      case AddMetadata(md, inherit) =>
        m.(metadata := m.metadata + md,
           inheritableMetadata := if inherit then m.inheritableMetadata + md else m.inheritableMetadata);
    Building(m', b.ops + [op])
  }

  /** The switches and context `_configure` reads from the process, and what the handler
      constructors it may call return. */
  datatype Ambient = Ambient(
    runTreeId: Option<RunId>,     // the id of the active run tree, if any
    envSet: set<string>,          // the environment variables `env_var_is_set` reports as set
    tracer: Option<Handler>,      // tracing_callback_var
    tracerV2: Option<Handler>,    // tracing_v2_callback_var
    tracingV2Enabled: bool,       // _tracing_v2_is_enabled()
    debug: bool,                  // _get_debug()
    hooks: seq<Hook>,             // _configure_hooks
    newStdOut: Handler,           // StdOutCallbackHandler()
    newConsole: Handler,          // ConsoleCallbackHandler()
    newTracerV1: Handler,         // LangChainTracerV1() after load_session
    newTracerV2: Option<Handler>) // LangChainTracer(project_name=...), None when it raises

  /** One entry of `_configure_hooks`: the context variable's value, the inherit flag, the
      handler class (if any), the enabling environment variable (if any), and what the class
      constructs. */
  datatype Hook = Hook(
    current: Option<Handler>,
    inheritable: bool,
    handlerClass: Option<Kind>,
    envVar: Option<string>,
    constructed: Handler)

  // ---------------------------------------------------------------------------------------
  // Merging handlers, tags and metadata

  /** `for handler in hs: add_handler(handler, inherit)`. */
  function AddHandlers(b: Building, hs: seq<Handler>, inherit: bool): (r: Building)
    ensures r.manager.handlers == b.manager.handlers + hs
    ensures !inherit ==> r.manager.inheritableHandlers == b.manager.inheritableHandlers
    ensures r.manager.parentRunId == b.manager.parentRunId
    ensures r.manager.tags == b.manager.tags && r.manager.metadata == b.manager.metadata
    ensures r.manager.inheritableTags == b.manager.inheritableTags
    ensures r.manager.inheritableMetadata == b.manager.inheritableMetadata
    ensures |r.ops| == |b.ops| + |hs| && r.ops[..|b.ops|] == b.ops
    ensures forall i :: 0 <= i < |hs| ==> r.ops[|b.ops| + i] == AddHandler(hs[i], inherit)
    decreases |hs|
  {
    if hs == [] then b
    else
      var r := AddHandlers(Apply(b, AddHandler(hs[0], inherit)), hs[1..], inherit);
      assert b.manager.handlers + [hs[0]] + hs[1..] == b.manager.handlers + hs;
      r
  }

  /** The manager the inheritable callbacks give: a list becomes both the visible and the
      inheritable handlers under the run tree's parent; a manager is copied whole. */
  function BaseManager(inheritable: CallbackArg, runTreeId: Option<RunId>): Manager {
    match inheritable
    case HandlerList(hs) => Manager(hs, hs, runTreeId, [], [], map[], map[])
    case FromManager(m) => m
  }

  /** The local handlers: a list itself, or a manager's visible handlers. */
  function LocalHandlers(local: CallbackArg): seq<Handler> {
    match local
    case HandlerList(hs) => hs
    case FromManager(m) => m.handlers
  }

  /** The handler part of `_configure`. */
  function MergeHandlers(inheritable: CallbackArg, local: CallbackArg, runTreeId: Option<RunId>): (r: Building)
    ensures !Truthy(inheritable) && !Truthy(local) ==> r == Building(EmptyManager(runTreeId), [])
    ensures (Truthy(inheritable) || Truthy(local)) && inheritable.HandlerList? ==>
              && r.manager.handlers == inheritable.handlers + LocalHandlers(local)
              && r.manager.inheritableHandlers == inheritable.handlers
              && r.manager.parentRunId == runTreeId
              && r.manager.tags == [] && r.manager.inheritableTags == []
              && r.manager.metadata == map[] && r.manager.inheritableMetadata == map[]
    ensures (Truthy(inheritable) || Truthy(local)) && inheritable.FromManager? ==>
              var m := inheritable.manager;
              && r.manager.handlers == m.handlers + LocalHandlers(local)
              && r.manager.inheritableHandlers == m.inheritableHandlers
              && r.manager == m.(handlers := m.handlers + LocalHandlers(local))
    ensures |r.ops| <= |LocalHandlers(local)|
    ensures Truthy(inheritable) || Truthy(local) ==> |r.ops| == |LocalHandlers(local)|
    ensures forall i :: 0 <= i < |r.ops| ==> r.ops[i] == AddHandler(LocalHandlers(local)[i], false)
  {
    if Truthy(inheritable) || Truthy(local) then
      AddHandlers(Building(BaseManager(inheritable, runTreeId), []), LocalHandlers(local), false)
    else
      Building(EmptyManager(runTreeId), [])
  }

  /** The tag part: inheritable tags with `inherit` set, then local tags without, only when
      either is non-empty. */
  function MergeTags(b: Building, inheritableTags: seq<string>, localTags: seq<string>): (r: Building)
    ensures inheritableTags == [] && localTags == [] ==> r == b
    ensures inheritableTags != [] || localTags != [] ==>
              && r.ops == b.ops + [AddTags(inheritableTags, true), AddTags(localTags, false)]
              && r.manager.tags == b.manager.tags + inheritableTags + localTags
              && r.manager.inheritableTags == b.manager.inheritableTags + inheritableTags
    ensures r.manager.handlers == b.manager.handlers
    ensures r.manager.inheritableHandlers == b.manager.inheritableHandlers
    ensures r.manager.metadata == b.manager.metadata && r.manager.inheritableMetadata == b.manager.inheritableMetadata
    ensures r.manager.parentRunId == b.manager.parentRunId
  {
    if inheritableTags != [] || localTags != [] then
      Apply(Apply(b, AddTags(inheritableTags, true)), AddTags(localTags, false))
    else b
  }

  /** The metadata part, in the same way. */
  function MergeMetadata(b: Building, inheritableMetadata: map<string, string>, localMetadata: map<string, string>): (r: Building)
    ensures inheritableMetadata == map[] && localMetadata == map[] ==> r == b
    ensures inheritableMetadata != map[] || localMetadata != map[] ==>
              && r.ops == b.ops + [AddMetadata(inheritableMetadata, true), AddMetadata(localMetadata, false)]
              && r.manager.metadata == b.manager.metadata + inheritableMetadata + localMetadata
              && r.manager.inheritableMetadata == b.manager.inheritableMetadata + inheritableMetadata
    ensures r.manager.handlers == b.manager.handlers
    ensures r.manager.inheritableHandlers == b.manager.inheritableHandlers
    ensures r.manager.tags == b.manager.tags && r.manager.inheritableTags == b.manager.inheritableTags
    ensures r.manager.parentRunId == b.manager.parentRunId
  {
    if inheritableMetadata != map[] || localMetadata != map[] then
      Apply(Apply(b, AddMetadata(inheritableMetadata, true)), AddMetadata(localMetadata, false))
    else b
  }

  // ---------------------------------------------------------------------------------------
  // Attaching diagnostic handlers

  /** `env_var_is_set("LANGCHAIN_TRACING") or tracer is not None or env_var_is_set("LANGCHAIN_HANDLER")`. */
  predicate TracingEnabled(amb: Ambient) {
    "LANGCHAIN_TRACING" in amb.envSet || amb.tracer.Some? || "LANGCHAIN_HANDLER" in amb.envSet
  }

  /** `r` is `b` with at most `h` added, with the given `inherit` flag; nothing else changes. */
  predicate AddsAtMost(b: Building, r: Building, h: Handler, inherit: bool) {
    || r == b
    || (&& r.manager == b.manager.(handlers := b.manager.handlers + [h],
                                   inheritableHandlers := b.manager.inheritableHandlers + (if inherit then [h] else []))
        && r.ops == b.ops + [AddHandler(h, inherit)])
  }

  /** `r` only appends handlers to `b`: the handler lists grow at the end and the parent run,
      tags and metadata stay. */
  predicate Grows(b: Building, r: Building) {
    && |b.manager.handlers| <= |r.manager.handlers|
    && r.manager.handlers[..|b.manager.handlers|] == b.manager.handlers
    && |b.manager.inheritableHandlers| <= |r.manager.inheritableHandlers|
    && r.manager.inheritableHandlers[..|b.manager.inheritableHandlers|] == b.manager.inheritableHandlers
    && r.manager.parentRunId == b.manager.parentRunId
    && r.manager.tags == b.manager.tags && r.manager.inheritableTags == b.manager.inheritableTags
    && r.manager.metadata == b.manager.metadata && r.manager.inheritableMetadata == b.manager.inheritableMetadata
  }

  /** Adds `h` unless a handler of class `k` is already there. */
  function AddUnlessKind(b: Building, k: Kind, h: Handler, inherit: bool): (r: Building)
    ensures HasKind(b.manager.handlers, k) ==> r == b
    ensures !HasKind(b.manager.handlers, k) ==>
              && r.manager.handlers == b.manager.handlers + [h]
              && r.manager.inheritableHandlers == b.manager.inheritableHandlers + (if inherit then [h] else [])
              && r.ops == b.ops + [AddHandler(h, inherit)]
  {
    if HasKind(b.manager.handlers, k) then b else Apply(b, AddHandler(h, inherit))
  }

  /** Verbose mode adds a non-inheritable StdOut handler, unless debug is on or one is there. */
  function AttachVerbose(b: Building, verbose: bool, amb: Ambient): (r: Building)
    ensures AddsAtMost(b, r, amb.newStdOut, false)
    ensures r != b <==> verbose && !amb.debug && !HasKind(b.manager.handlers, StdOut)
  {
    if verbose && !amb.debug then AddUnlessKind(b, StdOut, amb.newStdOut, false) else b
  }

  /** Debug mode adds an inheritable Console handler unless one is there. */
  function AttachDebug(b: Building, amb: Ambient): (r: Building)
    ensures AddsAtMost(b, r, amb.newConsole, true)
    ensures r != b <==> amb.debug && !HasKind(b.manager.handlers, Console)
  {
    if amb.debug then AddUnlessKind(b, Console, amb.newConsole, true) else b
  }

  /** The handler tracing (v1) adds: the context's tracer, else a new `LangChainTracerV1`. */
  function TracerV1Handler(amb: Ambient): Handler {
    if amb.tracer.Some? then amb.tracer.value else amb.newTracerV1
  }

  /** The handler tracing (v2) adds: the context's tracer, else a new `LangChainTracer`,
      which is missing when its constructor raises (that failure is only logged). */
  function TracerV2Handler(amb: Ambient): Option<Handler> {
    if amb.tracerV2.Some? then amb.tracerV2 else amb.newTracerV2
  }

  /** Tracing (v1) adds its tracer unless a v1 tracer is there. */
  function AttachTracerV1(b: Building, amb: Ambient): (r: Building)
    ensures AddsAtMost(b, r, TracerV1Handler(amb), true)
    ensures r != b <==> TracingEnabled(amb) && !HasKind(b.manager.handlers, TracerV1)
  {
    if TracingEnabled(amb) then AddUnlessKind(b, TracerV1, TracerV1Handler(amb), true) else b
  }

  /** Tracing (v2) adds its tracer, when there is one, unless a v2 tracer is there. */
  function AttachTracerV2(b: Building, amb: Ambient): (r: Building)
    ensures TracerV2Handler(amb).Some? ==> AddsAtMost(b, r, TracerV2Handler(amb).value, true)
    ensures r != b <==> amb.tracingV2Enabled && !HasKind(b.manager.handlers, TracerV2) && TracerV2Handler(amb).Some?
  {
    if amb.tracingV2Enabled && !HasKind(b.manager.handlers, TracerV2) then
      match TracerV2Handler(amb)
      case Some(h) => Apply(b, AddHandler(h, true))
      case None => b
    else b
  }

  /** The diagnostic handlers, in order: verbose, debug, tracing v1, tracing v2. */
  function AttachDiagnostics(b: Building, verbose: bool, amb: Ambient): Building {
    if verbose || amb.debug || TracingEnabled(amb) || amb.tracingV2Enabled then
      AttachTracerV2(AttachTracerV1(AttachDebug(AttachVerbose(b, verbose, amb), amb), amb), amb)
    else b
  }

  /** The hook is active: its context variable holds a handler, or its environment variable
      is set and it has a handler class. */
  predicate HookActive(hook: Hook, envSet: set<string>) {
    hook.current.Some? || (hook.envVar.Some? && hook.envVar.value in envSet && hook.handlerClass.Some?)
  }

  /** The handler an active hook adds: the context variable's, else a new one of its class. */
  function HookHandler(hook: Hook): Handler {
    if hook.current.Some? then hook.current.value else hook.constructed
  }

  /** The hook's handler is already represented: by class when the hook has one, otherwise
      by identity. */
  predicate HookPresent(hs: seq<Handler>, hook: Hook) {
    if hook.handlerClass.None? then HasIdentity(hs, HookHandler(hook))
    else HasKind(hs, hook.handlerClass.value)
  }

  /** One hook of `_configure_hooks`. */
  function AttachHook(b: Building, hook: Hook, envSet: set<string>): (r: Building)
    ensures AddsAtMost(b, r, HookHandler(hook), hook.inheritable)
    ensures r != b <==> HookActive(hook, envSet) && !HookPresent(b.manager.handlers, hook)
  {
    if HookActive(hook, envSet) && !HookPresent(b.manager.handlers, hook) then
      Apply(b, AddHandler(HookHandler(hook), hook.inheritable))
    else b
  }

  /** The hooks, in list order. */
  function AttachHooks(b: Building, hooks: seq<Hook>, envSet: set<string>): Building
    decreases |hooks|
  {
    if hooks == [] then b else AttachHooks(AttachHook(b, hooks[0], envSet), hooks[1..], envSet)
  }

  // ---------------------------------------------------------------------------------------
  // A reference description of attachment: one list of stages, each adding its handler when
  // it is enabled and nothing of its kind (or, for a hook without a class, the handler itself)
  // is on the list built so far.

  /** How a stage tells that its handler is already represented. */
  datatype Presence = ByKind(kind: Kind) | ByIdentity(handler: Handler)

  /** One attachment stage: the handler it adds, with its `inherit` flag, whether its switch
      asks for it, and its presence test. */
  datatype Stage = Stage(handler: Handler, inherit: bool, enabled: bool, test: Presence)

  predicate Present(hs: seq<Handler>, t: Presence) {
    match t
    case ByKind(k) => HasKind(hs, k)
    case ByIdentity(h) => HasIdentity(hs, h)
  }

  /** The diagnostic stages, in order: verbose, debug, tracing v1, tracing v2 (the last only
      when there is a v2 tracer to add). */
  function DiagnosticStages(verbose: bool, amb: Ambient): seq<Stage> {
    [Stage(amb.newStdOut, false, verbose && !amb.debug, ByKind(StdOut)),
     Stage(amb.newConsole, true, amb.debug, ByKind(Console)),
     Stage(TracerV1Handler(amb), true, TracingEnabled(amb), ByKind(TracerV1))]
    + (match TracerV2Handler(amb)
       case Some(h) => [Stage(h, true, amb.tracingV2Enabled, ByKind(TracerV2))]
       case None => [])
  }

  /** The stage of one hook: tested by class when it has one, by identity otherwise. */
  function HookStage(hook: Hook, envSet: set<string>): Stage {
    Stage(HookHandler(hook), hook.inheritable, HookActive(hook, envSet),
          if hook.handlerClass.None? then ByIdentity(HookHandler(hook)) else ByKind(hook.handlerClass.value))
  }

  function HookStages(hooks: seq<Hook>, envSet: set<string>): (ss: seq<Stage>)
    ensures |ss| == |hooks|
    decreases |hooks|
  {
    if hooks == [] then [] else [HookStage(hooks[0], envSet)] + HookStages(hooks[1..], envSet)
  }

  /** Every stage of `_configure`, in the order it runs them. */
  function Stages(verbose: bool, amb: Ambient): seq<Stage> {
    DiagnosticStages(verbose, amb) + HookStages(amb.hooks, amb.envSet)
  }

  /** The stages that fire on handlers `hs`, in order: a stage fires when it is enabled and
      its handler is not represented on the list as it stands after the earlier stages. */
  function Fired(hs: seq<Handler>, stages: seq<Stage>): (f: seq<Stage>)
    ensures |f| <= |stages|
    decreases |stages|
  {
    if stages == [] then []
    else
      var s := stages[0];
      if s.enabled && !Present(hs, s.test) then [s] + Fired(hs + [s.handler], stages[1..])
      else Fired(hs, stages[1..])
  }

  function Handlers(f: seq<Stage>): seq<Handler> {
    if f == [] then [] else [f[0].handler] + Handlers(f[1..])
  }

  function Inherited(f: seq<Stage>): seq<Handler> {
    if f == [] then [] else (if f[0].inherit then [f[0].handler] else []) + Inherited(f[1..])
  }

  function AddOps(f: seq<Stage>): seq<Op> {
    if f == [] then [] else [AddHandler(f[0].handler, f[0].inherit)] + AddOps(f[1..])
  }

  /** `r` is `b` with the handlers of the fired stages `f` added, in order, each with its own
      `inherit` flag, and nothing else changed. */
  predicate AppendsFired(b: Building, r: Building, f: seq<Stage>) {
    && r.manager == b.manager.(handlers := b.manager.handlers + Handlers(f),
                               inheritableHandlers := b.manager.inheritableHandlers + Inherited(f))
    && r.ops == b.ops + AddOps(f)
  }

  /** One stage run on `b`. */
  function StageStep(b: Building, s: Stage): Building {
    if s.enabled && !Present(b.manager.handlers, s.test) then Apply(b, AddHandler(s.handler, s.inherit)) else b
  }

  function RunStages(b: Building, stages: seq<Stage>): Building
    decreases |stages|
  {
    if stages == [] then b else RunStages(StageStep(b, stages[0]), stages[1..])
  }

  lemma {:induction false} RunStagesAppends(b: Building, stages: seq<Stage>)
    ensures AppendsFired(b, RunStages(b, stages), Fired(b.manager.handlers, stages))
    decreases |stages|
  {
    if stages != [] {
      var s := stages[0];
      var b1 := StageStep(b, s);
      RunStagesAppends(b1, stages[1..]);
      if s.enabled && !Present(b.manager.handlers, s.test) {
        var f1 := Fired(b1.manager.handlers, stages[1..]);
        assert Fired(b.manager.handlers, stages) == [s] + f1;
        assert ([s] + f1)[1..] == f1;
        assert b.manager.handlers + [s.handler] + Handlers(f1) == b.manager.handlers + Handlers([s] + f1);
        assert b.ops + [AddHandler(s.handler, s.inherit)] + AddOps(f1) == b.ops + AddOps([s] + f1);
        if s.inherit {
          assert b.manager.inheritableHandlers + [s.handler] + Inherited(f1)
              == b.manager.inheritableHandlers + Inherited([s] + f1);
        }
      }
    }
  }

  lemma {:induction false} RunStagesSplit(b: Building, s1: seq<Stage>, s2: seq<Stage>)
    ensures RunStages(b, s1 + s2) == RunStages(RunStages(b, s1), s2)
    decreases |s1|
  {
    if s1 != [] {
      assert (s1 + s2)[0] == s1[0];
      assert (s1 + s2)[1..] == s1[1..] + s2;
      RunStagesSplit(StageStep(b, s1[0]), s1[1..], s2);
    } else {
      assert s1 + s2 == s2;
    }
  }

  lemma DiagnosticsAreStages(b: Building, verbose: bool, amb: Ambient)
    ensures AttachDiagnostics(b, verbose, amb) == RunStages(b, DiagnosticStages(verbose, amb))
  {
    var ss := DiagnosticStages(verbose, amb);
    var b1 := StageStep(b, ss[0]);
    var b2 := StageStep(b1, ss[1]);
    var b3 := StageStep(b2, ss[2]);
    assert RunStages(b, ss) == RunStages(b1, ss[1..]);
    assert ss[1..][0] == ss[1] && ss[1..][1..] == ss[2..];
    assert RunStages(b1, ss[1..]) == RunStages(b2, ss[2..]);
    assert ss[2..][0] == ss[2] && ss[2..][1..] == ss[3..];
    assert RunStages(b2, ss[2..]) == RunStages(b3, ss[3..]);
    if TracerV2Handler(amb).Some? {
      assert ss[3..][1..] == [];
      assert RunStages(b3, ss[3..]) == StageStep(b3, ss[3]);
    } else {
      assert ss[3..] == [];
    }
  }

  lemma {:induction false} HooksAreStages(b: Building, hooks: seq<Hook>, envSet: set<string>)
    ensures AttachHooks(b, hooks, envSet) == RunStages(b, HookStages(hooks, envSet))
    decreases |hooks|
  {
    if hooks != [] {
      assert AttachHook(b, hooks[0], envSet) == StageStep(b, HookStage(hooks[0], envSet));
      HooksAreStages(AttachHook(b, hooks[0], envSet), hooks[1..], envSet);
    }
  }

  /** The handler, tag and metadata merge of `_configure`, before anything is attached. */
  function Merged(
    inheritable: CallbackArg, local: CallbackArg,
    inheritableTags: seq<string>, localTags: seq<string>,
    inheritableMetadata: map<string, string>, localMetadata: map<string, string>,
    runTreeId: Option<RunId>): Building
  {
    MergeMetadata(MergeTags(MergeHandlers(inheritable, local, runTreeId), inheritableTags, localTags),
                  inheritableMetadata, localMetadata)
  }

  /** `_configure(...)`: merge, then diagnostics, then hooks. The result is the merged manager
      with the handlers of exactly the stages that fire appended, in stage order (verbose,
      debug, tracing v1, tracing v2, then the hooks in list order), each with its own
      `inherit` flag; the parent run, tags and metadata are those of the merge. */
  function Configure(
    inheritable: CallbackArg, local: CallbackArg, verbose: bool,
    inheritableTags: seq<string>, localTags: seq<string>,
    inheritableMetadata: map<string, string>, localMetadata: map<string, string>,
    amb: Ambient): (r: Building)
    ensures var merged := Merged(inheritable, local, inheritableTags, localTags,
                                 inheritableMetadata, localMetadata, amb.runTreeId);
            AppendsFired(merged, r, Fired(merged.manager.handlers, Stages(verbose, amb)))
  {
    var merged := Merged(inheritable, local, inheritableTags, localTags,
                         inheritableMetadata, localMetadata, amb.runTreeId);
    DiagnosticsAreStages(merged, verbose, amb);
    HooksAreStages(AttachDiagnostics(merged, verbose, amb), amb.hooks, amb.envSet);
    RunStagesSplit(merged, DiagnosticStages(verbose, amb), HookStages(amb.hooks, amb.envSet));
    RunStagesAppends(merged, Stages(verbose, amb));
    AttachHooks(AttachDiagnostics(merged, verbose, amb), amb.hooks, amb.envSet)
  }
}
