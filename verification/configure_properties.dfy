/** What `_configure` guarantees about the manager it builds. */
module ConfigureProperties {
  import opened Wrappers
  import opened Callbacks
  import opened Configure

  /** Each constructor and context variable yields a handler of the class it is checked against. */
  predicate WellKinded(amb: Ambient) {
    && amb.newStdOut.kind == StdOut
    && amb.newConsole.kind == Console
    && TracerV1Handler(amb).kind == TracerV1
    && (TracerV2Handler(amb).Some? ==> TracerV2Handler(amb).value.kind == TracerV2)
    && forall j :: 0 <= j < |amb.hooks| ==> HookWellKinded(amb.hooks[j])
  }

  /** A hook with a handler class yields a handler of that class. */
  predicate HookWellKinded(hook: Hook) {
    hook.handlerClass.Some? ==> HookHandler(hook).kind == hook.handlerClass.value
  }

  /** Every diagnostic handler and hook the switches ask for is represented in `hs`. */
  predicate Attached(hs: seq<Handler>, verbose: bool, amb: Ambient) {
    && (verbose && !amb.debug ==> HasKind(hs, StdOut))
    && (amb.debug ==> HasKind(hs, Console))
    && (TracingEnabled(amb) ==> HasKind(hs, TracerV1))
    && (amb.tracingV2Enabled && TracerV2Handler(amb).Some? ==> HasKind(hs, TracerV2))
    && HooksAttached(hs, amb.hooks, amb.envSet)
  }

  predicate HooksAttached(hs: seq<Handler>, hooks: seq<Hook>, envSet: set<string>) {
    forall j :: 0 <= j < |hooks| && HookActive(hooks[j], envSet) ==> HookPresent(hs, hooks[j])
  }

  lemma GrowsTrans(a: Building, b: Building, c: Building)
    requires Grows(a, b) && Grows(b, c)
    ensures Grows(a, c)
  {
    assert c.manager.handlers[..|a.manager.handlers|]
        == c.manager.handlers[..|b.manager.handlers|][..|a.manager.handlers|];
    assert c.manager.inheritableHandlers[..|a.manager.inheritableHandlers|]
        == c.manager.inheritableHandlers[..|b.manager.inheritableHandlers|][..|a.manager.inheritableHandlers|];
  }

  lemma AddsAtMostGrows(b: Building, r: Building, h: Handler, inherit: bool)
    requires AddsAtMost(b, r, h, inherit)
    ensures Grows(b, r)
    ensures r != b ==> r.manager.handlers == b.manager.handlers + [h]
  {
    if r != b {
      assert r.manager.handlers[..|b.manager.handlers|] == b.manager.handlers;
      assert r.manager.inheritableHandlers[..|b.manager.inheritableHandlers|] == b.manager.inheritableHandlers;
    }
  }

  /** Whatever class or identity is present stays present as the lists grow. */
  lemma GrowsKeepsPresence(b: Building, r: Building)
    requires Grows(b, r)
    ensures forall k :: HasKind(b.manager.handlers, k) ==> HasKind(r.manager.handlers, k)
    ensures forall h :: HasIdentity(b.manager.handlers, h) ==> HasIdentity(r.manager.handlers, h)
  {
    forall k | HasKind(b.manager.handlers, k) ensures HasKind(r.manager.handlers, k) {
      var i :| 0 <= i < |b.manager.handlers| && b.manager.handlers[i].kind == k;
      assert r.manager.handlers[i] == r.manager.handlers[..|b.manager.handlers|][i];
    }
    forall h | HasIdentity(b.manager.handlers, h) ensures HasIdentity(r.manager.handlers, h) {
      var i :| 0 <= i < |b.manager.handlers| && b.manager.handlers[i].id == h.id;
      assert r.manager.handlers[i] == r.manager.handlers[..|b.manager.handlers|][i];
    }
  }

  lemma HooksAttachedGrows(b: Building, r: Building, hooks: seq<Hook>, envSet: set<string>)
    requires Grows(b, r) && HooksAttached(b.manager.handlers, hooks, envSet)
    ensures HooksAttached(r.manager.handlers, hooks, envSet)
  {
    GrowsKeepsPresence(b, r);
  }

  lemma LastPresent(hs: seq<Handler>, h: Handler)
    ensures HasKind(hs + [h], h.kind) && HasIdentity(hs + [h], h)
  {
    assert (hs + [h])[|hs|] == h;
  }

  /** One attachment stage: the lists only grow, what was present stays, and if the stage
      added its handler, or one of class `k` was there already, one of class `k` is there. */
  lemma StagePresence(b: Building, r: Building, h: Handler, inherit: bool, k: Kind)
    requires AddsAtMost(b, r, h, inherit)
    requires r != b ==> h.kind == k
    ensures Grows(b, r)
    ensures (r != b || HasKind(b.manager.handlers, k)) ==> HasKind(r.manager.handlers, k)
    ensures forall k' :: HasKind(b.manager.handlers, k') ==> HasKind(r.manager.handlers, k')
  {
    AddsAtMostGrows(b, r, h, inherit);
    GrowsKeepsPresence(b, r);
    if r != b {
      LastPresent(b.manager.handlers, h);
    }
  }

  /** The diagnostic handlers only append, and afterwards every one the switches ask for is
      represented. */
  lemma DiagnosticsAttached(b: Building, verbose: bool, amb: Ambient)
    requires WellKinded(amb)
    ensures var r := AttachDiagnostics(b, verbose, amb);
            && Grows(b, r)
            && (verbose && !amb.debug ==> HasKind(r.manager.handlers, StdOut))
            && (amb.debug ==> HasKind(r.manager.handlers, Console))
            && (TracingEnabled(amb) ==> HasKind(r.manager.handlers, TracerV1))
            && (amb.tracingV2Enabled && TracerV2Handler(amb).Some? ==> HasKind(r.manager.handlers, TracerV2))
  {
    if verbose || amb.debug || TracingEnabled(amb) || amb.tracingV2Enabled {
      var b1 := AttachVerbose(b, verbose, amb);
      var b2 := AttachDebug(b1, amb);
      var b3 := AttachTracerV1(b2, amb);
      var b4 := AttachTracerV2(b3, amb);
      StagePresence(b, b1, amb.newStdOut, false, StdOut);
      StagePresence(b1, b2, amb.newConsole, true, Console);
      StagePresence(b2, b3, TracerV1Handler(amb), true, TracerV1);
      if TracerV2Handler(amb).Some? {
        StagePresence(b3, b4, TracerV2Handler(amb).value, true, TracerV2);
      } else {
        assert b4 == b3;
        assert Grows(b3, b4);
      }
      GrowsTrans(b, b1, b2);
      GrowsTrans(b, b2, b3);
      GrowsTrans(b, b3, b4);
    } else {
      assert Grows(b, b);
    }
  }

  /** The hooks only append, and afterwards every active well-kinded hook is represented. */
  lemma {:induction false} HooksAttachedAfter(b: Building, hooks: seq<Hook>, envSet: set<string>)
    requires forall j :: 0 <= j < |hooks| ==> HookWellKinded(hooks[j])
    ensures var r := AttachHooks(b, hooks, envSet);
            Grows(b, r) && HooksAttached(r.manager.handlers, hooks, envSet)
    decreases |hooks|
  {
    if hooks == [] {
      assert Grows(b, b);
    } else {
      var hook := hooks[0];
      var b1 := AttachHook(b, hook, envSet);
      var r := AttachHooks(b1, hooks[1..], envSet);
      AddsAtMostGrows(b, b1, HookHandler(hook), hook.inheritable);
      HooksAttachedAfter(b1, hooks[1..], envSet);
      GrowsTrans(b, b1, r);
      if HookActive(hook, envSet) {
        if b1 != b {
          LastPresent(b.manager.handlers, HookHandler(hook));
        }
        assert HookPresent(b1.manager.handlers, hook);
        GrowsKeepsPresence(b1, r);
      }
      forall j | 0 <= j < |hooks| && HookActive(hooks[j], envSet)
        ensures HookPresent(r.manager.handlers, hooks[j])
      {
        if j > 0 {
          assert hooks[1..][j - 1] == hooks[j];
        }
      }
    }
  }

  /** `_configure` never removes or reorders what the merge produced (inherited handlers are
      never dropped), keeps its parent run, tags and metadata, and leaves every diagnostic
      handler and hook the switches ask for attached. */
  lemma ConfigureAttaches(
    inheritable: CallbackArg, local: CallbackArg, verbose: bool,
    inheritableTags: seq<string>, localTags: seq<string>,
    inheritableMetadata: map<string, string>, localMetadata: map<string, string>, amb: Ambient)
    requires WellKinded(amb)
    ensures var merged := MergeMetadata(MergeTags(MergeHandlers(inheritable, local, amb.runTreeId),
                                                  inheritableTags, localTags),
                                        inheritableMetadata, localMetadata);
            var r := Configure.Configure(inheritable, local, verbose, inheritableTags, localTags,
                               inheritableMetadata, localMetadata, amb);
            Grows(merged, r) && Attached(r.manager.handlers, verbose, amb)
  {
    var merged := MergeMetadata(MergeTags(MergeHandlers(inheritable, local, amb.runTreeId),
                                          inheritableTags, localTags),
                                inheritableMetadata, localMetadata);
    var d := AttachDiagnostics(merged, verbose, amb);
    var r := AttachHooks(d, amb.hooks, amb.envSet);
    DiagnosticsAttached(merged, verbose, amb);
    HooksAttachedAfter(d, amb.hooks, amb.envSet);
    GrowsTrans(merged, d, r);
    GrowsKeepsPresence(d, r);
  }

  lemma {:induction false} NoHookToAttach(b: Building, hooks: seq<Hook>, envSet: set<string>)
    requires HooksAttached(b.manager.handlers, hooks, envSet)
    ensures AttachHooks(b, hooks, envSet) == b
    decreases |hooks|
  {
    if hooks != [] {
      assert HookActive(hooks[0], envSet) ==> HookPresent(b.manager.handlers, hooks[0]);
      assert AttachHook(b, hooks[0], envSet) == b;
      forall j | 0 <= j < |hooks[1..]| && HookActive(hooks[1..][j], envSet)
        ensures HookPresent(b.manager.handlers, hooks[1..][j])
      {
        assert hooks[1..][j] == hooks[j + 1];
      }
      NoHookToAttach(b, hooks[1..], envSet);
    }
  }

  /** Attachment is idempotent: on handlers that already hold everything the switches ask
      for, the diagnostics and hooks add nothing. */
  lemma NothingAttachedTwice(b: Building, verbose: bool, amb: Ambient)
    requires Attached(b.manager.handlers, verbose, amb)
    ensures AttachHooks(AttachDiagnostics(b, verbose, amb), amb.hooks, amb.envSet) == b
  {
    assert AttachDiagnostics(b, verbose, amb) == b;
    NoHookToAttach(b, amb.hooks, amb.envSet);
  }

  /** Configuring again from a configured manager, with nothing local, gives back the same
      manager: no diagnostic handler or hook is attached twice. */
  lemma ReconfigureAddsNothing(
    inheritable: CallbackArg, local: CallbackArg, verbose: bool,
    inheritableTags: seq<string>, localTags: seq<string>,
    inheritableMetadata: map<string, string>, localMetadata: map<string, string>, amb: Ambient)
    requires WellKinded(amb)
    ensures var r := Configure.Configure(inheritable, local, verbose, inheritableTags, localTags,
                               inheritableMetadata, localMetadata, amb);
            Configure.Configure(FromManager(r.manager), HandlerList([]), verbose, [], [], map[], map[], amb).manager
            == r.manager
  {
    var r := Configure.Configure(inheritable, local, verbose, inheritableTags, localTags,
                       inheritableMetadata, localMetadata, amb);
    ConfigureAttaches(inheritable, local, verbose, inheritableTags, localTags,
                      inheritableMetadata, localMetadata, amb);
    var m0 := MergeHandlers(FromManager(r.manager), HandlerList([]), amb.runTreeId);
    assert m0.manager == r.manager;
    NothingAttachedTwice(m0, verbose, amb);
  }

  /** Inheritable `[a]`, local `[b]`, verbose, no debug, no tracing and no hooks: the manager
      dispatches to `a`, `b` and one new StdOut handler, in that order; only `a` is inherited. */
  lemma VerboseScenario(a: Handler, b: Handler, amb: Ambient)
    requires a.kind != StdOut && b.kind != StdOut
    requires !amb.debug && !TracingEnabled(amb) && !amb.tracingV2Enabled && amb.hooks == []
    ensures var r := Configure.Configure(HandlerList([a]), HandlerList([b]), true, [], [], map[], map[], amb);
            && r.manager.handlers == [a, b, amb.newStdOut]
            && r.manager.inheritableHandlers == [a]
            && r.manager.parentRunId == amb.runTreeId
  {
    var merged := MergeHandlers(HandlerList([a]), HandlerList([b]), amb.runTreeId);
    assert merged.manager.handlers == [a, b];
    assert !HasKind(merged.manager.handlers, StdOut);
  }

  /** `f` is `stages` with some entries dropped, the rest kept in order. */
  predicate Subsequence(f: seq<Stage>, stages: seq<Stage>)
    decreases |stages|
  {
    || f == []
    || (&& stages != []
        && ((f[0] == stages[0] && Subsequence(f[1..], stages[1..])) || Subsequence(f, stages[1..])))
  }

  /** Only enabled stages fire, each at most once and in stage order: the fired stages are a
      subsequence of the stage list. */
  lemma {:induction false} FiredSubsequence(hs: seq<Handler>, stages: seq<Stage>)
    ensures forall i :: 0 <= i < |Fired(hs, stages)| ==> Fired(hs, stages)[i].enabled
    ensures Subsequence(Fired(hs, stages), stages)
    decreases |stages|
  {
    if stages != [] {
      var s := stages[0];
      if s.enabled && !Present(hs, s.test) {
        var f1 := Fired(hs + [s.handler], stages[1..]);
        FiredSubsequence(hs + [s.handler], stages[1..]);
        assert Fired(hs, stages) == [s] + f1;
        assert ([s] + f1)[1..] == f1;
      } else {
        FiredSubsequence(hs, stages[1..]);
      }
    }
  }
}
