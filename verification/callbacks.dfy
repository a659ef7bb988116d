/** The data the callback layer works on: handlers with scripted behaviour, the values passed
    to them, the calls and warnings a dispatch produces, and the manager state. */
module Callbacks {
  import opened Wrappers
  import opened Messages

  /** A run identifier (a UUID in the program; only its identity matters here). */
  type RunId = nat

  /** The class of a handler, as far as the configuration code tells classes apart. */
  datatype Kind =
    | StdOut            // StdOutCallbackHandler
    | Console           // ConsoleCallbackHandler (debug)
    | TracerV1          // LangChainTracerV1
    | TracerV2          // LangChainTracer
    | Custom(cls: string)

  /** Unfinished asynchronous work returned by a handler. `failure` is what it raises when run. */
  datatype Coro = Coro(id: nat, failure: Option<string>)

  /** What a handler's method does when it is called for one event. */
  datatype Outcome =
    | Returns                 // returns a plain value, which is discarded
    | Coroutine(coro: Coro)   // returns a coroutine, which is collected
    | NotImplemented          // raises NotImplementedError
    | Fails(message: string)  // raises any other exception

  /** A callback handler. `id` is its object identity, `ignores` the set of ignore attributes
      that are true on it, `script` its behaviour per event name; an event it has no entry
      for is handled by the base callback handler: `on_chat_model_start` raises
      `NotImplementedError` (so that handlers written only against `on_llm_start` are served
      by the fallback), every other event method is a no-op. */
  datatype Handler = Handler(
    id: nat,
    kind: Kind,
    ignores: set<string>,
    raiseError: bool,
    script: map<string, Outcome>)

  /** Arguments passed to handler methods. */
  datatype Value =
    | Str(s: string)
    | Strs(ss: seq<string>)
    | MessageBatches(batches: seq<seq<Message>>)
    | Dict(entries: map<string, string>)
    | Uid(run: Option<RunId>)
    | Opaque(tag: nat)

  /** One invocation of a handler method: which handler, which event, with which arguments. */
  datatype Call = Call(handler: nat, event: string, args: seq<Value>, kwargs: map<string, Value>)

  /** Errors that escape a dispatch. */
  datatype Error =
    | Raised(message: string)   // a handler's exception, re-raised
    | ArgIndexError              // `args[1]` does not exist in the chat fallback
    | ArgTypeError               // `args[1]` is not a list of message lists in the chat fallback
    | DuplicateKeyword           // a keyword argument is passed twice

  /** Warnings written to the log. */
  datatype Warning =
    | NotImplementedIn(handler: nat, event: string)
    | ErrorIn(handler: nat, event: string, message: string)
    | CoroutineFailed(coro: nat, message: string)

  /** The state of a callback manager: the handlers it dispatches to, the ones it hands down
      to child runs, its parent run, and its tags and metadata, each split the same way. */
  datatype Manager = Manager(
    handlers: seq<Handler>,
    inheritableHandlers: seq<Handler>,
    parentRunId: Option<RunId>,
    tags: seq<string>,
    inheritableTags: seq<string>,
    metadata: map<string, string>,
    inheritableMetadata: map<string, string>)

  /** A manager with no handlers, tags or metadata under the given parent run. */
  function EmptyManager(parentRunId: Option<RunId>): (m: Manager)
    ensures m.handlers == [] && m.inheritableHandlers == [] && m.parentRunId == parentRunId
    ensures m.tags == [] && m.metadata == map[]
  {
    Manager([], [], parentRunId, [], [], map[], map[])
  }

  /** True when some handler in `hs` is of class `k` (`isinstance`). */
  predicate HasKind(hs: seq<Handler>, k: Kind) {
    exists i :: 0 <= i < |hs| && hs[i].kind == k
  }

  /** True when `h` itself (by identity) is in `hs`. */
  predicate HasIdentity(hs: seq<Handler>, h: Handler) {
    exists i :: 0 <= i < |hs| && hs[i].id == h.id
  }
}
