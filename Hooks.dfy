/** The user's lifecycle hooks and how the runner calls them. The sandbox that
    evaluates the script is not modelled: each hook is an oracle that says how
    a call to it settles under either calling convention. */
module Hooks {
  import opened JsValues
  import opened Errors

  /** How an awaited call ends: it completes, it rejects with an error, or it
      never settles. */
  datatype Settlement = Completed | Threw(error: ScriptError) | Pending

  /** What a callback-style hook does with its trailing completion callback
      `done(err)`: calls it (with or without an error), throws before calling
      it, or returns without ever calling it. */
  datatype DoneCall = CallsDone(err: Option<ScriptError>) | ThrowsFirst(thrown: ScriptError) | NeverCallsDone

  /** A top-level function of the script: its declared parameter count
      (`fn.length`), how awaiting a plain call to it settles, and what it does
      with a completion callback when it is handed one. */
  datatype Hook = Hook(arity: nat, direct: Settlement, viaDone: DoneCall)

  /** The two calling conventions: awaiting the returned value or promise, or
      going through the callback-to-promise adapter. */
  datatype Convention = DirectCall | CallbackAdapter

  /** One invocation of a hook by name, with the convention used for it. */
  datatype Call = Call(name: string, convention: Convention)

  /** A hook declared with exactly three parameters expects a completion
      callback; every other arity is called directly. */
  function ConventionOf(h: Hook): Convention
  {
    if h.arity == 3 then CallbackAdapter else DirectCall
  }

  /** The callback-to-promise adapter: the promise resolves when `done` is
      called without an error, rejects with the error `done` receives or with
      an error thrown before `done` is called, and never settles otherwise. */
  function Promisified(d: DoneCall): Settlement
  {
    match d
    case CallsDone(None) => Completed
    case CallsDone(Some(e)) => Threw(e)
    case ThrowsFirst(e) => Threw(e)
    case NeverCallsDone => Pending
  }

  /** How `await`ing the hook settles under the convention its arity selects. */
  function Await(h: Hook): Settlement
  {
    if ConventionOf(h) == CallbackAdapter then Promisified(h.viaDone) else h.direct
  }

  /** Whether the hook named by the method tag is called: the tag names one of
      the two lifecycle hooks and the script defines a function of that name. */
  predicate Dispatches(methodName: string, fns: map<string, Hook>)
  {
    (methodName == "beforeRender" || methodName == "afterRender") && methodName in fns
  }

  /** How the hook phase as a whole settles: the dispatched hook's settlement,
      or completion when no hook is called. */
  function HookOutcome(methodName: string, fns: map<string, Hook>): Settlement
  {
    if Dispatches(methodName, fns) then Await(fns[methodName]) else Completed
  }

  /** The two guarded hook calls, in order. The `beforeRender` hook runs only for
      the `beforeRender` tag and the `afterRender` hook only for the
      `afterRender` tag, so at most one hook is called, through the convention
      its arity selects. A hook that throws or never settles ends the phase. */
  method InvokeHooks(methodName: string, fns: map<string, Hook>) returns (calls: seq<Call>, s: Settlement)
    ensures |calls| <= 1
    ensures calls == [] <==> !Dispatches(methodName, fns)
    ensures calls != [] ==> calls[0].name == methodName
    ensures calls != [] ==> (calls[0].convention == CallbackAdapter <==> fns[methodName].arity == 3)
    ensures s == HookOutcome(methodName, fns)
  {
    calls, s := [], Completed;
    if methodName == "beforeRender" && "beforeRender" in fns {
      var h := fns["beforeRender"];
      calls := calls + [Call("beforeRender", ConventionOf(h))];
      s := Await(h);
    }
    if s.Completed? && methodName == "afterRender" && "afterRender" in fns {
      var h := fns["afterRender"];
      calls := calls + [Call("afterRender", ConventionOf(h))];
      s := Await(h);
    }
  }

  /** How awaiting a hook settles, for every hook. A hook whose arity is not
      three settles as its direct call does. A three-parameter hook completes
      exactly when it calls `done()` without an error, never settles exactly
      when it never calls `done`, and rejects with the error it throws before
      calling `done` or passes to `done`. */
  lemma AwaitByConvention(h: Hook)
    ensures h.arity != 3 ==> Await(h) == h.direct
    ensures h.arity == 3 ==> (Await(h) == Completed <==> h.viaDone == CallsDone(None))
    ensures h.arity == 3 ==> (Await(h) == Pending <==> h.viaDone == NeverCallsDone)
    ensures h.arity == 3 && h.viaDone.ThrowsFirst? ==> Await(h) == Threw(h.viaDone.thrown)
    ensures h.arity == 3 && h.viaDone.CallsDone? && h.viaDone.err.Some? ==> Await(h) == Threw(h.viaDone.err.value)
  {
  }
}
