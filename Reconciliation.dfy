/** The callback run inside the sandbox: call the hook, turn a cancellation into
    a normal result, restore the sandbox state to plain data, validate
    `req.data` and rebuild the well-known request fields. */
module Reconciliation {
  import opened JsValues
  import opened Errors
  import opened Hooks

  /** The plain data `restore()` hands back: the request object's own
      properties and the response value. */
  datatype Snapshot = Snapshot(request: map<string, JsVal>, response: JsVal)

  /** The request fields propagated out of the sandbox. */
  datatype RequestOut = RequestOut(template: JsVal, data: JsVal, options: JsVal, context: map<string, JsVal>)

  /** The `{ message, stack }` copy of the validation error; stacks are not modelled. */
  datatype ErrorInfo = ErrorInfo(message: string)

  /** What the callback returns normally: a cancellation payload, or the
      reconciled request, response and validation error. */
  datatype HookResult =
    | Cancelled(payload: JsVal)
    | Reconciled(shouldRunAfterRender: bool, req: RequestOut, res: map<string, JsVal>, error: Option<ErrorInfo>)

  /** How a run ends: a normal result, a thrown error, or never (an awaited
      hook that does not settle). */
  datatype Completion = Returned(result: HookResult) | Raised(error: ScriptError) | Suspended

  const InvalidDataMessage := "Script invalid assignment: req.data must be an object, make sure you are not changing its value in the script to a non object value"

  /** The reconciled result built from the restored snapshot. */
  function Reconcile(fns: map<string, Hook>, restored: Snapshot): (r: HookResult)
    ensures r.Reconciled?
    ensures r.shouldRunAfterRender <==> "afterRender" in fns
    ensures r.error.Some? <==> !IsObject(Lookup(restored.request, "data"))
    ensures r.error.Some? ==> r.error.value.message == InvalidDataMessage
    ensures r.error.None? ==> r.req.data == Lookup(restored.request, "data")
    ensures r.req.template == Lookup(restored.request, "template")
    ensures r.req.options == Lookup(restored.request, "options")
    ensures r.req.context == Spread(Lookup(restored.request, "context"))
    ensures r.res == Spread(restored.response)
  {
    var data := Lookup(restored.request, "data");
    var err := if IsObject(data) then None else Some(ErrorInfo(InvalidDataMessage));
    Reconciled(
      "afterRender" in fns,
      RequestOut(
        Lookup(restored.request, "template"),
        if err.None? then data else Undefined,
        Lookup(restored.request, "options"),
        Spread(Lookup(restored.request, "context"))),
      Spread(restored.response),
      err)
  }

  /** In a reconciled result the error is present exactly when the data was
      dropped, and data that is kept always passes the plain-object test. */
  lemma ErrorIffDataDropped(fns: map<string, Hook>, restored: Snapshot)
    ensures var r := Reconcile(fns, restored);
      && (r.error.Some? <==> r.req.data == Undefined)
      && (r.req.data == Undefined || IsObject(r.req.data))
  {
  }

  /** The sandbox callback. It runs the hook phase; a thrown error marked as a
      cancellation becomes a normal return of its payload without restoring
      anything, any other error propagates, and otherwise the snapshot is
      restored exactly once and reconciled. */
  method ExecutionFn(methodName: string, fns: map<string, Hook>, restored: Snapshot)
    returns (r: Completion, calls: seq<Call>, restoreCalls: nat)
    ensures |calls| <= 1 && (calls == [] <==> !Dispatches(methodName, fns))
    ensures r.Raised? ==> !r.error.isRequestCancel
    ensures restoreCalls == (if r.Returned? && r.result.Reconciled? then 1 else 0)
    ensures var s := HookOutcome(methodName, fns);
      && (s.Completed? ==> r == Returned(Reconcile(fns, restored)))
      && (s.Threw? && s.error.isRequestCancel ==> r == Returned(Cancelled(s.error.data)))
      && (s.Threw? && !s.error.isRequestCancel ==> r == Raised(s.error))
      && (s.Pending? ==> r == Suspended)
  {
    var s;
    calls, s := InvokeHooks(methodName, fns);
    restoreCalls := 0;
    match s
    case Pending =>
      r := Suspended;
    case Threw(e) =>
      if e.isRequestCancel {
        r := Returned(Cancelled(e.data));
      } else {
        r := Raised(e);
      }
    case Completed =>
      restoreCalls := restoreCalls + 1;
      r := Returned(Reconcile(fns, restored));
  }

  /** `shouldRunAfterRender` depends on the script alone: a completed
      `beforeRender` pass and a completed `afterRender` pass over the same
      script report the same flag, whatever their snapshots hold, and it is
      set exactly when the script defines `afterRender`. */
  method ShouldRunAfterRenderIgnoresTag(fns: map<string, Hook>, m1: string, m2: string, a: Snapshot, b: Snapshot)
    returns (r1: Completion, r2: Completion)
    requires HookOutcome(m1, fns).Completed? && HookOutcome(m2, fns).Completed?
    ensures r1.Returned? && r1.result.Reconciled? && r2.Returned? && r2.result.Reconciled?
    ensures r1.result.shouldRunAfterRender == r2.result.shouldRunAfterRender
    ensures r1.result.shouldRunAfterRender <==> "afterRender" in fns
  {
    var calls, restoreCalls;
    r1, calls, restoreCalls := ExecutionFn(m1, fns, a);
    r2, calls, restoreCalls := ExecutionFn(m2, fns, b);
  }
}
