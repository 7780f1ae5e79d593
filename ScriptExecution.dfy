/** One execution of a script's lifecycle hook: the cancel capability, the run
    inside the sandbox, and the annotation of errors that escape it. */
module ScriptExecution {
  import opened JsValues
  import opened Errors
  import opened Hooks
  import opened Reconciliation
  import opened Context

  /** The payload of a cancellation. A string becomes the additional info; an
      options value (or no argument, which defaults to `{}`) contributes its
      `message` and `statusCode`, present even when undefined; `null`
      contributes nothing. `requestCancel` is always true. */
  function CancelPayload(messageOrOptions: JsVal): (data: map<string, JsVal>)
    ensures "requestCancel" in data && data["requestCancel"] == Bool(true)
    ensures data.Keys <= {"additionalInfo", "statusCode", "requestCancel"}
    ensures "additionalInfo" in data <==> !messageOrOptions.Null?
    ensures "statusCode" in data <==> !messageOrOptions.Null? && !messageOrOptions.Str?
    ensures messageOrOptions.Str? ==> data["additionalInfo"] == messageOrOptions
    ensures !messageOrOptions.Null? && !messageOrOptions.Str? ==>
      data["additionalInfo"] == Get(messageOrOptions, "message") && data["statusCode"] == Get(messageOrOptions, "statusCode")
  {
    match messageOrOptions
    case Null => map["requestCancel" := Bool(true)]
    case Str(_) => map["additionalInfo" := messageOrOptions, "requestCancel" := Bool(true)]
    case _ =>
      map["additionalInfo" := Get(messageOrOptions, "message"),
          "statusCode" := Get(messageOrOptions, "statusCode"),
          "requestCancel" := Bool(true)]
  }

  /** `req.cancel(messageOrOptions)`. It never returns normally: its only
      outcome is a fresh error marked as a cancellation and carrying the
      payload, which it throws. */
  method Cancel(messageOrOptions: JsVal) returns (raised: ScriptError)
    ensures fresh(raised)
    ensures raised.isRequestCancel && raised.message == "Cancel scripts"
    ensures raised.data == Obj(ObjectProto, CancelPayload(messageOrOptions))
    ensures raised.entity == None && raised.property == None
  {
    var arg := if messageOrOptions.Undefined? then Obj(ObjectProto, map[]) else messageOrOptions;
    var data: map<string, JsVal> := map[];
    if arg.Str? {
      data := data["additionalInfo" := arg];
    } else if !arg.Null? {
      var message, statusCode := Get(arg, "message"), Get(arg, "statusCode");
      data := data["additionalInfo" := message];
      data := data["statusCode" := statusCode];
    }
    data := data["requestCancel" := Bool(true)];
    raised := new ScriptError("Cancel scripts");
    raised.isRequestCancel := true;
    raised.data := Obj(ObjectProto, data);
  }

  /** A hook that cancels, in either calling convention, makes the sandbox
      callback return exactly the cancellation payload instead of throwing. */
  method CancelledHookYieldsPayload(methodName: string, arity: nat, restored: Snapshot, messageOrOptions: JsVal)
    returns (r: Completion)
    requires methodName == "beforeRender" || methodName == "afterRender"
    ensures r == Returned(Cancelled(Obj(ObjectProto, CancelPayload(messageOrOptions))))
  {
    var e := Cancel(messageOrOptions);
    var hook := Hook(arity, Threw(e), ThrowsFirst(e));
    var calls, restoreCalls;
    r, calls, restoreCalls := ExecutionFn(methodName, map[methodName := hook], restored);
  }

  /** A script that defines neither hook and leaves the prepared data in place
      gets a reconciled result that asks for no `afterRender` pass and carries
      no error. */
  lemma NoHooksNoError(methodName: string, fns: map<string, Hook>, req: Request, clone: Request, restored: Snapshot)
    requires "beforeRender" !in fns && "afterRender" !in fns
    requires restored.request == PlainRequest(PrepareRequest(req, clone))
    ensures HookOutcome(methodName, fns) == Completed
    ensures var r := Reconcile(fns, restored); !r.shouldRunAfterRender && r.error.None?
  {
  }

  const EvaluationErrorPrefix := "Error when evaluating custom script "

  /** The path shown for a script: the resolved store path when it has an id,
      `anonymous` otherwise. */
  function ScriptPath(script: Script, resolvedPath: string): string
  {
    if Truthy(script.id) then resolvedPath else "anonymous"
  }

  /** The outer handler's rewrite of an escaping error, in place: the message
      is prefixed with the script path, and the script entity is attached only
      when the error has none yet and the script has a short id. */
  method AnnotateError(e: ScriptError, script: Script, resolvedPath: string)
    modifies e
    ensures e.message == EvaluationErrorPrefix + ScriptPath(script, resolvedPath) + "\n" + old(e.message)
    ensures old(e.entity).None? && Truthy(script.shortid) ==>
      e.entity == Some(Entity(script.shortid.value, script.name, script.content)) && e.property == Some("content")
    ensures !(old(e.entity).None? && Truthy(script.shortid)) ==>
      e.entity == old(e.entity) && e.property == old(e.property)
    ensures e.isRequestCancel == old(e.isRequestCancel) && e.data == old(e.data)
  {
    var nestedErrorWithEntity := e.entity.Some?;
    var scriptPath := ScriptPath(script, resolvedPath);
    e.message := EvaluationErrorPrefix + scriptPath + "\n" + e.message;
    if !nestedErrorWithEntity {
      if Truthy(script.shortid) {
        e.entity := Some(Entity(script.shortid.value, script.name, script.content));
        e.property := Some("content");
      }
    }
  }

  /** What a dispatched hook leaves behind, however it settles: the sandbox
      request copy as it last held it (its `shared` field aside, which stays the
      original object), and the contents it leaves in the live response and in
      the shared store, both of which it reaches by reference. */
  datatype Effects = Effects(request: Request, response: map<string, JsVal>, shared: map<string, JsVal>)

  /** What the sandbox does with the script: it fails before the callback runs
      (for instance on a syntax error), or it evaluates the script, exposing its
      top-level functions, and the hook that is called has the given effects. */
  datatype Sandbox = Crashes(error: ScriptError) | Runs(functions: map<string, Hook>, effects: Effects)

  /** The sandbox request that `restore()` reads: the prepared copy when no
      hook runs, otherwise the copy as the hook left it, which still holds the
      original shared object. */
  function RequestLeft(prepared: Request, methodName: string, fns: map<string, Hook>, effects: Effects): Request
  {
    if Dispatches(methodName, fns) then effects.request.(shared := prepared.shared) else prepared
  }

  /** The errors the run may touch: a crash of the sandbox, or the error a hook
      throws (only those that are not cancellations escape and are annotated). */
  function EscapeCandidates(methodName: string, sandbox: Sandbox): set<ScriptError>
  {
    match sandbox
    case Crashes(e) => {e}
    case Runs(fns, _) =>
      var s := HookOutcome(methodName, fns);
      if s.Threw? then {s.error} else {}
  }

  /** A sandbox run that reaches the callback. The dispatched hook writes
      through the response and the shared store of the sandbox context, and
      the callback then reconciles the snapshot `restore()` takes of the state
      the hook left. */
  method RunCallback(methodName: string, fns: map<string, Hook>, effects: Effects, ctx: IsolatedContext)
    returns (out: Completion)
    modifies ctx.response, if ctx.request.shared.Some? then {ctx.request.shared.value} else {}
    ensures Dispatches(methodName, fns) ==>
      && ctx.response.fields == effects.response
      && (ctx.request.shared.Some? ==> ctx.request.shared.value.entries == effects.shared)
    ensures !Dispatches(methodName, fns) ==>
      && ctx.response.fields == old(ctx.response.fields)
      && (ctx.request.shared.Some? ==> ctx.request.shared.value.entries == old(ctx.request.shared.value.entries))
    ensures var s := HookOutcome(methodName, fns);
      var restored := Snapshot(PlainRequest(RequestLeft(ctx.request, methodName, fns, effects)), Obj(ObjectProto, ctx.response.fields));
      && (s.Completed? ==> out == Returned(Reconcile(fns, restored)))
      && (s.Threw? && s.error.isRequestCancel ==> out == Returned(Cancelled(s.error.data)))
      && (s.Threw? && !s.error.isRequestCancel ==> out == Raised(s.error))
      && (s.Pending? ==> out == Suspended)
    ensures !Dispatches(methodName, fns) && IsObject(ctx.request.data) ==>
      && out.Returned? && out.result.Reconciled? && out.result.error.None?
      && out.result.req.data == ctx.request.data
      && out.result.res == ctx.response.fields
  {
    if Dispatches(methodName, fns) {
      ctx.response.fields := effects.response;
      if ctx.request.shared.Some? {
        ctx.request.shared.value.entries := effects.shared;
      }
    }
    var restored := Snapshot(PlainRequest(RequestLeft(ctx.request, methodName, fns, effects)), Obj(ObjectProto, ctx.response.fields));
    var calls, restoreCalls;
    out, calls, restoreCalls := ExecutionFn(methodName, fns, restored);
  }

  /** The whole operation. It prepares the isolated request and the tracking
      configuration, runs the sandbox callback, and annotates and rethrows any
      error that escapes. A cancellation raised by a hook never escapes. The
      hook writes through the live response and the shared store it is handed,
      so its changes to them reach the caller whatever the outcome. */
  method ExecuteScript(script: Script, methodName: string, req: Request, res: LiveResponse, clone: Request,
                       metaConfig: Option<map<string, JsVal>>, sandbox: Sandbox, resolvedPath: string)
    returns (out: Completion, initial: IsolatedContext, config: map<string, JsVal>)
    modifies EscapeCandidates(methodName, sandbox), res, if req.shared.Some? then {req.shared.value} else {}
    ensures initial == PrepareContext(req, res, clone)
    ensures ConfiguresContext(if metaConfig.Some? then metaConfig.value else map[], config)
    ensures sandbox.Runs? && Dispatches(methodName, sandbox.functions) ==>
      && res.fields == sandbox.effects.response
      && (req.shared.Some? ==> req.shared.value.entries == sandbox.effects.shared)
    ensures !(sandbox.Runs? && Dispatches(methodName, sandbox.functions)) ==>
      && res.fields == old(res.fields)
      && (req.shared.Some? ==> req.shared.value.entries == old(req.shared.value.entries))
    ensures sandbox.Crashes? ==> out == Raised(sandbox.error)
    ensures sandbox.Runs? ==>
      var s := HookOutcome(methodName, sandbox.functions);
      var left := RequestLeft(initial.request, methodName, sandbox.functions, sandbox.effects);
      var restored := Snapshot(PlainRequest(left), Obj(ObjectProto, res.fields));
      && (s.Completed? ==> out == Returned(Reconcile(sandbox.functions, restored)))
      && (s.Threw? && s.error.isRequestCancel ==> out == Returned(Cancelled(s.error.data)))
      && (s.Threw? && !s.error.isRequestCancel ==> out == Raised(s.error))
      && (s.Pending? ==> out == Suspended)
    ensures sandbox.Runs? && !Dispatches(methodName, sandbox.functions) ==>
      && out.Returned? && out.result.Reconciled? && out.result.error.None?
      && out.result.req.data == Obj(ObjectProto, Spread(req.data))
      && out.result.res == res.fields
    ensures sandbox.Runs? && out.Raised? ==> !out.error.isRequestCancel
    ensures out.Raised? ==>
      && out.error.message == EvaluationErrorPrefix + ScriptPath(script, resolvedPath) + "\n" + old(out.error.message)
      && (old(out.error.entity).None? && Truthy(script.shortid) ==>
            out.error.entity == Some(Entity(script.shortid.value, script.name, script.content))
            && out.error.property == Some("content"))
      && (!(old(out.error.entity).None? && Truthy(script.shortid)) ==>
            out.error.entity == old(out.error.entity) && out.error.property == old(out.error.property))
    ensures out.Raised? ==> out.error.isRequestCancel == old(out.error.isRequestCancel) && out.error.data == old(out.error.data)
    ensures !out.Raised? ==> forall e :: e in EscapeCandidates(methodName, sandbox) ==> unchanged(e)
  {
    var meta := if metaConfig.Some? then metaConfig.value else map[];
    initial := PrepareContext(req, res, clone);
    config := PropertiesConfig(meta);
    match sandbox {
      case Crashes(e) =>
        out := Raised(e);
      case Runs(fns, effects) =>
        out := RunCallback(methodName, fns, effects, initial);
    }
    if out.Raised? {
      AnnotateError(out.error, script, resolvedPath);
    }
  }

  /** A whole run whose called hook cancels returns exactly the cancellation
      payload: the cancellation is neither annotated nor rethrown. */
  method CancelledRunReturnsPayload(script: Script, methodName: string, req: Request, res: LiveResponse, clone: Request,
                                    metaConfig: Option<map<string, JsVal>>, arity: nat, effects: Effects,
                                    resolvedPath: string, messageOrOptions: JsVal)
    returns (out: Completion)
    requires methodName == "beforeRender" || methodName == "afterRender"
    modifies res, if req.shared.Some? then {req.shared.value} else {}
    ensures out == Returned(Cancelled(Obj(ObjectProto, CancelPayload(messageOrOptions))))
  {
    var e := Cancel(messageOrOptions);
    var sandbox := Runs(map[methodName := Hook(arity, Threw(e), ThrowsFirst(e))], effects);
    var initial, config;
    out, initial, config := ExecuteScript(script, methodName, req, res, clone, metaConfig, sandbox, resolvedPath);
  }
}
