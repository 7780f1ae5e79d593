# jsreport scripts: hook execution and result reconciliation

A Dafny model of `executeScript` in the jsreport scripts extension: the routine
that runs a user script's `beforeRender` or `afterRender` hook inside the
sandbox and turns what the hook did into a result the render pipeline can use.

The model covers:

- **JavaScript values** (`JsValues`): a tagged value type with the class tag
  that `Object.prototype.toString` reports, the prototype of objects, and the
  own enumerable properties that an object spread `{ ...v }` copies. Array and
  string indices are spelled as decimal keys.
- **The plain-object test** `IsObject`. It accepts a value whose tag is
  `Object` and whose prototype is `null` or `Object.prototype`.
- **Preparing the sandbox input** (`Context`). The sandbox gets a copy of the
  request. Its `data` is a new plain object holding the original data's own
  properties. Its `context.shared` is the original object, not a copy. The
  response is not isolated: the sandbox gets the caller's live response
  object, so what the hook writes into it, or into the shared store, reaches
  the caller. The tracking
  configuration maps `__request.context.<k>` to the setting of each meta-config
  key `k`.
- **The cancel capability** (`ScriptExecution.Cancel`). It builds the payload
  field by field and throws an error marked `isRequestCancel`.
- **Hook dispatch** (`Hooks`). The method tag and the functions the script
  defines decide which hook is called. Its declared arity decides whether it
  is called directly or through the callback-to-promise adapter.
- **The sandbox callback** (`Reconciliation.ExecutionFn`). A cancellation
  becomes a normal return of its payload. Other errors propagate. Otherwise the
  snapshot is restored once, `req.data` is validated, and the result is built.
- **The outer handler** (`ScriptExecution.AnnotateError`). It prefixes the
  message of every escaping error with the script path, attaches the script
  entity when allowed, and rethrows the error.

The sandbox itself is an oracle (`Sandbox`). It either fails before the
callback runs or it exposes the script's top-level functions. Each function is
a `Hook` value. The value gives the declared arity, how a direct call settles,
and what the function does with a completion callback. The sandbox also gives
the hook's effects (`Effects`): the state in which it leaves its request copy,
the live response and the shared store. The snapshot that `restore()` returns
is the plain-data view of that state (`Context.PlainRequest`). The resolved entity path, the meta
configuration and the deep clone of the request are inputs too.

`cancel()` with no argument falls back to the default `{}`. The payload then
holds `additionalInfo` and `statusCode`, both undefined, next to
`requestCancel`. Only `cancel(null)` yields `requestCancel` alone.

Errors are objects of class `ScriptError`, because the outer handler rewrites
their fields in place before rethrowing them.

## Model

| member | source | states |
|---|---|---|
| `JsValues.IsObject` | packages/jsreport-scripts/lib/executeScript.js:138-146 | holds iff the value is an object with prototype `null` or `Object.prototype`; undefined, null, booleans, numbers, strings, arrays, dates and class instances are all rejected |
| `JsValues.SpreadArray` | packages/jsreport-scripts/lib/executeScript.js:15-17 | an object spread of an array copies exactly its decimal index keys, each to its element |
| `JsValues.IndexKeyRoundTrip` | packages/jsreport-scripts/lib/executeScript.js:15-17 | the decimal key of an index reads back as that index, so distinct indices never share a key |
| `Context.PrepareRequest` | packages/jsreport-scripts/lib/executeScript.js:8-24 | the sandbox request keeps the original `context.shared` object, its `data` is a plain object holding the original data's own properties, and its other fields come from the clone |
| `Context.SharedAcrossPasses` | packages/jsreport-scripts/lib/executeScript.js:22-24 | both passes prepared from one request hold the original `shared` object itself; a value the first pass stores in it is seen by the second, and the rest of the store is unchanged |
| `Context.PrepareContext` | packages/jsreport-scripts/lib/executeScript.js:12-20 | the sandbox gets the prepared request copy and the caller's live response object itself, not a copy |
| `Context.PropertiesConfig` | packages/jsreport-scripts/lib/executeScript.js:110-114 | the tracking configuration has exactly one entry `__request.context.k` for each meta-config key `k`, with that key's setting, and no other entry |
| `ScriptExecution.CancelPayload` | packages/jsreport-scripts/lib/executeScript.js:26-37 | `requestCancel` is always true; a string gives only `additionalInfo`; `null` gives nothing else; any other argument, including none, gives `additionalInfo` and `statusCode` from its `message` and `statusCode` |
| `ScriptExecution.Cancel` | packages/jsreport-scripts/lib/executeScript.js:26-43 | never returns normally: its only outcome is a new error marked `isRequestCancel` whose `data` is the payload |
| `Hooks.AwaitByConvention` | packages/jsreport-scripts/lib/executeScript.js:48-59 | a hook whose arity is not three settles as its direct call does; a three-parameter hook, called through the adapter, completes iff it calls `done()` without an error, never settles iff it never calls `done`, and rejects with the error it throws first or passes to `done` |
| `Hooks.InvokeHooks` | packages/jsreport-scripts/lib/executeScript.js:47-61 | at most one hook is called; it is called iff the tag is `beforeRender` or `afterRender` and the script defines that function; the call uses the convention its arity selects and settles as that hook does |
| `Reconciliation.Reconcile` | packages/jsreport-scripts/lib/executeScript.js:69-102 | `shouldRunAfterRender` iff the script defines `afterRender`; the fixed validation error is present iff the restored `data` fails the plain-object test; kept data is the restored data; template and options are the restored ones; context and response are property copies of the restored ones |
| `Reconciliation.ErrorIffDataDropped` | packages/jsreport-scripts/lib/executeScript.js:74-101 | in a reconciled result the error is present exactly when `req.data` is undefined, and data that is kept passes the plain-object test |
| `Reconciliation.ShouldRunAfterRenderIgnoresTag` | packages/jsreport-scripts/lib/executeScript.js:45-81 | two completed callback runs over the same script, under either method tag and with any snapshots, report the same `shouldRunAfterRender`, and it is set exactly when the script defines `afterRender` |
| `Reconciliation.ExecutionFn` | packages/jsreport-scripts/lib/executeScript.js:45-103 | an error marked `isRequestCancel` becomes a normal return of its `data` without any restore; any other error propagates; a hook that never settles leaves the call pending; otherwise `restore()` is called exactly once and the result is the reconciled one; a cancellation never propagates as an error |
| `ScriptExecution.CancelledHookYieldsPayload` | packages/jsreport-scripts/lib/executeScript.js:26-67 | a hook that calls `cancel`, in either calling convention, makes the callback return exactly the cancellation payload |
| `ScriptExecution.NoHooksNoError` | packages/jsreport-scripts/lib/executeScript.js:12-20 | a script that defines neither hook, restored as the prepared request itself, gets a result with `shouldRunAfterRender` false and no error |
| `ScriptExecution.RunCallback` | packages/jsreport-scripts/lib/executeScript.js:45-103 | the dispatched hook's writes land in the context's response and shared store, and nothing changes when no hook is called; the callback reconciles the snapshot of the state the hook left, returns a cancellation's payload, raises other errors and stays pending with the hook; with no hook and plain-object data the result keeps that data and the response's fields and carries no error |
| `ScriptExecution.AnnotateError` | packages/jsreport-scripts/lib/executeScript.js:116-132 | the message becomes `Error when evaluating custom script <path>` plus a newline plus the old message, where the path is the resolved one when the script has an id and `anonymous` otherwise; the entity `{shortid, name, content}` and property `content` are attached only when the error had no entity and the script has a short id; an existing entity is kept |
| `ScriptExecution.ExecuteScript` | packages/jsreport-scripts/lib/executeScript.js:5-136 | prepares the request copy, the live response and the tracking configuration; a called hook's writes to the live response and to `context.shared` are what the caller's `res` and shared store hold afterwards, and they are untouched when no hook runs; returns the callback's result on the snapshot of that state; with no hook the result carries the copy of the original data; an error from the sandbox or a non-cancelling hook is annotated and rethrown; a hook's cancellation never escapes, and no error object is modified unless one escapes |
| `ScriptExecution.CancelledRunReturnsPayload` | packages/jsreport-scripts/lib/executeScript.js:26-67 | a whole run whose called hook calls `cancel`, under either convention, returns exactly the cancellation payload, so the cancellation is neither annotated nor rethrown |

## Left out

- The sandbox (`reporter.runInSandbox`): isolated evaluation, proxy instrumentation of the tracked paths and timeouts. The model takes their effect as an oracle (`Sandbox`, `Hook`, `Effects`). `restore()` is modelled as the plain-data view of the state the hook left; its restoring of the configured `__request.context` properties is not modelled.
- `ScriptExecution.ExecuteScript`: a hook's writes are modelled as the final state it leaves (`Effects`), applied before the callback reconciles. The order of individual writes is not modelled. Top-level script code is taken not to touch the request or the response, so only a called hook changes them. A hook that replaces `req.context` or `req.context.shared` itself is not modelled: the sandbox request keeps the original shared object.
- Object identity inside values: `JsVal` objects, arrays and nested objects are values without identity. So `Context.PrepareRequest` (lines 15-17) and `Reconciliation.Reconcile` (lines 89-91, 95) make copies that look deep: the model cannot state that a nested object in `req.data` stays shared with the caller's original, or that the reconciled `context.shared` is the original shared object rather than a copy of its contents. Only the response and the shared store, which are objects of the model, have identity.
- Arrays with holes or with named own properties: `Arr` is a dense sequence, so the spread of `[1,,3]`, whose keys are only "0" and "2", is not modelled.
- Asynchrony: `async`/`await` and Node's `promisify` are modelled as settlements (`Completed`, `Threw`, `Pending`) of a `Hook` value, not as real promises and callbacks. `Hooks.Promisified` is a one-line-per-case reading of how `promisify` settles, not a model of that library.
- Deep cloning and key omission (line 10): the clone of the request without `data` is an input to `PrepareRequest`; nothing is proved about it.
- Errors raised while preparing, before the sandbox run (lines 6-24): a throwing `getRequestContextMetaConfig`, a request without `context` (line 9) or a failing clone (line 10). In the source these escape without the annotation of lines 116-135. `ScriptExecution.ExecuteScript` assumes preparation succeeds, so every error it raises is annotated.
- `reporter.folders.resolveEntityPath` and `reporter.getRequestContextMetaConfig`: their results are inputs; a failure of path resolution inside the outer handler is not modelled.
- The `cancel` function is modelled as the method `Cancel`, not as a field stored on the request copy (line 26).
- Error stacks: the validation error keeps only its message, and error objects have no stack.
- Thrown values that are not error objects (`throw "x"`, `done("x")`): every thrown value is a `ScriptError`.
- JavaScript numbers are modelled as unbounded integers, so floating point is not modelled.
- Property order of objects is not modelled, because objects are maps.
- JavaScript strings are sequences of UTF-16 code units, but `JsValues.Spread` indexes a string by Dafny characters (Unicode scalar values). A character outside the Basic Multilingual Plane, such as an emoji, gets one index key in the model and two in JavaScript.
- A `context.shared` that is not an object: `Request.shared` is either the shared object or absent (undefined); other values are not modelled.
- Property reads see own properties only. Getters and properties inherited through a prototype chain are not modelled.
- `Symbol.toStringTag` and built-ins other than arrays and dates (maps, sets, regular expressions, functions) are not values of the model.
- Script ids and short ids are optional strings; their JavaScript truthiness is "present and non-empty".
- An `entity` that nested code set to some non-entity value is modelled only as present or absent.
