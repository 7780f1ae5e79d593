/** Context preparation: the isolated request copy handed to the sandbox, and
    the tracking configuration for the request context's properties. */
module Context {
  import opened JsValues

  /** The `req.context.shared` object. Its identity matters: every hook pass of
      one render must see the same object, so that what one script stores in
      it the next one reads. */
  class SharedContext {
    var entries: map<string, JsVal>

    constructor (entries: map<string, JsVal>)
      ensures this.entries == entries
    {
      this.entries := entries;
    }
  }

  /** The live `res` object of the render. */
  class LiveResponse {
    var fields: map<string, JsVal>

    constructor (fields: map<string, JsVal>)
      ensures this.fields == fields
    {
      this.fields := fields;
    }
  }

  /** A render request: its `data`, its `context` (apart from `shared`), the
      `shared` object when the context has one (`None` stands for undefined),
      and its other own properties (`template`, `options`, ...). */
  datatype Request = Request(data: JsVal, context: map<string, JsVal>, shared: Option<SharedContext>, others: map<string, JsVal>)

  /** The context handed to the sandbox: the prepared request copy and the
      response. */
  datatype IsolatedContext = IsolatedContext(request: Request, response: LiveResponse)

  /** The request the sandbox receives. `clone` is the deep copy of the request
      without `data` made by the cloning library, whose internals are not
      modelled; on top of it `data` becomes a shallow copy of the original
      data and `context.shared` is put back to the original object (or to
      undefined when the original has none). */
  function PrepareRequest(req: Request, clone: Request): (init: Request)
    ensures init.shared == req.shared
    ensures IsObject(init.data) && init.data.fields == Spread(req.data)
    ensures init.context == clone.context && init.others == clone.others
  {
    clone.(data := Obj(ObjectProto, Spread(req.data)), shared := req.shared)
  }

  /** The whole sandbox input. Only the request is isolated: the response is
      the caller's live object itself, not a copy, so what the script does to
      it reaches the caller directly. */
  function PrepareContext(req: Request, res: LiveResponse, clone: Request): (ctx: IsolatedContext)
    ensures ctx.response == res
    ensures ctx.request.shared == req.shared && ctx.request.data == Obj(ObjectProto, Spread(req.data))
  {
    IsolatedContext(PrepareRequest(req, clone), res)
  }

  /** The plain data `restore()` reads out of a request object: its own
      properties with `data`, and a `context` whose `shared` property holds the
      shared store's current contents (undefined when there is no store). */
  function PlainRequest(r: Request): (m: map<string, JsVal>)
    reads if r.shared.Some? then {r.shared.value} else {}
    ensures m.Keys == r.others.Keys + {"data", "context"}
    ensures Lookup(m, "data") == r.data
    ensures r.shared.Some? ==> Get(Lookup(m, "context"), "shared") == Obj(ObjectProto, r.shared.value.entries)
  {
    var shared := if r.shared.Some? then Obj(ObjectProto, r.shared.value.entries) else Undefined;
    r.others["data" := r.data]["context" := Obj(ObjectProto, r.context["shared" := shared])]
  }

  /** Two hook passes prepared from the same request share one `shared` object:
      what the first pass's script writes into it the second pass reads,
      whatever the two clones are, and the rest of the store is untouched. */
  method SharedAcrossPasses(req: Request, clone1: Request, clone2: Request, key: string, v: JsVal)
    returns (second: Request)
    requires req.shared.Some?
    modifies req.shared.value
    ensures second == PrepareRequest(req, clone2)
    ensures second.shared == req.shared
    ensures req.shared.value.entries == old(req.shared.value.entries)[key := v]
    ensures key in second.shared.value.entries && second.shared.value.entries[key] == v
  {
    var first := PrepareRequest(req, clone1);
    first.shared.value.entries := first.shared.value.entries[key := v];
    second := PrepareRequest(req, clone2);
  }

  const ContextPathPrefix := "__request.context."

  /** `config` registers, for each key `k` of the meta configuration, the path
      `__request.context.k` with that key's setting, and nothing else. */
  predicate ConfiguresContext(meta: map<string, JsVal>, config: map<string, JsVal>)
  {
    && config.Keys == (set k | k in meta :: ContextPathPrefix + k)
    && (forall k :: k in meta ==> config[ContextPathPrefix + k] == meta[k])
  }

  /** Distinct keys get distinct paths. */
  lemma PrefixInjective(k: string)
    ensures forall j :: ContextPathPrefix + j == ContextPathPrefix + k ==> j == k
  {
    forall j | ContextPathPrefix + j == ContextPathPrefix + k
      ensures j == k
    {
      assert (ContextPathPrefix + j)[|ContextPathPrefix|..] == j;
      assert (ContextPathPrefix + k)[|ContextPathPrefix|..] == k;
    }
  }

  /** The tracking configuration for the sandbox, built key by key into an
      initially empty accumulator. */
  method PropertiesConfig(meta: map<string, JsVal>) returns (config: map<string, JsVal>)
    ensures ConfiguresContext(meta, config)
    ensures |config| == |meta|
  {
    config := map[];
    var todo := meta.Keys;
    while todo != {}
      invariant todo <= meta.Keys
      invariant config.Keys == (set k | k in meta && k !in todo :: ContextPathPrefix + k)
      invariant forall k :: k in meta && k !in todo ==> config[ContextPathPrefix + k] == meta[k]
      invariant |config| + |todo| == |meta|
      decreases |todo|
    {
      var k :| k in todo;
      var path := ContextPathPrefix + k;
      PrefixInjective(k);
      config := config[path := meta[k]];
      todo := todo - {k};
    }
  }
}
