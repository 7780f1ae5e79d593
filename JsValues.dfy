/** JavaScript values as the hook runner sees them: the tagged shape that
    `Object.prototype.toString` and `Object.getPrototypeOf` inspect, and the
    own enumerable properties that an object spread `{ ...v }` copies. */
module JsValues {

  datatype Option<+T> = None | Some(value: T)

  /** The prototype an object was created with: `Object.create(null)`, a literal
      `{}` (Object.prototype), or anything else. */
  datatype Proto = NullProto | ObjectProto | OtherProto

  /** A JavaScript value. Numbers are modelled as integers. An `Instance` is an
      object built by `new C(...)` for a class `C`; its prototype is `C.prototype`. */
  datatype JsVal =
    | Undefined
    | Null
    | Bool(b: bool)
    | Num(n: int)
    | Str(s: string)
    | Arr(elems: seq<JsVal>)
    | Date(time: int)
    | Instance(className: string, fields: map<string, JsVal>)
    | Obj(proto: Proto, fields: map<string, JsVal>)

  /** The tag that `Object.prototype.toString.call(v)` prints as `[object <tag>]`. */
  function ClassTag(v: JsVal): string
  {
    match v
    case Undefined => "Undefined"
    case Null => "Null"
    case Bool(_) => "Boolean"
    case Num(_) => "Number"
    case Str(_) => "String"
    case Arr(_) => "Array"
    case Date(_) => "Date"
    case Instance(_, _) => "Object"
    case Obj(_, _) => "Object"
  }

  /** `Object.getPrototypeOf(v)` for a value whose tag is `Object`. */
  function PrototypeOf(v: JsVal): Proto
    requires ClassTag(v) == "Object"
  {
    if v.Obj? then v.proto else OtherProto
  }

  /** The plain-object test: the tag is `Object` and the prototype is `null` or
      `Object.prototype`. Exactly the literal-like objects pass; numbers,
      strings, null, undefined, arrays, dates and class instances do not. */
  predicate IsObject(v: JsVal)
    ensures IsObject(v) <==> v.Obj? && (v.proto == NullProto || v.proto == ObjectProto)
    ensures v.Undefined? || v.Null? || v.Num? || v.Str? || v.Bool? || v.Arr? || v.Date? || v.Instance? ==> !IsObject(v)
  {
    ClassTag(v) == "Object" && (PrototypeOf(v) == NullProto || PrototypeOf(v) == ObjectProto)
  }

  /** Property read `m[key]` on an object's own properties: a missing key reads
      as `undefined`. */
  function Lookup(m: map<string, JsVal>, key: string): JsVal
  {
    if key in m then m[key] else Undefined
  }

  /** Property read `v.key` for any value (own properties only). Primitives,
      arrays and dates carry none of the named properties read here. */
  function Get(v: JsVal, key: string): JsVal
  {
    match v
    case Obj(_, fields) => Lookup(fields, key)
    case Instance(_, fields) => Lookup(fields, key)
    case _ => Undefined
  }

  /** The decimal digit character for `d`. */
  function Digit(d: nat): char
    requires d < 10
  {
    (48 + d) as char
  }

  /** The property key under which an array or string stores index `i`:
      its decimal representation. */
  function IndexKey(i: nat): (k: string)
    ensures |k| > 0
    decreases i
  {
    if i < 10 then [Digit(i)] else IndexKey(i / 10) + [Digit(i % 10)]
  }

  /** Reads a decimal key back as a number. */
  function ParseIndex(k: string): int
    decreases |k|
  {
    if k == [] then 0 else ParseIndex(k[..|k| - 1]) * 10 + (k[|k| - 1] as int - 48)
  }

  lemma {:induction false} IndexKeyRoundTrip(i: nat)
    ensures ParseIndex(IndexKey(i)) == i
  {
    var k := IndexKey(i);
    if i < 10 {
      assert k[..|k| - 1] == [];
    } else {
      assert k[..|k| - 1] == IndexKey(i / 10);
      IndexKeyRoundTrip(i / 10);
    }
  }

  /** Distinct indices are stored under distinct keys. */
  lemma IndexKeyInjective(i: nat, j: nat)
    requires i != j
    ensures IndexKey(i) != IndexKey(j)
  {
    IndexKeyRoundTrip(i);
    IndexKeyRoundTrip(j);
  }

  /** The own index properties of an array-like with elements `elems`. */
  function Indexed(elems: seq<JsVal>): map<string, JsVal>
    decreases |elems|
  {
    if elems == [] then map[]
    else Indexed(elems[..|elems| - 1])[IndexKey(|elems| - 1) := elems[|elems| - 1]]
  }

  /** The properties an object spread `{ ...v }` copies out of `v`: the own
      enumerable properties of objects and instances, the indices of arrays and
      strings, and nothing for other primitives and dates. */
  function Spread(v: JsVal): map<string, JsVal>
  {
    match v
    case Obj(_, fields) => fields
    case Instance(_, fields) => fields
    case Arr(elems) => Indexed(elems)
    case Str(s) => Indexed(seq(|s|, i requires 0 <= i < |s| => Str([s[i]])))
    case _ => map[]
  }

  lemma {:induction false} IndexedKeys(elems: seq<JsVal>)
    ensures Indexed(elems).Keys == set i | 0 <= i < |elems| :: IndexKey(i)
    decreases |elems|
  {
    if elems != [] {
      var n := |elems| - 1;
      IndexedKeys(elems[..n]);
      assert (set i | 0 <= i < |elems| :: IndexKey(i))
          == (set i | 0 <= i < n :: IndexKey(i)) + {IndexKey(n)};
    }
  }

  lemma {:induction false} IndexedAt(elems: seq<JsVal>, i: nat)
    requires i < |elems|
    ensures IndexKey(i) in Indexed(elems) && Indexed(elems)[IndexKey(i)] == elems[i]
    decreases |elems|
  {
    var n := |elems| - 1;
    if i < n {
      IndexedAt(elems[..n], i);
      IndexKeyInjective(i, n);
    }
  }

  /** Spreading an array copies exactly its indices, each to its element. */
  lemma SpreadArray(elems: seq<JsVal>)
    ensures Spread(Arr(elems)).Keys == set i | 0 <= i < |elems| :: IndexKey(i)
    ensures forall i :: 0 <= i < |elems| ==> IndexKey(i) in Spread(Arr(elems)) && Spread(Arr(elems))[IndexKey(i)] == elems[i]
  {
    IndexedKeys(elems);
    forall i | 0 <= i < |elems|
      ensures IndexKey(i) in Spread(Arr(elems)) && Spread(Arr(elems))[IndexKey(i)] == elems[i]
    {
      IndexedAt(elems, i);
    }
  }
}
