/**
  The parsed JSON bodies that the chat assistant receives from its backend, and
  the few JavaScript operations it applies to them: reading a property, testing
  a value for truthiness, copying an object without some of its properties
  (`const { task_id, status, ...cleaned } = data`) and `JSON.stringify`.
 */
module Json {

  /** A JSON value as `JSON.parse` produces it. An object's own properties
      are listed in property enumeration order, the order in which object
      rest destructuring copies them and `JSON.stringify` writes them. */
  datatype Value =
    | JNull
    | JBool(b: bool)
    | JNumber(n: real)
    | JString(s: string)
    | JArray(items: seq<Value>)
    | JObject(fields: seq<Field>)

  type Field = (string, Value)

  /** What a JavaScript property read `v.key` evaluates to. */
  datatype Prop = Undefined | Defined(value: Value)

  /** The value an object's property list holds under `key`. */
  function Lookup(fields: seq<Field>, key: string): (r: Prop)
    ensures r.Defined? ==> (key, r.value) in fields
    ensures r.Undefined? <==> forall i :: 0 <= i < |fields| ==> fields[i].0 != key
  {
    if fields == [] then Undefined
    else if fields[0].0 == key then Defined(fields[0].1)
    else Lookup(fields[1..], key)
  }

  /** Property read `v.key` on a value that is not `null` (reading a property
      of `null` throws a TypeError, which callers model themselves). Arrays,
      strings, numbers and booleans have none of the properties the chat
      component reads, so only an object yields a defined value. */
  function Get(v: Value, key: string): (r: Prop)
    requires !v.JNull?
    ensures r.Defined? ==> v.JObject? && (key, r.value) in v.fields
    ensures v.JObject? ==> r == Lookup(v.fields, key)
  {
    if v.JObject? then Lookup(v.fields, key) else Undefined
  }

  /** JavaScript truthiness of a property read: `undefined`, `null`, `false`,
      `0` and `""` are falsy; every other value, including an empty array or
      object, is truthy. */
  predicate Truthy(p: Prop)
  {
    match p
    case Undefined => false
    case Defined(v) =>
      match v
      case JNull => false
      case JBool(b) => b
      case JNumber(n) => n != 0.0
      case JString(s) => s != ""
      case JArray(_) => true
      case JObject(_) => true
  }

  /** `a || b` where `a` is a property read and `b` a value. */
  function Or(a: Prop, b: Value): Value
  {
    if Truthy(a) then a.value else b
  }

  /** Object rest destructuring `const { k1, k2, ...rest } = obj` with
      `keys` = {k1, k2}: the own properties of `obj` whose key is not named,
      in their original order. */
  function Omit(fields: seq<Field>, keys: set<string>): (r: seq<Field>)
    ensures |r| <= |fields|
    ensures forall p :: p in r <==> p in fields && p.0 !in keys
  {
    if fields == [] then []
    else if fields[0].0 in keys then Omit(fields[1..], keys)
    else [fields[0]] + Omit(fields[1..], keys)
  }

  /** Omitting keys keeps the relative order of the remaining properties: it
      distributes over concatenation. */
  lemma {:induction false} OmitAppend(a: seq<Field>, b: seq<Field>, keys: set<string>)
    ensures Omit(a + b, keys) == Omit(a, keys) + Omit(b, keys)
  {
    if a == [] {
      assert a + b == b;
    } else {
      assert (a + b)[0] == a[0];
      assert (a + b)[1..] == a[1..] + b;
      OmitAppend(a[1..], b, keys);
    }
  }

  /** Reading a property of the rest object: the omitted keys are gone and
      every other key reads exactly as it did on the original object. */
  lemma {:induction false} LookupOmit(fields: seq<Field>, keys: set<string>, key: string)
    ensures Lookup(Omit(fields, keys), key) == if key in keys then Undefined else Lookup(fields, key)
  {
    if fields != [] {
      LookupOmit(fields[1..], keys, key);
    }
  }

  /** The text `JSON.stringify(v, null, 2)` opens with a brace exactly when
      `v` is an object. */
  predicate OpensWithBrace(text: string)
  {
    |text| > 0 && text[0] == '{'
  }

  /** `JSON.stringify(v, null, 2)`, left abstract: the model relies only on
      the serialisation of an object opening with `{`. */
  type Stringify = f: Value -> string | forall v: Value :: v.JObject? ==> OpensWithBrace(f(v))
    witness (v: Value) => "{}"
}
