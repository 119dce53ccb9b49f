/** JSON-like values as they flow through the audit layer: request bodies,
    responses, entity snapshots and the jsonb columns of an audit record.
    An object is the ordered list of its own enumerable properties
    (`Object.entries` order). Numbers are integers here. */
module JsonValues {
  import opened Wrappers

  datatype Json =
    | Undefined
    | Null
    | Bool(b: bool)
    | Num(n: int)
    | Str(s: string)
    | Arr(items: seq<Json>)
    | Obj(fields: seq<Field>)

  datatype Field = Field(key: string, value: Json)

  /** JavaScript truthiness. */
  predicate Truthy(v: Json) {
    match v
    case Undefined => false
    case Null => false
    case Bool(b) => b
    case Num(n) => n != 0
    case Str(s) => s != ""
    case Arr(_) => true
    case Obj(_) => true
  }

  /** `typeof v === 'object'` (true for `null`, arrays and objects). */
  predicate IsObjectType(v: Json) {
    v.Null? || v.Arr? || v.Obj?
  }

  predicate HasKey(fs: seq<Field>, k: string) {
    exists i :: 0 <= i < |fs| && fs[i].key == k
  }

  /** `obj[k]`: the value of the property named `k`, `undefined` when there is none. */
  function Lookup(fs: seq<Field>, k: string): (v: Json)
    ensures !HasKey(fs, k) ==> v == Undefined
  {
    if fs == [] then Undefined
    else if fs[0].key == k then fs[0].value
    else Lookup(fs[1..], k)
  }

  /** `Object.keys(obj)` */
  function Keys(fs: seq<Field>): (ks: seq<string>)
    ensures |ks| == |fs|
    ensures forall i :: 0 <= i < |fs| ==> ks[i] == fs[i].key
  {
    seq(|fs|, i requires 0 <= i < |fs| => fs[i].key)
  }

  /** `v?.k` on any value: only objects have properties here. */
  function Prop(v: Json, k: string): Json {
    if v.Obj? then Lookup(v.fields, k) else Undefined
  }

  /** `obj[k] = v`: overwrite the property in place, or add it at the end. */
  function SetField(fs: seq<Field>, k: string, v: Json): seq<Field> {
    if fs == [] then [Field(k, v)]
    else if fs[0].key == k then [Field(k, v)] + fs[1..]
    else [fs[0]] + SetField(fs[1..], k, v)
  }

  /** After `obj[k] = v`, reading `k` gives `v` and every other property reads as before. */
  lemma {:induction false} LookupSetField(fs: seq<Field>, k: string, v: Json, j: string)
    ensures Lookup(SetField(fs, k, v), j) == if j == k then v else Lookup(fs, j)
  {
    if fs != [] && fs[0].key != k {
      LookupSetField(fs[1..], k, v, j);
    }
  }

  /** Reading from an object built by appending one property. */
  lemma {:induction false} LookupAppend(fs: seq<Field>, f: Field, k: string)
    ensures Lookup(fs + [f], k) == if HasKey(fs, k) then Lookup(fs, k) else if f.key == k then f.value else Undefined
  {
    if fs != [] {
      assert (fs + [f])[1..] == fs[1..] + [f];
      LookupAppend(fs[1..], f, k);
      if fs[0].key != k && HasKey(fs, k) {
        var i :| 0 <= i < |fs| && fs[i].key == k;
        assert fs[1..][i - 1].key == k;
      }
    }
  }

  /** The keys of an object built by appending one property. */
  lemma HasKeyAppend(fs: seq<Field>, f: Field, k: string)
    ensures HasKey(fs + [f], k) <==> HasKey(fs, k) || f.key == k
  {
    if HasKey(fs + [f], k) && !HasKey(fs, k) {
      var i :| 0 <= i < |fs + [f]| && (fs + [f])[i].key == k;
      assert i == |fs|;
    }
    if HasKey(fs, k) {
      var i :| 0 <= i < |fs| && fs[i].key == k;
      assert (fs + [f])[i].key == k;
    }
    if f.key == k {
      assert (fs + [f])[|fs|].key == k;
    }
  }

  /** `a === b`: primitives compare by value; two objects or arrays are
      distinct references here, so they never compare equal. */
  predicate StrictEquals(a: Json, b: Json) {
    if a.Arr? || a.Obj? || b.Arr? || b.Obj? then false else a == b
  }

  /** `string | null` stored into an entity property or a jsonb value. */
  function StringOrNull(o: Option<string>): Json {
    match o
    case Some(s) => Str(s)
    case None => Null
  }

  /** `Record<string, any> | null` */
  function ObjectOrNull(o: Option<seq<Field>>): Json {
    match o
    case Some(fs) => Obj(fs)
    case None => Null
  }
}
