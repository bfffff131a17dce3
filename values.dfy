/**
  JavaScript values as the schema engine sees them: primitives, function
  values (compared by identity), the four global constructors the field
  resolver recognises, and objects whose own enumerable properties are kept
  in insertion order.
 */
module JsValues {
  import opened Wrappers

  /** The global constructors `Date`, `String`, `Number` and `Boolean`. */
  datatype CtorKind = DateCtor | StringCtor | NumberCtor | BooleanCtor

  /** What sort of object a value is: a plain object, an array, or a `Date` instance. */
  datatype ObjKind = Plain | ArrayObj | DateObj(time: int)

  /**
    A JavaScript value.  Numbers are integers (no fractions, no NaN);
    `Fn(id)` is a caller-supplied function, `id` being its identity.
   */
  datatype Value =
    | Undef
    | Null
    | Bool(b: bool)
    | Num(n: int)
    | Str(s: string)
    | Fn(id: nat)
    | Ctor(ctor: CtorKind)
    | Obj(kind: ObjKind, own: Props)

  /** The own enumerable properties of an object, `keys` in insertion order. */
  datatype Props = Props(keys: seq<string>, vals: map<string, Value>)

  const EmptyProps: Props := Props([], map[])

  /** Result of the `typeof` operator. */
  datatype TypeTag = TUndefined | TBoolean | TNumber | TString | TFunction | TObject

  function TypeOf(v: Value): TypeTag {
    match v
    case Undef => TUndefined
    case Null => TObject
    case Bool(_) => TBoolean
    case Num(_) => TNumber
    case Str(_) => TString
    case Fn(_) => TFunction
    case Ctor(_) => TFunction
    case Obj(_, _) => TObject
  }

  /** JavaScript truthiness, the meaning of `!!v`. */
  predicate Truthy(v: Value) {
    match v
    case Undef => false
    case Null => false
    case Bool(b) => b
    case Num(n) => n != 0
    case Str(s) => s != ""
    case _ => true
  }

  predicate Distinct<T(==)>(s: seq<T>) {
    forall i, j :: 0 <= i < j < |s| ==> s[i] != s[j]
  }

  /** Membership in a prefix one element longer. */
  lemma PrefixIn<T>(s: seq<T>, n: nat, x: T)
    requires 0 < n <= |s|
    ensures x in s[..n] <==> x in s[..n - 1] || x == s[n - 1]
  {
    assert s[..n] == s[..n - 1] + [s[n - 1]];
  }

  /** The key list and the map describe the same distinct keys. */
  predicate WellFormed(p: Props) {
    Distinct(p.keys)
    && (forall k :: k in p.vals ==> k in p.keys)
    && (forall k :: k in p.keys ==> k in p.vals)
  }

  /** Property read `obj[k]`; a missing property reads as `undefined`. */
  function Lookup(p: Props, k: string): Value {
    if k in p.vals then p.vals[k] else Undef
  }

  /** Property write `obj[k] = v`: a new key goes to the end of the order. */
  function Put(p: Props, k: string, v: Value): (r: Props)
    ensures r.vals == p.vals[k := v]
    ensures k in p.vals ==> r.keys == p.keys
    ensures WellFormed(p) ==> WellFormed(r)
    ensures WellFormed(p) ==> forall x :: x in r.keys <==> x in p.keys || x == k
  {
    if k in p.vals then Props(p.keys, p.vals[k := v]) else Props(p.keys + [k], p.vals[k := v])
  }

  /** The key list without `k`, order kept. */
  function RemoveKey(s: seq<string>, k: string): (r: seq<string>)
    ensures forall x :: x in r <==> x in s && x != k
    ensures Distinct(s) ==> Distinct(r)
    ensures |r| <= |s|
  {
    if s == [] then []
    else
      var rest := RemoveKey(s[1..], k);
      assert forall x :: x in s[1..] ==> x in s;
      if s[0] == k then rest
      else
        assert Distinct(s) ==> s[0] !in s[1..];
        [s[0]] + rest
  }

  /** Property deletion `delete obj[k]` (`Reflect.deleteProperty`). */
  function Remove(p: Props, k: string): (r: Props)
    ensures r.vals == p.vals - {k}
    ensures WellFormed(p) ==> WellFormed(r)
  {
    Props(RemoveKey(p.keys, k), p.vals - {k})
  }

  /** `obj[k]` on any value: only objects carry properties here. */
  function Get(v: Value, k: string): Value {
    if v.Obj? then Lookup(v.own, k) else Undef
  }

  /** The `in` operator on an object: an own property named `k` exists. */
  predicate Has(v: Value, k: string) {
    v.Obj? && k in v.own.vals
  }

  /** Keys visited by `for (const key in v)`: an object's own keys, none for other values. */
  function ForInKeys(v: Value): seq<string> {
    if v.Obj? then v.own.keys else []
  }

  function DigitChar(d: nat): char
    requires d < 10
  {
    "0123456789"[d]
  }

  function NatToString(n: nat): string
    decreases n
  {
    if n < 10 then [DigitChar(n)] else NatToString(n / 10) + [DigitChar(n % 10)]
  }

  /**
    The property key a value denotes when used as `obj[v]`.  Functions,
    constructors and objects all read as "[object Object]" here.
   */
  function PropKey(v: Value): string {
    match v
    case Undef => "undefined"
    case Null => "null"
    case Bool(b) => if b then "true" else "false"
    case Num(n) => if n < 0 then "-" + NatToString(-n) else NatToString(n)
    case Str(s) => s
    case _ => "[object Object]"
  }

  /**
    An object the caller owns and the engine changes in place: `test` and
    `parse` write transformed values into it and delete keys from it.
   */
  class JsObject {
    var kind: ObjKind
    var own: Props

    constructor (kind: ObjKind, own: Props)
      ensures this.kind == kind && this.own == own
    {
      this.kind := kind;
      this.own := own;
    }

    /** The object's current contents as a value. */
    function Snapshot(): (v: Value)
      reads this
      ensures v.Obj? && v.own == own
    {
      Obj(kind, own)
    }

    method Set(k: string, v: Value)
      modifies this
      ensures own == Put(old(own), k, v) && kind == old(kind)
    {
      own := Put(own, k, v);
    }

    method Delete(k: string)
      modifies this
      ensures own == Remove(old(own), k) && kind == old(kind)
    {
      own := Remove(own, k);
    }
  }

  /** A value that is not an object: what `test` and `parse` may receive besides an object. */
  type Scalar = v: Value | !v.Obj? witness Undef

  /** An argument of `test` or `parse`: a scalar, or a reference to a caller's object. */
  datatype Arg = Prim(v: Scalar) | Ref(o: JsObject) {
    function Footprint(): set<object> {
      if Ref? then {o} else {}
    }

    /** The value the argument currently denotes. */
    function Current(): (v: Value)
      reads Footprint()
      ensures Ref? <==> v.Obj?
    {
      if Ref? then o.Snapshot() else this.v
    }
  }
}
