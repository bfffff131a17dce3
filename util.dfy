/** The typeof predicates, enum value extraction and the `transform` combinator. */
module Util {
  import opened Wrappers
  import opened JsValues

  /** `isUndef`: identity with `undefined`. */
  function IsUndef(v: Value): (r: bool)
    ensures r <==> v.Undef?
  {
    v == Undef
  }

  /** `isNum`: `typeof` is "number". */
  function IsNum(v: Value): (r: bool)
    ensures r <==> v.Num?
  {
    TypeOf(v) == TNumber
  }

  /** `isStr`: `typeof` is "string". */
  function IsStr(v: Value): (r: bool)
    ensures r <==> v.Str?
  {
    TypeOf(v) == TString
  }

  /** `isObj`: truthy and `typeof` "object"; `null` is out, arrays and dates are in. */
  function IsObj(v: Value): (r: bool)
    ensures r <==> v.Obj?
    ensures v.Null? ==> !r
  {
    Truthy(v) && TypeOf(v) == TObject
  }

  /** `isArr`: `Array.isArray`. */
  function IsArr(v: Value): (r: bool)
    ensures r ==> IsObj(v)
    ensures r <==> v.Obj? && v.kind.ArrayObj?
  {
    v.Obj? && v.kind == ArrayObj
  }

  /** `isNonArrObj`: `typeof` "object" and not an array, which lets `null` through. */
  function IsNonArrObj(v: Value): (r: bool)
    ensures r <==> v.Null? || (v.Obj? && !v.kind.ArrayObj?)
  {
    TypeOf(v) == TObject && !IsArr(v)
  }

  /** `isFn`: `typeof` is "function". */
  function IsFn(v: Value): (r: bool)
    ensures r <==> v.Fn? || v.Ctor?
  {
    TypeOf(v) == TFunction
  }

  const GetEnumKeysError := "\"getEnumKeys\" " + "be an non-array " + "object"
  const GetEnumValsError := "\"getEnumVals\" " + "be an non-array " + "object"
  /** What `Object.keys(null)` throws. */
  const KeysOfNullError := "Cannot convert " + "undefined or " + "null to object"

  /**
    The accumulator of `getEnumKeys` after the first `n` keys: `arg[key]` is
    appended whenever the key itself is not yet among the collected values.
   */
  function EnumKeysUpTo(p: Props, n: nat): (r: seq<Value>)
    requires n <= |p.keys|
    ensures |r| <= n
    ensures forall j :: 0 <= j < |r| ==> exists i :: 0 <= i < n && r[j] == Lookup(p, p.keys[i])
  {
    if n == 0 then []
    else
      var acc := EnumKeysUpTo(p, n - 1);
      var key := p.keys[n - 1];
      if Str(key) in acc then acc
      else
        assert Lookup(p, p.keys[n - 1]) == Lookup(p, key);
        acc + [Lookup(p, key)]
  }

  /** What `getEnumKeys(arg)` returns or throws. */
  function EnumKeysOf(arg: Value): Result<seq<Value>> {
    if !IsNonArrObj(arg) then Failure(GetEnumKeysError)
    else if arg.Null? then Failure(KeysOfNullError)
    else Success(EnumKeysUpTo(arg.own, |arg.own.keys|))
  }

  /** `getEnumKeys`: folds over `Object.keys(arg)`, pushing into the accumulator. */
  method GetEnumKeys(arg: Value) returns (r: Result<seq<Value>>)
    ensures r == EnumKeysOf(arg)
  {
    if !IsNonArrObj(arg) {
      return Failure(GetEnumKeysError);
    }
    if arg.Null? {
      return Failure(KeysOfNullError);
    }
    var keys := arg.own.keys;
    var arr: seq<Value> := [];
    var i := 0;
    while i < |keys|
      invariant 0 <= i <= |keys|
      invariant arr == EnumKeysUpTo(arg.own, i)
    {
      var key := keys[i];
      if Str(key) !in arr {
        arr := arr + [Lookup(arg.own, key)];
      }
      i := i + 1;
    }
    r := Success(arr);
  }

  /** `getEnumVals`: each collected key `k` mapped to `arg[k]`. */
  function EnumVals(arg: Value): (r: Result<seq<Value>>)
    ensures !IsNonArrObj(arg) ==> r == Failure(GetEnumValsError)
    ensures arg.Null? ==> r == Failure(KeysOfNullError)
    ensures arg.Obj? && !arg.kind.ArrayObj? ==>
      r.Success? && |r.value| == |EnumKeysOf(arg).value|
      && forall i :: 0 <= i < |r.value| ==> r.value[i] == Get(arg, PropKey(EnumKeysOf(arg).value[i]))
  {
    if !IsNonArrObj(arg) then Failure(GetEnumValsError)
    else
      match EnumKeysOf(arg)
      case Failure(e) => Failure(e)
      case Success(ks) => Success(seq(|ks|, i requires 0 <= i < |ks| => Get(arg, PropKey(ks[i]))))
  }

  /** A string enum: every member's value is its own name. */
  ghost predicate IsStringEnum(p: Props) {
    WellFormed(p) && forall k :: k in p.vals ==> p.vals[k] == Str(k)
  }

  /** On a string enum the fold collects every member once, in declaration order. */
  lemma {:induction false} StringEnumKeys(p: Props, n: nat)
    requires IsStringEnum(p) && n <= |p.keys|
    ensures EnumKeysUpTo(p, n) == seq(n, i requires 0 <= i < n => Str(p.keys[i]))
  {
    if n > 0 {
      StringEnumKeys(p, n - 1);
    }
  }

  /** The values of a string enum are its members in declaration order, so the first is the first declared. */
  lemma StringEnumVals(p: Props)
    requires IsStringEnum(p)
    ensures EnumVals(Obj(Plain, p)).Success?
    ensures |EnumVals(Obj(Plain, p)).value| == |p.keys|
    ensures forall i :: 0 <= i < |p.keys| ==> EnumVals(Obj(Plain, p)).value[i] == Str(p.keys[i])
  {
    var n := |p.keys|;
    StringEnumKeys(p, n);
    var ks := EnumKeysUpTo(p, n);
    forall i | 0 <= i < n
      ensures Get(Obj(Plain, p), PropKey(ks[i])) == Str(p.keys[i])
    {
      assert p.keys[i] in p.vals;
    }
    assert EnumKeysOf(Obj(Plain, p)) == Success(ks);
    var r := EnumVals(Obj(Plain, p));
    assert r.Success? && |r.value| == n;
  }

  /**
    A numeric enum as TypeScript emits it, `enum Status { Basic, Mid }`: the
    reverse-mapping index keys come first.
   */
  const StatusEnum: Props := Props(["0", "1", "Basic", "Mid"],
    map["0" := Str("Basic"), "1" := Str("Mid"), "Basic" := Num(0), "Mid" := Num(1)])

  /** The fold collects the member names from the index keys and skips the names themselves. */
  lemma StatusEnumKeys()
    ensures EnumKeysUpTo(StatusEnum, 4) == [Str("Basic"), Str("Mid")]
  {
    var p := StatusEnum;
    assert EnumKeysUpTo(p, 1) == [Str("Basic")];
    assert EnumKeysUpTo(p, 2) == [Str("Basic"), Str("Mid")];
    assert EnumKeysUpTo(p, 3) == [Str("Basic"), Str("Mid")];
  }

  /** The values of a numeric enum are the numbers. */
  lemma NumericEnumVals()
    ensures var r := EnumVals(Obj(Plain, StatusEnum));
      r.Success? && |r.value| == 2 && r.value[0] == Num(0) && r.value[1] == Num(1)
  {
    var v := Obj(Plain, StatusEnum);
    StatusEnumKeys();
    var ks := [Str("Basic"), Str("Mid")];
    assert EnumKeysOf(v) == Success(ks);
    var r := EnumVals(v);
    assert r.Success? && |r.value| == 2;
    assert r.value[0] == Get(v, PropKey(ks[0])) == Num(0);
    assert r.value[1] == Get(v, PropKey(ks[1])) == Num(1);
  }

  /**
    The validator `transform(f, vldt)` returns, applied to `arg`: the pair of
    its verdict and the value it hands to the callback.
   */
  function Transform(f: Value -> Value, vldt: Value -> bool, arg: Value): (r: (bool, Value))
    ensures arg == Undef ==> r.1 == Undef
    ensures arg != Undef ==> r.1 == f(arg)
    ensures r.0 == vldt(r.1)
  {
    var x := if arg != Undef then f(arg) else arg;
    (vldt(x), x)
  }
}
