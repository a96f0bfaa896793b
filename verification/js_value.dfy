/**
 * The JavaScript values the provider passes around (specs, channels, labels,
 * assets, collections, API bodies) and the handful of language operations it
 * applies to them: truthiness, property reads, `||`, `Object.assign` and
 * string conversion in template literals.
 */
module JsValue {
  import opened Wrappers
  import opened Text

  /** A JSON-like JavaScript value. Numbers are modelled as integers; objects
      as maps from property name to value (a property whose value is
      `undefined` is present in the map). */
  datatype Value =
    | Undefined
    | Null
    | Bool(b: bool)
    | Num(n: int)
    | Str(s: string)
    | Arr(items: seq<Value>)
    | Obj(fields: map<string, Value>)

  const EmptyObject: Value := Obj(map[])

  /** JavaScript truthiness: `undefined`, `null`, `false`, `0` and `''` are
      falsy, everything else (every object and array included) is truthy. */
  predicate Truthy(v: Value)
  {
    match v
    case Undefined => false
    case Null => false
    case Bool(b) => b
    case Num(n) => n != 0
    case Str(s) => |s| > 0
    case _ => true
  }

  /** Reading a property of `v` does not throw: `v` is neither `null` nor
      `undefined`. */
  predicate Dereferenceable(v: Value)
  {
    !v.Undefined? && !v.Null?
  }

  /** `v[key]` for a named property: the object's own field, and `undefined`
      for a missing field, a primitive or an array (whose index keys are
      not modelled). */
  function Get(v: Value, key: string): (r: Value)
    ensures v.Obj? && key in v.fields ==> r == v.fields[key]
    ensures !(v.Obj? && key in v.fields) ==> r == Undefined
  {
    if v.Obj? && key in v.fields then v.fields[key] else Undefined
  }

  /** `v.length`: arrays and strings by their size, anything else by its
      `length` property. */
  function Length(v: Value): Value
  {
    match v
    case Arr(xs) => Num(|xs|)
    case Str(s) => Num(|s|)
    case _ => Get(v, "length")
  }

  /** `Number(text)` as far as integers go, with `None` for `NaN`: the empty
      text is 0, and decimal digits after an optional sign are their
      value. */
  function TextNumber(s: string): Option<int>
  {
    if |s| == 0 then Some(0)
    else if AllDigits(s) then Some(DecimalValue(s))
    else if |s| > 1 && s[0] == '-' && AllDigits(s[1..]) then Some(-(DecimalValue(s[1..]) as int))
    else if |s| > 1 && s[0] == '+' && AllDigits(s[1..]) then Some(DecimalValue(s[1..]))
    else None
  }

  /** The number `v` becomes when compared with a number (`v > 0`,
      `v < 1`), with `None` for `NaN`: `undefined` is `NaN`, `null` and
      `false` are 0, `true` is 1, text reads as a number, an array reads as
      its string form and a plain object as `[object Object]`. */
  function ToNumber(v: Value): Option<int>
  {
    match v
    case Undefined => None
    case Null => Some(0)
    case Bool(b) => Some(if b then 1 else 0)
    case Num(n) => Some(n)
    case Str(s) => TextNumber(s)
    case Arr(_) => TextNumber(ToString(v))
    case Obj(_) => None
  }

  /** `a || b`. */
  function Or(a: Value, b: Value): (r: Value)
    ensures Truthy(a) ==> r == a
    ensures !Truthy(a) ==> r == b
  {
    if Truthy(a) then a else b
  }

  /** `v && typeof v === 'string'`, the provider's check for a usable key or
      identifier. */
  predicate IsNonEmptyString(v: Value)
  {
    v.Str? && |v.s| > 0
  }

  lemma DecimalInjectiveAll()
    ensures forall m: nat, n: nat {:trigger Decimal(m), Decimal(n)} :: Decimal(m) == Decimal(n) ==> m == n
  {
    forall m: nat, n: nat | Decimal(m) == Decimal(n)
      ensures m == n
    {
      DecimalInjective(m, n);
    }
  }

  /** The own enumerable properties `Object.assign` copies from a source:
      an object's fields, the indexed elements of an array or the indexed
      characters of a string; `null`, `undefined`, booleans and numbers
      contribute nothing. */
  function OwnProps(v: Value): (props: map<string, Value>)
    ensures v.Obj? ==> props == v.fields
    ensures !(v.Obj? || v.Arr? || v.Str?) ==> props == map[]
  {
    DecimalInjectiveAll();
    match v
    case Obj(f) => f
    case Arr(xs) => map i | 0 <= i < |xs| :: Decimal(i) := xs[i]
    case Str(s) => map i | 0 <= i < |s| :: Decimal(i) := Str([s[i]])
    case _ => map[]
  }

  /** `Object.assign({}, sources...)`: a fresh object holding every source's
      own properties, later sources overriding earlier ones. */
  function Assign(sources: seq<Value>): (r: Value)
    ensures r.Obj?
    decreases |sources|
  {
    if |sources| == 0 then EmptyObject
    else Obj(Assign(sources[..|sources| - 1]).fields + OwnProps(sources[|sources| - 1]))
  }

  /** Which source `Object.assign` takes the value of property `k` from: the
      last one that has it. */
  lemma AssignPicksLast(sources: seq<Value>, k: string, i: nat)
    requires i < |sources| && k in OwnProps(sources[i])
    requires forall j :: i < j < |sources| ==> k !in OwnProps(sources[j])
    ensures k in Assign(sources).fields && Assign(sources).fields[k] == OwnProps(sources[i])[k]
    decreases |sources|
  {
    if i < |sources| - 1 {
      AssignPicksLast(sources[..|sources| - 1], k, i);
    }
  }

  /** One more source: its own properties override the rest. */
  lemma AssignSnoc(sources: seq<Value>, v: Value)
    ensures Assign(sources + [v]).fields == Assign(sources).fields + OwnProps(v)
  {
    assert (sources + [v])[..|sources|] == sources;
  }

  /** `Object.assign({}, a, b, c)` as a union of own properties. */
  lemma AssignThree(a: Value, b: Value, c: Value)
    ensures Assign([a, b, c]).fields == OwnProps(a) + OwnProps(b) + OwnProps(c)
  {
    AssignTwo(a, b);
    AssignSnoc([a, b], c);
    assert [a, b] + [c] == [a, b, c];
  }

  lemma AssignOne(a: Value)
    ensures Assign([a]).fields == OwnProps(a)
  {
    AssignSnoc([], a);
    assert [] + [a] == [a];
    assert map[] + OwnProps(a) == OwnProps(a);
  }

  lemma AssignTwo(a: Value, b: Value)
    ensures Assign([a, b]).fields == OwnProps(a) + OwnProps(b)
  {
    AssignOne(a);
    AssignSnoc([a], b);
    assert [a] + [b] == [a, b];
  }

  /** A property none of the sources has is absent from the result. */
  lemma AssignMissing(sources: seq<Value>, k: string)
    requires forall j :: 0 <= j < |sources| ==> k !in OwnProps(sources[j])
    ensures k !in Assign(sources).fields
    decreases |sources|
  {
    if |sources| > 0 {
      AssignMissing(sources[..|sources| - 1], k);
    }
  }

  /** `o[k] = x` on an object, returning the updated object. */
  function SetField(o: Value, k: string, x: Value): (r: Value)
    requires o.Obj?
    ensures r.Obj? && r.fields.Keys == o.fields.Keys + {k}
    ensures Get(r, k) == x
    ensures forall j :: j != k ==> Get(r, j) == Get(o, j)
  {
    Obj(o.fields[k := x])
  }

  /** `arr.join(sep)` of already-converted strings. */
  function Join(parts: seq<string>, sep: string): string
    decreases |parts|
  {
    if |parts| == 0 then ""
    else if |parts| == 1 then parts[0]
    else parts[0] + sep + Join(parts[1..], sep)
  }

  /** `String(v)`, the conversion a template literal `${v}` applies: arrays
      join their elements with `,` (with `null`/`undefined` elements as empty
      text) and every plain object reads `[object Object]`. */
  function ToString(v: Value): string
    decreases v
  {
    match v
    case Undefined => "undefined"
    case Null => "null"
    case Bool(b) => if b then "true" else "false"
    case Num(n) => IntString(n)
    case Str(s) => s
    case Arr(xs) =>
      Join(seq(|xs|, i requires 0 <= i < |xs| => if Dereferenceable(xs[i]) then ToString(xs[i]) else ""), ",")
    case Obj(_) => "[object Object]"
  }

  /** A number's text reads back as that number, so `String(n) > 0` and
      `n > 0` agree. */
  lemma {:induction false} NumberTextRoundTrip(n: int)
    ensures ToNumber(Str(ToString(Num(n)))) == Some(n)
  {
    if n >= 0 {
      DecimalRoundTrip(n);
    } else {
      var d := Decimal(-n);
      DecimalRoundTrip(-n);
      assert ToString(Num(n)) == "-" + d;
      assert ("-" + d)[1..] == d;
      assert !AllDigits("-" + d) by { assert !IsDigit(("-" + d)[0]); }
    }
  }
}
