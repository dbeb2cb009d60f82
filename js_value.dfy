/** JavaScript values and the few language operations `conventionalRecommendedBump`
    relies on: truthiness, `typeof`, property reads, `Object.assign`, the `||`
    operator, conversion to a string and `String.prototype.toLowerCase`. */
module JsValue {

  datatype Option<T> = None | Some(value: T)

  datatype Result<T, E> = Ok(value: T) | Err(error: E)

  /** Which function a function value is: the module's `noop`, the default `warn`
      installed by the option defaults, or a function defined elsewhere (a caller's
      `whatBump`, `warn` or callback, a preset's factory), told apart by a number. */
  datatype FnId = Noop | DefaultWarn | Foreign(n: nat)

  /** A JavaScript value. Numbers are integers. An object is the map of its own
      enumerable properties; its prototype chain and key order are not modelled. */
  datatype Val =
    | Undefined
    | Null
    | Bool(b: bool)
    | Num(n: int)
    | Str(s: string)
    | Arr(items: seq<Val>)
    | Obj(fields: map<string, Val>)
    | Fn(id: FnId)

  /** `v == null`: true of `null` and `undefined` only. */
  predicate Nullish(v: Val) {
    v.Undefined? || v.Null?
  }

  /** ToBoolean: what `if (v)`, `!v` and `||` test. */
  predicate Truthy(v: Val) {
    match v
    case Undefined => false
    case Null => false
    case Bool(b) => b
    case Num(n) => n != 0
    case Str(s) => s != ""
    case _ => true
  }

  /** The `typeof` operator. */
  function TypeOf(v: Val): string {
    match v
    case Undefined => "undefined"
    case Null => "object"
    case Bool(_) => "boolean"
    case Num(_) => "number"
    case Str(_) => "string"
    case Arr(_) => "object"
    case Obj(_) => "object"
    case Fn(_) => "function"
  }

  /** `vs[0] || vs[1] || ...`: the first truthy operand, or the last operand when
      none is truthy. */
  function Or(vs: seq<Val>): (r: Val)
    requires |vs| > 0
    ensures Truthy(r) ==>
      exists i :: 0 <= i < |vs| && vs[i] == r && forall j :: 0 <= j < i ==> !Truthy(vs[j])
    ensures !Truthy(r) ==> r == vs[|vs| - 1] && forall j :: 0 <= j < |vs| ==> !Truthy(vs[j])
  {
    if |vs| == 1 || Truthy(vs[0]) then vs[0]
    else
      var r := Or(vs[1..]);
      assert Truthy(r) ==> exists i :: 1 <= i < |vs| && vs[i] == r && forall j :: 1 <= j < i ==> !Truthy(vs[j]);
      r
  }

  // ---------------------------------------------------------------------------
  // Decimal strings and array index keys

  predicate IsDigits(s: string) {
    forall i :: 0 <= i < |s| ==> '0' <= s[i] <= '9'
  }

  function Digit(d: nat): (c: char)
    requires d < 10
    ensures '0' <= c <= '9'
  {
    ('0' as int + d) as char
  }

  /** The decimal form of a natural number, as `String(n)` writes it. */
  function NatToString(n: nat): (s: string)
    ensures |s| > 0 && IsDigits(s)
    ensures s[0] == '0' ==> n == 0
    decreases n
  {
    if n < 10 then [Digit(n)] else NatToString(n / 10) + [Digit(n % 10)]
  }

  /** `String(n)` for an integer. */
  function IntToString(n: int): string {
    if n < 0 then "-" + NatToString(-n) else NatToString(n)
  }

  function DigitsValue(s: string): nat
    requires IsDigits(s)
  {
    if s == [] then 0 else DigitsValue(s[..|s| - 1]) * 10 + (s[|s| - 1] as int - '0' as int)
  }

  /** The array index a property key names: a canonical decimal numeral (no sign,
      no leading zero). */
  function ParseIndex(key: string): Option<nat> {
    if |key| > 0 && IsDigits(key) && (key[0] != '0' || |key| == 1) then Some(DigitsValue(key)) else None
  }

  lemma {:induction false} DigitsValueOfNatToString(n: nat)
    ensures DigitsValue(NatToString(n)) == n
    decreases n
  {
    if n >= 10 {
      DigitsValueOfNatToString(n / 10);
      var s := NatToString(n);
      assert s[..|s| - 1] == NatToString(n / 10);
    }
  }

  /** Every index's decimal form is read back as that index. */
  lemma IndexRoundTrip(n: nat)
    ensures ParseIndex(NatToString(n)) == Some(n)
  {
    DigitsValueOfNatToString(n);
  }

  /** A key read as an index is that index's decimal form, so the two views agree. */
  lemma {:induction false} IndexKeyIsCanonical(key: string)
    requires ParseIndex(key).Some?
    ensures NatToString(ParseIndex(key).value) == key
    decreases |key|
  {
    var v := DigitsValue(key);
    if |key| > 1 {
      var p := key[..|key| - 1];
      assert p[0] == key[0];
      IndexKeyIsCanonical(p);
      var d := key[|key| - 1] as int - '0' as int;
      assert v == DigitsValue(p) * 10 + d;
      assert DigitsValue(p) != 0;
      assert v / 10 == DigitsValue(p) && v % 10 == d;
      assert key == p + [key[|key| - 1]];
    } else {
      assert key[..|key| - 1] == [];
      assert DigitsValue(key[..|key| - 1]) == 0;
      assert key[|key| - 1] == key[0];
      assert v == key[0] as int - '0' as int;
      assert NatToString(v) == [Digit(v)];
    }
  }

  lemma NatToStringInjective()
    ensures forall a: nat, b: nat :: NatToString(a) == NatToString(b) ==> a == b
  {
    forall a: nat, b: nat | NatToString(a) == NatToString(b)
      ensures a == b
    {
      DigitsValueOfNatToString(a);
      DigitsValueOfNatToString(b);
    }
  }

  // ---------------------------------------------------------------------------
  // Property reads and Object.assign

  /** The characters of a string, each as a one-character string. */
  function Chars(s: string): (cs: seq<Val>)
    ensures |cs| == |s|
    ensures forall i :: 0 <= i < |s| ==> cs[i] == Str([s[i]])
  {
    seq(|s|, i requires 0 <= i < |s| => Str([s[i]]))
  }

  /** The element an index key names, `undefined` past the end or for any other key. */
  function Element(items: seq<Val>, key: string): Val {
    match ParseIndex(key)
    case Some(i) => if i < |items| then items[i] else Undefined
    case None => Undefined
  }

  /** The own enumerable index properties of an array or string: "0", "1", ... */
  function IndexMap(items: seq<Val>): (m: map<string, Val>)
    ensures forall i :: 0 <= i < |items| ==> NatToString(i) in m && m[NatToString(i)] == items[i]
    ensures forall k :: k in m ==> ParseIndex(k).Some? && ParseIndex(k).value < |items|
  {
    NatToStringInjective();
    var m := map i | 0 <= i < |items| :: NatToString(i) := items[i];
    assert forall k :: k in m ==> ParseIndex(k).Some? && ParseIndex(k).value < |items| by {
      forall k | k in m
        ensures ParseIndex(k).Some? && ParseIndex(k).value < |items|
      {
        var i :| 0 <= i < |items| && k == NatToString(i);
        IndexRoundTrip(i);
      }
    }
    m
  }

  /** `v[key]` for a value that is neither `null` nor `undefined` (reading a
      property of those throws). Only own properties and the `length` of arrays
      and strings are seen. */
  function Prop(v: Val, key: string): Val
    requires !Nullish(v)
  {
    match v
    case Obj(m) => if key in m then m[key] else Undefined
    case Arr(items) => if key == "length" then Num(|items|) else Element(items, key)
    case Str(s) => if key == "length" then Num(|s|) else Element(Chars(s), key)
    case _ => Undefined
  }

  /** The own enumerable properties `Object.assign` copies from a source: those of
      an object, the indices of an array or string, nothing from anything else. */
  function OwnEnumerable(v: Val): map<string, Val> {
    match v
    case Obj(m) => m
    case Arr(items) => IndexMap(items)
    case Str(s) => IndexMap(Chars(s))
    case _ => map[]
  }

  /** Reading a key that `Object.assign` would copy gives the value it would copy. */
  lemma PropAgreesWithOwnEnumerable(v: Val, key: string)
    requires !Nullish(v) && key in OwnEnumerable(v)
    ensures Prop(v, key) == OwnEnumerable(v)[key]
  {
    if v.Arr? || v.Str? {
      var items := if v.Arr? then v.items else Chars(v.s);
      var i := ParseIndex(key).value;
      IndexKeyIsCanonical(key);
      assert key != "length" by { assert key[0] != 'l'; }
      assert IndexMap(items)[NatToString(i)] == items[i];
    }
  }

  /** `Object.assign(target, source)`: the source's own enumerable properties are
      written over the target's; everything else in the target is kept. */
  function Assign(target: map<string, Val>, source: Val): (r: map<string, Val>)
    ensures r.Keys == target.Keys + OwnEnumerable(source).Keys
    ensures forall k :: k in OwnEnumerable(source) ==> r[k] == OwnEnumerable(source)[k]
    ensures forall k :: k in target && k !in OwnEnumerable(source) ==> r[k] == target[k]
  {
    target + OwnEnumerable(source)
  }

  // ---------------------------------------------------------------------------
  // Strings

  /** `String(v)`. A function's source text is not modelled. */
  function ToString(v: Val): string
    decreases v, 1
  {
    match v
    case Undefined => "undefined"
    case Null => "null"
    case Bool(b) => if b then "true" else "false"
    case Num(n) => IntToString(n)
    case Str(s) => s
    case Arr(items) => Join(items)
    case Obj(_) => "[object Object]"
    case Fn(_) => "function"
  }

  /** `items.join(',')`: `null` and `undefined` elements become empty strings. */
  function Join(items: seq<Val>): string
    decreases items, 0
  {
    if items == [] then ""
    else
      var head := if Nullish(items[0]) then "" else ToString(items[0]);
      if |items| == 1 then head else head + "," + Join(items[1..])
  }

  /** ASCII lower-casing of one character. */
  function LowerChar(c: char): char {
    if 'A' <= c <= 'Z' then (c as int - 'A' as int + 'a' as int) as char else c
  }

  /** `s.toLowerCase()`, for the ASCII letters. */
  function LowerCase(s: string): (r: string)
    ensures |r| == |s|
    ensures forall i :: 0 <= i < |s| ==> r[i] == LowerChar(s[i])
  {
    if s == [] then [] else [LowerChar(s[0])] + LowerCase(s[1..])
  }

  /** Lower-casing twice is lower-casing once. */
  lemma LowerCaseIdempotent(s: string)
    ensures LowerCase(LowerCase(s)) == LowerCase(s)
  {
    var once := LowerCase(s);
    assert forall i :: 0 <= i < |s| ==> LowerCase(once)[i] == once[i];
  }
}
