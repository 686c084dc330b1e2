/** JSON-like values as the frontend keeps them in localStorage and as the
    backend reads them with `json.load`. Numbers are exact rationals; a string
    produced by `x.toFixed(d)` is kept as `Fixed(x, d)` (its digits are not
    spelled out). A record is a JavaScript object / Python dict. */
module Json {
  import opened Wrappers
  import opened Strings

  datatype Value =
    | Null
    | Bool(b: bool)
    | Num(x: real)
    | Str(s: string)
    | Fixed(x: real, digits: nat)
    | Arr(items: seq<Value>)
    | Obj(fields: map<string, Value>)

  type Record = map<string, Value>

  function Pow10(n: nat): (p: nat)
    ensures p >= 1
  {
    if n == 0 then 1 else 10 * Pow10(n - 1)
  }

  /** The number the string `x.toFixed(digits)` spells: `x` rounded to
      `digits` places, a tie going away from zero. */
  function FixedValue(x: real, digits: nat): real {
    RoundedTo(x, Pow10(digits) as real)
  }

  /** `x` rounded to a multiple of `1 / p`, a tie going away from zero. */
  function RoundedTo(x: real, p: real): real
    requires p > 0.0
  {
    if x >= 0.0 then RoundHalfUp(x * p) / p else -(RoundHalfUp(-x * p) / p)
  }

  function RoundHalfUp(y: real): (n: real)
    ensures -0.5 < n - y <= 0.5
  {
    (y + 0.5).Floor as real
  }

  /** Rounding to a multiple of `1 / p` moves a value by at most half of
      `1 / p`; for `toFixed(digits)`, `p` is `10^digits`. */
  lemma RoundedToClose(x: real, p: real)
    requires p > 0.0
    ensures -0.5 / p <= RoundedTo(x, p) - x <= 0.5 / p
  {
    if x >= 0.0 {
      ScaledClose(x, p);
    } else {
      var q := RoundHalfUp(-x * p) / p;
      ScaledClose(-x, p);
      assert -0.5 / p <= q + x <= 0.5 / p;
      assert RoundedTo(x, p) == -q;
    }
  }

  lemma ScaledClose(a: real, p: real)
    requires p > 0.0
    ensures -0.5 / p <= RoundHalfUp(a * p) / p - a <= 0.5 / p
  {
    var e := RoundHalfUp(a * p) - a * p;
    assert (a * p + e) / p == a + e / p;
    assert -0.5 / p <= e / p <= 0.5 / p;
  }

  /** A multiple of `1 / p` (`x * p` is the integer `k`) is left as it
      is: for `toFixed(digits)`, a number with at most `digits` decimals. */
  lemma RoundedToExact(x: real, k: int, p: real)
    requires p > 0.0 && x * p == k as real
    ensures RoundedTo(x, p) == x
  {
    RoundInteger(k);
    RoundInteger(-k);
    if x >= 0.0 {
      assert k as real / p == x;
    } else {
      assert -x * p == (-k) as real;
      assert -((-k) as real / p) == x;
    }
  }

  lemma RoundInteger(k: int)
    ensures RoundHalfUp(k as real) == k as real
  {
    var m := (k as real + 0.5).Floor;
    assert m as real <= k as real + 0.5 < m as real + 1.0;
    var d := m - k;
    assert d as real <= 0.5 && d as real > -0.5;
  }

  /** `r[key]` in JavaScript / `r.get(key)` in Python: `None` when absent. */
  function Get(r: Record, key: string): (v: Option<Value>)
    ensures v.Some? <==> key in r
    ensures v.Some? ==> v.value == r[key]
  {
    if key in r then Some(r[key]) else None
  }

  /** What JavaScript's `String(v)` prints for a stored value, where the
      model spells it out: `null`, the booleans, strings, objects
      ("[object Object]") and arrays (their elements joined with commas, a
      `null` element printing as nothing). Numbers and `toFixed` strings,
      whose digits the model does not spell out, give None, and so does an
      array holding one. */
  function JsText(v: Value): (t: Option<string>)
    decreases v, 1
    ensures v.Null? ==> t == Some("null")
    ensures v.Bool? ==> t == Some(if v.b then "true" else "false")
    ensures v.Str? ==> t == Some(v.s)
    ensures v.Obj? ==> t == Some("[object Object]")
    ensures v.Num? || v.Fixed? ==> t.None?
  {
    match v
    case Null => Some("null")
    case Bool(b) => Some(if b then "true" else "false")
    case Str(s) => Some(s)
    case Obj(_) => Some("[object Object]")
    case Arr(items) => JoinText(v, items)
    case Num(_) => None
    case Fixed(_, _) => None
  }

  /** `items.join(",")` for the elements of the array `whole`. */
  function JoinText(whole: Value, items: seq<Value>): (t: Option<string>)
    requires forall k :: 0 <= k < |items| ==> items[k] < whole
    decreases whole, 0, |items|
    ensures items == [] ==> t == Some("")
  {
    if items == [] then Some("")
    else
      var first := if items[0].Null? then Some("") else JsText(items[0]);
      if |items| == 1 then first
      else
        match (first, JoinText(whole, items[1..]))
        case (Some(a), Some(b)) => Some(a + "," + b)
        case _ => None
  }

  /** How an element prints inside `items.join(",")`: `null` as nothing. */
  function ElementText(v: Value): Option<string> {
    if v.Null? then Some("") else JsText(v)
  }

  /** The printed elements, when each of them prints. */
  function ElementTexts(items: seq<Value>): (texts: seq<string>)
    requires forall k :: 0 <= k < |items| ==> ElementText(items[k]).Some?
    ensures |texts| == |items|
  {
    if items == [] then [] else [ElementText(items[0]).value] + ElementTexts(items[1..])
  }

  lemma {:induction false} JoinTextIsJoin(whole: Value, items: seq<Value>)
    requires forall k :: 0 <= k < |items| ==> items[k] < whole
    ensures JoinText(whole, items).Some? <==> forall k :: 0 <= k < |items| ==> ElementText(items[k]).Some?
    ensures items != [] && JoinText(whole, items).Some? ==>
      JoinText(whole, items).value == Join(ElementTexts(items), ',')
    decreases |items|
  {
    if items != [] {
      JoinTextIsJoin(whole, items[1..]);
      assert forall k :: 1 <= k < |items| ==> items[k] == items[1..][k - 1];
    }
  }

  /** `String(array)`: it prints exactly when every element prints, and then
      it is the elements' texts, `null` as nothing, joined with ",". */
  lemma ArrayText(items: seq<Value>)
    ensures JsText(Arr(items)).Some? <==> forall k :: 0 <= k < |items| ==> ElementText(items[k]).Some?
    ensures items != [] && JsText(Arr(items)).Some? ==>
      JsText(Arr(items)).value == Join(ElementTexts(items), ',')
  {
    assert forall k :: 0 <= k < |items| ==> items[k] < Arr(items);
    JoinTextIsJoin(Arr(items), items);
  }

  /** JavaScript's `===` between a value read back through `JSON.parse` and
      any other (`undefined` is None). A parsed object or array is a fresh
      reference, so it is identical to nothing; other values compare by
      value. */
  predicate StrictEq(a: Option<Value>, b: Option<Value>) {
    a == b && !IsReference(a)
  }

  /** An object or an array: `===`, `!==` and `includes` compare it by
      reference, not by contents. */
  predicate IsReference(v: Option<Value>) {
    v.Some? && (v.value.Obj? || v.value.Arr?)
  }

  /** A value as `===`, `!==` and `includes` tell values apart. A primitive,
      or `undefined` (None), is known by its value; an object or array is
      known by its reference, named by the position of the parsed record
      it was read from. */
  datatype Ident = Primitive(v: Option<Value>) | Reference(row: nat)

  /** The identity of `records[row][key]`. */
  function IdentOf(records: seq<Record>, row: nat, key: string): (r: Ident)
    requires row < |records|
    ensures r.Reference? <==> IsReference(Get(records[row], key))
    ensures r.Primitive? ==> r.v == Get(records[row], key)
    ensures r.Reference? ==> r.row == row
  {
    var v := Get(records[row], key);
    if IsReference(v) then Reference(row) else Primitive(v)
  }

  /** Two fields of a parsed list have the same identity exactly when they
      are the same field or `===` each other. */
  lemma SameIdent(records: seq<Record>, i: nat, j: nat, key: string)
    requires i < |records| && j < |records|
    ensures IdentOf(records, i, key) == IdentOf(records, j, key) <==>
      (i == j || StrictEq(Get(records[i], key), Get(records[j], key)))
  {
  }

  /** JavaScript truthiness (NaN does not occur: numbers are exact). */
  predicate JsTruthy(v: Value) {
    match v
    case Null => false
    case Bool(b) => b
    case Num(x) => x != 0.0
    case Str(s) => s != ""
    case Fixed(_, _) => true
    case Arr(_) => true
    case Obj(_) => true
  }

  /** JavaScript truthiness of a possibly `undefined` value. */
  predicate JsTruthyOpt(v: Option<Value>) {
    v.Some? && JsTruthy(v.value)
  }

  /** `v ?? fallback`: `undefined` and `null` are nullish. */
  function Nullish(v: Option<Value>, fallback: Value): (r: Value)
    ensures v.Some? && v.value != Null ==> r == v.value
    ensures (v.None? || v.value == Null) ==> r == fallback
  {
    if v.Some? && v.value != Null then v.value else fallback
  }

  /** Python truthiness: empty containers are false as well. */
  predicate PyTruthy(v: Value) {
    match v
    case Null => false
    case Bool(b) => b
    case Num(x) => x != 0.0
    case Str(s) => s != ""
    case Fixed(_, _) => true
    case Arr(items) => items != []
    case Obj(fields) => fields != map[]
  }

  /** Python truthiness of `dict.get`'s result (`None` is false). */
  predicate PyTruthyOpt(v: Option<Value>) {
    v.Some? && PyTruthy(v.value)
  }
}
