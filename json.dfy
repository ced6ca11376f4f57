/**
 * JSON values as JavaScript's JSON.parse hands them to the application, and
 * the few JavaScript coercions the modelled code applies to them: property
 * reads that may be undefined, truthiness, `??`, and String().
 */
module Json {

  datatype Option<+T> = None | Some(value: T)

  /**
   * A JSON value. A number is held as the text JavaScript's String() gives
   * for it ("0", "95", "8.7"); JSON never produces NaN, and String(-0) is "0".
   */
  datatype Json =
    | JNull
    | JBool(b: bool)
    | JNum(text: string)
    | JStr(s: string)
    | JArr(items: seq<Json>)
    | JObj(fields: map<string, Json>)

  /**
   * The property read `v.key` for a named (non-index, non-"length") key: only
   * objects carry such properties; None stands for `undefined`.
   */
  function Get(v: Json, key: string): Option<Json>
  {
    if v.JObj? && key in v.fields then Some(v.fields[key]) else None
  }

  /** `x === null || x === undefined` */
  predicate Nullish(x: Option<Json>)
  {
    x.None? || x.value.JNull?
  }

  /** JavaScript truthiness of a JSON value: null, false, 0 and "" are falsy; arrays and objects, even empty ones, are truthy. */
  predicate Truthy(v: Json)
  {
    match v
    case JNull => false
    case JBool(b) => b
    case JNum(t) => t != "0"
    case JStr(s) => s != ""
    case JArr(_) => true
    case JObj(_) => true
  }

  /** Truthiness of a property read, where undefined is falsy. */
  predicate Present(x: Option<Json>)
  {
    x.Some? && Truthy(x.value)
  }

  /**
   * The chain `x0 ?? x1 ?? ... ?? undefined`: the first operand that is
   * neither null nor undefined, or undefined when every operand is nullish.
   */
  function FirstDefined(xs: seq<Option<Json>>): (r: Option<Json>)
    ensures r.Some? ==> r.value != JNull && exists i :: 0 <= i < |xs| && xs[i] == r
    ensures r.Some? <==> exists i :: 0 <= i < |xs| && !Nullish(xs[i])
  {
    if |xs| == 0 then None
    else if !Nullish(xs[0]) then xs[0]
    else
      var r := FirstDefined(xs[1..]);
      assert forall i :: 1 <= i < |xs| ==> xs[i] == xs[1..][i - 1];
      r
  }

  /** The first operand of a `??` chain that is neither null nor undefined comes before every other such operand. */
  lemma {:induction false} FirstDefinedIsFirst(xs: seq<Option<Json>>)
    requires FirstDefined(xs).Some?
    ensures exists i :: 0 <= i < |xs| && xs[i] == FirstDefined(xs) && forall j :: 0 <= j < i ==> Nullish(xs[j])
  {
    if Nullish(xs[0]) {
      FirstDefinedIsFirst(xs[1..]);
      var i :| 0 <= i < |xs[1..]| && xs[1..][i] == FirstDefined(xs[1..]) && forall j :: 0 <= j < i ==> Nullish(xs[1..][j]);
      assert xs[i + 1] == FirstDefined(xs);
      forall j | 0 <= j < i + 1 ensures Nullish(xs[j]) {
        if j > 0 { assert xs[j] == xs[1..][j - 1]; }
      }
    } else {
      assert xs[0] == FirstDefined(xs);
    }
  }

  /** `x ?? fallback` */
  function Coalesce(x: Option<Json>, fallback: Json): Json
  {
    if Nullish(x) then fallback else x.value
  }

  /**
   * Whether String(v) (or a template literal embedding v) throws a TypeError.
   * An object JSON.parse built with its own "toString" property holds a
   * value there that cannot be called, and the valueOf it falls back on
   * gives the object itself, which is no primitive. An array is converted by
   * joining its elements, so it throws when one of them does; a null element
   * is written as "" and never throws.
   */
  predicate StringThrows(v: Json)
    decreases v
  {
    match v
    case JObj(fields) => "toString" in fields
    case JArr(items) => exists i :: 0 <= i < |items| && StringThrows(items[i])
    case _ => false
  }

  /** String(v), for a value it converts without throwing. An array is its elements joined by ",", with null elements written as "". */
  function ToStr(v: Json): string
    requires !StringThrows(v)
    decreases v
  {
    match v
    case JNull => "null"
    case JBool(b) => if b then "true" else "false"
    case JNum(t) => t
    case JStr(s) => s
    case JObj(_) => "[object Object]"
    case JArr(items) =>
      JoinComma(seq(|items|, i requires 0 <= i < |items| => if items[i].JNull? then "" else ToStr(items[i])))
  }

  function JoinComma(parts: seq<string>): string
  {
    if |parts| == 0 then ""
    else if |parts| == 1 then parts[0]
    else parts[0] + "," + JoinComma(parts[1..])
  }

  function DigitChar(d: nat): char
    requires d < 10
  {
    "0123456789"[d]
  }

  /** The decimal text of a natural number, as String(n) writes it. */
  function NatToStr(n: nat): (r: string)
    ensures |r| >= 1
    ensures forall k :: 0 <= k < |r| ==> '0' <= r[k] <= '9'
    ensures n >= 10 <==> |r| >= 2
  {
    if n < 10 then [DigitChar(n)] else NatToStr(n / 10) + [DigitChar(n % 10)]
  }

  /** Two different numbers never print alike, so array indices make distinct keys. */
  lemma {:induction false} NatToStrInjective(n: nat, m: nat)
    requires NatToStr(n) == NatToStr(m)
    ensures n == m
  {
    LastDigit(n);
    LastDigit(m);
    DigitCharInjective(n % 10, m % 10);
    if n < 10 {
      assert m < 10 && n % 10 == n && m % 10 == m;
    } else {
      assert m >= 10;
      NatToStrInjective(n / 10, m / 10);
      SameQuotientAndDigit(n, m);
    }
  }

  /** A number is fixed by its quotient by ten and its last digit. */
  lemma SameQuotientAndDigit(n: nat, m: nat)
    requires n / 10 == m / 10 && n % 10 == m % 10
    ensures n == m
  {
  }

  /** The last character of the decimal text is the last digit, and what comes before it is the text of the rest. */
  lemma LastDigit(n: nat)
    ensures var s := NatToStr(n);
      s[|s| - 1] == DigitChar(n % 10) && (n >= 10 ==> s[..|s| - 1] == NatToStr(n / 10))
  {
    if n < 10 {
      assert n % 10 == n;
    }
  }

  /** Different digits have different characters. */
  lemma DigitCharInjective(d: nat, e: nat)
    requires d < 10 && e < 10 && DigitChar(d) == DigitChar(e)
    ensures d == e
  {
  }

  /** The keys "0" .. "n-1" an array's elements get when it is spread into an object. */
  function IndexMap(items: seq<Json>): map<string, Json>
  {
    if |items| == 0 then map[]
    else IndexMap(items[..|items| - 1])[NatToStr(|items| - 1) := items[|items| - 1]]
  }

  /** Spreading an array gives exactly the keys "0" .. "n-1", and key "i" holds element i. */
  lemma {:induction false} IndexMapHoldsItems(items: seq<Json>)
    ensures forall i :: 0 <= i < |items| ==> NatToStr(i) in IndexMap(items) && IndexMap(items)[NatToStr(i)] == items[i]
    ensures forall k :: k in IndexMap(items) ==> exists i :: 0 <= i < |items| && k == NatToStr(i)
  {
    if |items| > 0 {
      var n := |items| - 1;
      var init := items[..n];
      var m, before := IndexMap(items), IndexMap(init);
      assert m == before[NatToStr(n) := items[n]];
      IndexMapHoldsItems(init);
      forall i | 0 <= i < |items|
        ensures NatToStr(i) in m && m[NatToStr(i)] == items[i]
      {
        if i < n {
          if NatToStr(i) == NatToStr(n) {
            NatToStrInjective(i, n);
          }
          assert init[i] == items[i];
        }
      }
      forall k | k in m
        ensures exists i :: 0 <= i < |items| && k == NatToStr(i)
      {
        if k != NatToStr(n) {
          var i :| 0 <= i < |init| && k == NatToStr(i);
        }
      }
    }
  }

  /**
   * The own enumerable properties `{...v}` copies: an object's fields, an
   * array's elements or a string's characters under their indices, nothing
   * for null, booleans and numbers.
   */
  function SpreadFields(v: Json): map<string, Json>
  {
    match v
    case JObj(fields) => fields
    case JArr(items) => IndexMap(items)
    case JStr(s) => IndexMap(seq(|s|, i requires 0 <= i < |s| => JStr([s[i]])))
    case _ => map[]
  }
}
