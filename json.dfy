/** JavaScript values as the handlers and components see them: request-body
    fields, results of `JSON.parse`, fields of fetched records. Only the parts of
    JavaScript's semantics the source relies on are given here: truthiness,
    strict equality, the `String(v)` conversion, and array spread. */
module Json {
  import opened Wrappers

  datatype JsValue =
    | Undefined
    | Null
    | Bool(b: bool)
    | Num(n: int)
    | Str(s: string)
    | Arr(items: seq<JsValue>)
    | Obj(fields: map<string, JsValue>)

  /** A plain object, such as `req.body` or a project fetched by the client. */
  type Object = map<string, JsValue>

  /** `obj[key]`: a missing key reads as `undefined`. */
  function Get(obj: Object, key: string): JsValue
  {
    if key in obj then obj[key] else Undefined
  }

  /** The values `if (v)` accepts. Arrays and objects are truthy even when empty. */
  predicate Truthy(v: JsValue)
  {
    match v
    case Undefined => false
    case Null => false
    case Bool(b) => b
    case Num(n) => n != 0
    case Str(s) => s != ""
    case Arr(_) => true
    case Obj(_) => true
  }

  /** `a === b`. Arrays and objects compare by reference, and the values compared
      in this system are never one and the same array or object. */
  predicate StrictEquals(a: JsValue, b: JsValue)
  {
    !a.Arr? && !a.Obj? && a == b
  }

  /** `xs.map(String)` lifted into JavaScript values. */
  function Strs(xs: seq<string>): (r: seq<JsValue>)
    ensures |r| == |xs| && forall i :: 0 <= i < |xs| ==> r[i] == Str(xs[i])
  {
    seq(|xs|, i requires 0 <= i < |xs| => Str(xs[i]))
  }

  lemma StrsAppend(xs: seq<string>, ys: seq<string>)
    ensures Strs(xs + ys) == Strs(xs) + Strs(ys)
  {
  }

  // ---------------------------------------------------------------------------
  // `String(v)`, which `JSON.parse` and `FormData.append` apply to their argument

  function DigitChar(d: nat): char
    requires d < 10
  {
    "0123456789"[d]
  }

  /** Decimal numeral of a natural number, without leading zeros. */
  function NatToText(n: nat): (r: string)
    ensures |r| >= 1
    decreases n
  {
    if n < 10 then [DigitChar(n)] else NatToText(n / 10) + [DigitChar(n % 10)]
  }

  function IntToText(n: int): string
  {
    if n < 0 then "-" + NatToText(-n) else NatToText(n)
  }

  /** `String(v)`. Inside an array, `null` and `undefined` become "" and the
      elements are joined with ",". */
  function ToText(v: JsValue): string
    decreases v, 1
  {
    match v
    case Undefined => "undefined"
    case Null => "null"
    case Bool(b) => if b then "true" else "false"
    case Num(n) => IntToText(n)
    case Str(s) => s
    case Arr(items) => JoinText(items)
    case Obj(_) => "[object Object]"
  }

  function JoinText(items: seq<JsValue>): string
    decreases items, 0
  {
    if items == [] then ""
    else
      var head := if items[0].Undefined? || items[0].Null? then "" else ToText(items[0]);
      if |items| == 1 then head else head + "," + JoinText(items[1..])
  }

  // ---------------------------------------------------------------------------
  // Decimal numerals read back

  /** A non-empty run of decimal digits. */
  predicate Numeral(s: string)
  {
    |s| >= 1 && forall i :: 0 <= i < |s| ==> '0' <= s[i] <= '9'
  }

  function DigitValue(c: char): nat
    requires '0' <= c <= '9'
  {
    (c as int - '0' as int) as nat
  }

  /** The natural number a non-empty run of decimal digits denotes; `None` for
      anything else. */
  function ParseNat(s: string): Option<nat>
    decreases |s|
  {
    if |s| == 0 then None
    else if !('0' <= s[|s| - 1] <= '9') then None
    else if |s| == 1 then Some(DigitValue(s[0]))
    else match ParseNat(s[..|s| - 1])
      case None => None
      case Some(high) => Some(high * 10 + DigitValue(s[|s| - 1]))
  }

  /** Exactly the numerals parse. */
  lemma {:induction false} ParseNatAcceptsNumerals(s: string)
    ensures ParseNat(s).Some? <==> Numeral(s)
    decreases |s|
  {
    if |s| >= 2 {
      var init := s[..|s| - 1];
      ParseNatAcceptsNumerals(init);
      assert forall i :: 0 <= i < |init| ==> init[i] == s[i];
    }
  }

  /** Every number is written as a numeral. */
  lemma {:induction false} NatToTextIsNumeral(n: nat)
    ensures Numeral(NatToText(n))
    decreases n
  {
    DigitRoundTrip(n % 10);
    if n >= 10 {
      NatToTextIsNumeral(n / 10);
      var t := NatToText(n);
      assert t == NatToText(n / 10) + [DigitChar(n % 10)];
    }
  }

  lemma DigitRoundTrip(d: nat)
    requires d < 10
    ensures '0' <= DigitChar(d) <= '9' && DigitValue(DigitChar(d)) == d
  {
  }

  /** Parsing a numeral followed by one more digit. */
  lemma ParseNatStep(t: string, d: nat, high: nat)
    requires d < 10 && |t| >= 1 && ParseNat(t) == Some(high)
    ensures ParseNat(t + [DigitChar(d)]) == Some(high * 10 + d)
  {
    DigitRoundTrip(d);
    var c := DigitChar(d);
    var u := t + [c];
    assert u[..|u| - 1] == t;
    assert u[|u| - 1] == c;
    assert |u| != 0 && |u| != 1;
    assert '0' <= u[|u| - 1] <= '9';
    assert ParseNat(u[..|u| - 1]) == Some(high);
    assert ParseNat(u) == Some(high * 10 + DigitValue(u[|u| - 1]));
  }

  lemma {:induction false} ParseNatToText(n: nat)
    ensures ParseNat(NatToText(n)) == Some(n)
    decreases n
  {
    if n >= 10 {
      ParseNatToText(n / 10);
      ParseNatStep(NatToText(n / 10), n % 10, n / 10);
    } else {
      DigitRoundTrip(n);
    }
  }

  // ---------------------------------------------------------------------------
  // Array spread

  /** `[...v]`: an array spreads into its elements, a string into its characters;
      spreading anything else throws a TypeError (`None`). */
  function Spread(v: JsValue): (r: Option<seq<JsValue>>)
    ensures r.Some? <==> v.Arr? || v.Str?
    ensures v.Arr? ==> r == Some(v.items)
    ensures v.Str? ==>
              r.Some? && |r.value| == |v.s| && forall i :: 0 <= i < |v.s| ==> r.value[i] == Str([v.s[i]])
  {
    match v
    case Arr(items) => Some(items)
    case Str(s) => Some(seq(|s|, i requires 0 <= i < |s| => Str([s[i]])))
    case _ => None
  }
}
