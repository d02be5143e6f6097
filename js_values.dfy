/** The JavaScript values that cross the generation gateway and the views:
    parsed JSON, `string | undefined`, truthiness, property access, the
    decimal text of an integer and `String.prototype.includes`. */
module JsValues {

  import opened Wrappers

  /** A value produced by `JSON.parse`. Object members keep their source order,
      duplicates included. */
  datatype Json =
    | JNull
    | JBool(b: bool)
    | JNumber(n: real)
    | JString(s: string)
    | JArray(items: seq<Json>)
    | JObject(members: seq<(string, Json)>)

  /** JavaScript truthiness of a JSON value: `null`, `false`, `0` and `""` are
      falsy; every array and every object, even an empty one, is truthy. */
  predicate Truthy(v: Json) {
    match v
    case JNull => false
    case JBool(b) => b
    case JNumber(n) => n != 0.0
    case JString(s) => s != ""
    case JArray(_) => true
    case JObject(_) => true
  }

  /** The value of the last member named `key`; `JSON.parse` keeps the last of
      duplicated keys. */
  function LastMember(ms: seq<(string, Json)>, key: string): (r: Option<Json>)
    ensures r.None? <==> forall i :: 0 <= i < |ms| ==> ms[i].0 != key
    ensures r.Some? ==> exists i :: 0 <= i < |ms| && ms[i] == (key, r.value)
                          && forall j :: i < j < |ms| ==> ms[j].0 != key
  {
    if |ms| == 0 then None
    else if ms[|ms| - 1].0 == key then Some(ms[|ms| - 1].1)
    else LastMember(ms[..|ms| - 1], key)
  }

  /** Property access `v.key` on a parsed value; `None` is `undefined`. None of
      the keys the views read is a property of a primitive's or an array's
      prototype, so only objects yield something. On `null` the access throws
      in JavaScript; the views only read properties of a truthy value, so that
      case is never reached. */
  function Get(v: Json, key: string): (r: Option<Json>)
    ensures r.Some? ==> v.JObject?
    ensures v.JObject? ==> r == LastMember(v.members, key)
  {
    match v
    case JObject(ms) => LastMember(ms, key)
    case _ => None
  }

  /** Exactly four JSON values are falsy. */
  lemma FalsyValues(v: Json)
    ensures !Truthy(v) <==> v in {JNull, JBool(false), JNumber(0.0), JString("")}
  {
  }

  /** Truthiness of a `string | undefined`. */
  predicate TruthyText(s: Option<string>) {
    s.Some? && s.value != ""
  }

  /** `s || fallback` where `s: string | undefined`. */
  function OrElse(s: Option<string>, fallback: string): (r: string)
    ensures TruthyText(s) ==> r == s.value
    ensures !TruthyText(s) ==> r == fallback
    ensures r == "" <==> !TruthyText(s) && fallback == ""
  {
    if TruthyText(s) then s.value else fallback
  }

  /** `t` occurs in `s` starting at index `i`. */
  predicate OccursAt(s: string, t: string, i: int) {
    0 <= i <= |s| - |t| && s[i..i + |t|] == t
  }

  /** `s.includes(t)`: `t` occurs in `s` at some position. */
  predicate Includes(s: string, t: string) {
    exists i | 0 <= i <= |s| - |t| :: OccursAt(s, t, i)
  }

  lemma IncludesSelf(t: string)
    ensures Includes(t, t)
  {
    assert OccursAt(t, t, 0);
  }

  lemma IncludesLeft(a: string, b: string, t: string)
    requires Includes(a, t)
    ensures Includes(a + b, t)
  {
    var i :| 0 <= i <= |a| - |t| && OccursAt(a, t, i);
    assert (a + b)[i..i + |t|] == a[i..i + |t|];
    assert OccursAt(a + b, t, i);
  }

  lemma IncludesRight(a: string, b: string, t: string)
    requires Includes(b, t)
    ensures Includes(a + b, t)
  {
    var i :| 0 <= i <= |b| - |t| && OccursAt(b, t, i);
    assert (a + b)[|a| + i..|a| + i + |t|] == b[i..i + |t|];
    assert OccursAt(a + b, t, |a| + i);
  }

  /** A template literal: its pieces, the interpolated values among them,
      joined in order. */
  function Concat(pieces: seq<string>): string {
    if pieces == [] then "" else pieces[0] + Concat(pieces[1..])
  }

  /** Every piece of a template literal, and so every interpolated value,
      occurs in the resulting text. */
  lemma {:induction false} ConcatIncludesPiece(pieces: seq<string>, k: nat)
    requires k < |pieces|
    ensures Includes(Concat(pieces), pieces[k])
  {
    if k == 0 {
      IncludesSelf(pieces[0]);
      IncludesLeft(pieces[0], Concat(pieces[1..]), pieces[0]);
    } else {
      ConcatIncludesPiece(pieces[1..], k - 1);
      IncludesRight(pieces[0], Concat(pieces[1..]), pieces[k]);
    }
  }

  lemma IncludesEmpty(s: string)
    ensures Includes(s, "")
  {
    assert OccursAt(s, "", 0);
  }

  /** The result of `parseInt`: an integer or `NaN`. */
  datatype IntOrNaN = Int(i: int) | NaN

  function Digit(d: nat): (c: char)
    requires d < 10
  {
    "0123456789"[d]
  }

  function DigitValue(c: char): nat {
    if '0' <= c <= '9' then (c as int - '0' as int) else 0
  }

  /** The decimal text JavaScript gives a non-negative safe integer. */
  function DecimalText(n: nat): (s: string)
    ensures |s| > 0
    ensures forall k :: 0 <= k < |s| ==> '0' <= s[k] <= '9'
    ensures |s| > 1 ==> s[0] != '0'
  {
    if n < 10 then [Digit(n)] else DecimalText(n / 10) + [Digit(n % 10)]
  }

  /** Reads a string of decimal digits back as a number. */
  function DecimalValue(s: string): nat {
    if s == [] then 0 else DecimalValue(s[..|s| - 1]) * 10 + DigitValue(s[|s| - 1])
  }

  lemma {:induction false} DecimalRoundTrip(n: nat)
    ensures DecimalValue(DecimalText(n)) == n
  {
    if n >= 10 {
      var s := DecimalText(n / 10) + [Digit(n % 10)];
      assert s[..|s| - 1] == DecimalText(n / 10);
      DecimalRoundTrip(n / 10);
    }
  }

  /** How a template literal or JSX renders an integer or `NaN`: the
      canonical decimal digits of the magnitude, after a minus sign for a
      negative number. */
  function NumberText(d: IntOrNaN): (s: string)
    ensures d.NaN? ==> s == "NaN"
    ensures d.Int? && d.i >= 0 ==> s == DecimalText(d.i) && DecimalValue(s) == d.i
    ensures d.Int? && d.i < 0 ==> |s| > 1 && s[..1] == "-" && s[1..] == DecimalText(-d.i) && DecimalValue(s[1..]) == -d.i
  {
    match d
    case NaN => "NaN"
    case Int(i) =>
      if i < 0 then
        var t := DecimalText(-i);
        DecimalRoundTrip(-i);
        assert ("-" + t)[1..] == t && ("-" + t)[..1] == "-";
        "-" + t
      else
        DecimalRoundTrip(i);
        DecimalText(i)
  }

}
