/**
 * The `Json` union of the data-store typings (src/types/supabase.ts:1-7) and the
 * few JavaScript operations the handlers apply to such values: reading a member
 * (`payload.action`), truthiness (`!payload`, `&& payload.ref_type`) and string
 * conversion (template literals and `.toString()`).
 *
 * A member that is absent reads as JavaScript's `undefined`, written here as
 * `None` of an `Option<Json>`.
 */
module Json {

  datatype Option<+T> = None | Some(value: T)

  /** Numbers are integers here; see README for what that leaves out. */
  datatype Json =
    | JNull
    | JBool(b: bool)
    | JNumber(n: int)
    | JString(s: string)
    | JArray(items: seq<Json>)
    | JObject(fields: map<string, Json>)

  /** `v.key` on a non-null value: only objects carry the members read by the handlers. */
  function Member(v: Json, key: string): (r: Option<Json>)
    ensures r.Some? <==> v.JObject? && key in v.fields
    ensures r.Some? ==> r.value == v.fields[key]
  {
    if v.JObject? && key in v.fields then Some(v.fields[key]) else None
  }

  /** JavaScript truthiness of a defined value. */
  predicate Truthy(v: Json) {
    match v
    case JNull => false
    case JBool(b) => b
    case JNumber(n) => n != 0
    case JString(s) => s != ""
    case JArray(_) => true
    case JObject(_) => true
  }

  /** Truthiness of a possibly-undefined value: `undefined` is falsy. */
  predicate TruthyMember(v: Option<Json>) {
    v.Some? && Truthy(v.value)
  }

  function DigitChar(d: nat): (c: char)
    requires d < 10
    ensures '0' <= c <= '9' && c as int - '0' as int == d
  {
    (d + '0' as int) as char
  }

  /** The number a string of decimal digits denotes, most significant digit first. */
  function DigitsValue(s: string): nat
    requires forall i :: 0 <= i < |s| ==> '0' <= s[i] <= '9'
    decreases |s|
  {
    if s == [] then 0 else 10 * DigitsValue(s[..|s| - 1]) + (s[|s| - 1] as int - '0' as int)
  }

  /**
   * Decimal rendering of a natural number, most significant digit first: digits
   * only, no leading zero, and reading them back gives the number.
   */
  function NatText(n: nat): (r: string)
    ensures |r| >= 1
    ensures forall i :: 0 <= i < |r| ==> '0' <= r[i] <= '9'
    ensures |r| > 1 ==> r[0] != '0'
    ensures DigitsValue(r) == n
    decreases n
  {
    if n < 10 then [DigitChar(n)]
    else
      var prefix := NatText(n / 10);
      var r := prefix + [DigitChar(n % 10)];
      assert r[..|r| - 1] == prefix;
      r
  }

  /** `String(n)` for an integer number: a minus sign exactly for a negative one, then the digits of its magnitude. */
  function IntText(n: int): (r: string)
    ensures |r| >= 1
    ensures r[0] == '-' <==> n < 0
    ensures n < 0 ==> (forall i :: 1 <= i < |r| ==> '0' <= r[i] <= '9') && DigitsValue(r[1..]) == -n
    ensures n >= 0 ==> (forall i :: 0 <= i < |r| ==> '0' <= r[i] <= '9') && DigitsValue(r) == n
  {
    if n < 0 then
      var r := "-" + NatText(-n);
      assert r[1..] == NatText(-n);
      r
    else NatText(n)
  }

  /**
   * Whether `String(v)` returns at all.  Converting an object looks up its
   * `toString` member first; in a parsed JSON object an own member of that name is
   * never a function, and `valueOf` then yields the object itself, so the
   * conversion raises a TypeError.  An array converts its items the same way.
   */
  predicate Renderable(v: Json) {
    match v
    case JObject(fields) => "toString" !in fields
    case JArray(items) => forall x | x in items :: Renderable(x)
    case _ => true
  }

  /** A member read renders when it is absent (`undefined`) or its value renders. */
  predicate MemberRenderable(v: Option<Json>) {
    v.None? || Renderable(v.value)
  }

  /**
   * `String(v)`, which is what both a template literal `${v}` and `v.toString()`
   * produce for a defined, non-null value that converts without raising.  Arrays
   * join their items with ",", rendering null items as the empty string.
   */
  function AsString(v: Json): (r: string)
    requires Renderable(v)
    ensures v.JString? ==> r == v.s
    ensures v.JNumber? ==> r == IntText(v.n)
    ensures v.JBool? ==> r == (if v.b then "true" else "false")
    ensures v.JObject? ==> r == "[object Object]"
    ensures v.JArray? && v.items == [] ==> r == ""
    ensures v.JArray? && |v.items| == 1 && !v.items[0].JNull? ==> r == AsString(v.items[0])
    decreases v, 1
  {
    match v
    case JNull => "null"
    case JBool(b) => if b then "true" else "false"
    case JNumber(n) => IntText(n)
    case JString(s) => s
    case JArray(items) => JoinItems(v, items)
    case JObject(_) => "[object Object]"
  }

  /** `items.join(",")` for the items of the array `parent`. */
  function JoinItems(parent: Json, items: seq<Json>): string
    requires forall x :: x in items ==> x < parent && Renderable(x)
    decreases parent, 0, |items|
  {
    if items == [] then ""
    else
      assert items[0] in items;
      var head := if items[0].JNull? then "" else AsString(items[0]);
      if |items| == 1 then head
      else
        assert forall x :: x in items[1..] ==> x in items;
        head + "," + JoinItems(parent, items[1..])
  }

  /** `${v}` for a member read: an absent member renders as "undefined". */
  function MemberText(v: Option<Json>): (r: string)
    requires MemberRenderable(v)
    ensures v.None? ==> r == "undefined"
    ensures v.Some? && v.value.JString? ==> r == v.value.s
  {
    match v
    case None => "undefined"
    case Some(x) => AsString(x)
  }
}
