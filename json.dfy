/** The values Python's json.loads produces, and the dict and str operations
    the quiz generator applies to them. */
module Json {
  import opened Wrappers

  /** A parsed JSON document. An Object lists the items of the Python dict in
      insertion order; json.loads builds a dict, so its keys are distinct. */
  datatype Json =
    | Null
    | Bool(b: bool)
    | Int(i: int)
    | Float(f: real)
    | Str(s: string)
    | Array(items: seq<Json>)
    | Object(fields: seq<Field>)

  datatype Field = Field(key: string, value: Json)

  /** Position of the first field named `k` at or after `from`. */
  function IndexFrom(fields: seq<Field>, k: string, from: nat): (r: Option<nat>)
    requires from <= |fields|
    decreases |fields| - from
    ensures r.Some? ==> from <= r.value < |fields| && fields[r.value].key == k
    ensures r.Some? ==> forall j :: from <= j < r.value ==> fields[j].key != k
    ensures r.None? ==> forall j :: from <= j < |fields| ==> fields[j].key != k
  {
    if from == |fields| then None
    else if fields[from].key == k then Some(from)
    else IndexFrom(fields, k, from + 1)
  }

  function IndexOf(fields: seq<Field>, k: string): Option<nat>
  {
    IndexFrom(fields, k, 0)
  }

  /** Python's `k in d` on a dict. */
  predicate HasKey(fields: seq<Field>, k: string)
  {
    IndexOf(fields, k).Some?
  }

  /** Python's `d[k]` on a dict that holds `k`. */
  function Get(fields: seq<Field>, k: string): Json
    requires HasKey(fields, k)
  {
    fields[IndexOf(fields, k).value].value
  }

  /** Python's `d[k] = v` on a dict that already holds `k`: the value changes,
      the key keeps its place. */
  function SetField(fields: seq<Field>, k: string, v: Json): (r: seq<Field>)
    ensures |r| == |fields|
    ensures forall i :: 0 <= i < |r| ==> r[i].key == fields[i].key
    ensures forall i :: 0 <= i < |r| ==>
              r[i].value == if fields[i].key == k then v else fields[i].value
  {
    seq(|fields|, i requires 0 <= i < |fields| =>
      if fields[i].key == k then Field(k, v) else fields[i])
  }

  /** Assigning `d[k] = v` keeps every key, makes `d[k]` read `v`, and leaves every other key's value alone. */
  lemma SetFieldGet(fields: seq<Field>, k: string, v: Json, other: string)
    requires HasKey(fields, k) && HasKey(fields, other)
    ensures HasKey(SetField(fields, k, v), k) && HasKey(SetField(fields, k, v), other)
    ensures Get(SetField(fields, k, v), k) == v
    ensures other != k ==> Get(SetField(fields, k, v), other) == Get(fields, other)
  {
  }

  /** Python's `len(v)`, or None where len raises TypeError. */
  function Len(v: Json): Option<nat>
  {
    match v
    case Str(s) => Some(|s|)
    case Array(items) => Some(|items|)
    case Object(fields) => Some(|fields|)
    case _ => None
  }

  /** Python's name for the type json.loads gives each kind of value. */
  function TypeName(v: Json): string
  {
    match v
    case Null => "NoneType"
    case Bool(_) => "bool"
    case Int(_) => "int"
    case Float(_) => "float"
    case Str(_) => "str"
    case Array(_) => "list"
    case Object(_) => "dict"
  }

  /** Python's `sub in s` on two strings. */
  predicate Contains(s: string, sub: string)
  {
    exists i :: 0 <= i <= |s| - |sub| && OccursAt(s, sub, i)
  }

  predicate OccursAt(s: string, sub: string, i: nat)
    requires i + |sub| <= |s|
  {
    s[i..i + |sub|] == sub
  }

  predicate IsDigit(c: char)
  {
    '0' <= c <= '9'
  }

  predicate AllDigits(s: string)
  {
    forall i :: 0 <= i < |s| ==> IsDigit(s[i])
  }

  /** Python's `s.isdigit()`, restricted to the digits 0-9. */
  predicate IsDigits(s: string)
  {
    |s| > 0 && AllDigits(s)
  }

  /** Python's `int(s)` on a string of decimal digits. */
  function DigitsValue(s: string): nat
    requires AllDigits(s)
  {
    if |s| == 0 then 0
    else 10 * DigitsValue(s[..|s| - 1]) + ((s[|s| - 1] as int) - ('0' as int))
  }

  function DigitChar(d: nat): (c: char)
    requires d < 10
    ensures IsDigit(c)
  {
    (('0' as int) + d) as char
  }

  /** Python's `str(n)` for a natural number: the reference the coercion is checked against. */
  function ShowNat(n: nat): (s: string)
    ensures IsDigits(s)
  {
    if n < 10 then [DigitChar(n)] else ShowNat(n / 10) + [DigitChar(n % 10)]
  }

  /** `int(str(n)) == n`: reading back the decimal digits of a number gives the number. */
  lemma {:induction false} DigitsRoundTrip(n: nat)
    ensures DigitsValue(ShowNat(n)) == n
  {
    if n >= 10 {
      var s := ShowNat(n);
      assert s[..|s| - 1] == ShowNat(n / 10);
      DigitsRoundTrip(n / 10);
    }
  }
}
