/**
 * The values the bot inspects: what `response.json()` gives back (a Python
 * dict, list, str, int, bool or None), plus the parts of Python's `dict.get`,
 * `str()` and decimal formatting that homework.py relies on.
 */
module Values {
  import opened Wrappers

  /** A decoded JSON value. A Dict keeps its entries in insertion order, as a Python dict does. */
  datatype Value =
    | Null
    | Bool(b: bool)
    | Int(i: int)
    | Str(s: string)
    | List(items: seq<Value>)
    | Dict(entries: seq<(string, Value)>)

  /** The value stored under `key`, if any (a Python dict holds each key once; the first entry wins). */
  function Find(entries: seq<(string, Value)>, key: string): (r: Option<Value>)
    ensures r.None? <==> forall k :: 0 <= k < |entries| ==> entries[k].0 != key
    ensures r.Some? ==> exists k :: 0 <= k < |entries| && entries[k] == (key, r.value)
  {
    if entries == [] then None
    else if entries[0].0 == key then Some(entries[0].1)
    else
      var r := Find(entries[1..], key);
      assert forall k :: 0 <= k < |entries| - 1 ==> entries[1..][k] == entries[k + 1];
      r
  }

  /** `d.get(key)`: the stored value, or None when the key is absent. */
  function Get(entries: seq<(string, Value)>, key: string): (v: Value)
    ensures Find(entries, key).None? ==> v == Null
    ensures Find(entries, key).Some? ==> v == Find(entries, key).value
  {
    match Find(entries, key)
    case Some(v) => v
    case None => Null
  }

  /** `type(v).__name__` */
  function TypeName(v: Value): string
  {
    match v
    case Null => "NoneType"
    case Bool(_) => "bool"
    case Int(_) => "int"
    case Str(_) => "str"
    case List(_) => "list"
    case Dict(_) => "dict"
  }

  predicate IsDigits(s: string)
  {
    forall k :: 0 <= k < |s| ==> '0' <= s[k] <= '9'
  }

  function DigitChar(d: nat): (c: char)
    requires d < 10
    ensures '0' <= c <= '9' && c as int - '0' as int == d
  {
    (d + '0' as int) as char
  }

  /** Decimal digits of `n`, without leading zeros. */
  function NatToString(n: nat): (s: string)
    ensures |s| >= 1 && IsDigits(s)
    ensures |s| > 1 ==> s[0] != '0'
  {
    if n < 10 then [DigitChar(n)]
    else
      var prefix := NatToString(n / 10);
      assert n / 10 > 0;
      prefix + [DigitChar(n % 10)]
  }

  /** How an f-string renders an int: `f"{i}"`. */
  function IntToString(i: int): (s: string)
    ensures |s| >= 1
    ensures s[0] == '-' <==> i < 0
    ensures i >= 0 ==> IsDigits(s) && (|s| > 1 ==> s[0] != '0')
    ensures i < 0 ==> |s| >= 2 && IsDigits(s[1..]) && (|s| > 2 ==> s[1] != '0')
  {
    if i < 0 then "-" + NatToString(-i) else NatToString(i)
  }

  /** The number a string of decimal digits denotes. */
  function DigitsValue(s: string): nat
    requires IsDigits(s)
  {
    if s == [] then 0 else DigitsValue(s[..|s| - 1]) * 10 + (s[|s| - 1] as int - '0' as int)
  }

  /** Reading a decimal integer back, as `int(s)` does for plain decimal text. */
  function ParseInt(s: string): Option<int>
  {
    if |s| > 1 && s[0] == '-' && IsDigits(s[1..]) then Some(-(DigitsValue(s[1..]) as int))
    else if |s| > 0 && IsDigits(s) then Some(DigitsValue(s))
    else None
  }

  lemma {:induction false} DigitsValueOfNatToString(n: nat)
    ensures DigitsValue(NatToString(n)) == n
  {
    var s := NatToString(n);
    if n >= 10 {
      DigitsValueOfNatToString(n / 10);
      assert s[..|s| - 1] == NatToString(n / 10);
    }
  }

  lemma NatRoundTrip(n: nat)
    ensures ParseInt(NatToString(n)) == Some(n)
  {
    var d := NatToString(n);
    DigitsValueOfNatToString(n);
    assert d[0] != '-';
  }

  lemma NegativeRoundTrip(n: nat)
    requires n > 0
    ensures ParseInt("-" + NatToString(n)) == Some(-(n as int))
  {
    var d := NatToString(n);
    DigitsValueOfNatToString(n);
    var s := "-" + d;
    assert s[0] == '-' && s[1..] == d;
  }

  /** The decimal rendering of an int reads back as the same int, so it loses nothing. */
  lemma {:induction false} IntToStringRoundTrip(i: int)
    ensures ParseInt(IntToString(i)) == Some(i)
  {
    if i < 0 {
      NegativeRoundTrip(-i);
    } else {
      NatRoundTrip(i);
    }
  }

  function Join(parts: seq<string>, sep: string): string
  {
    if parts == [] then ""
    else if |parts| == 1 then parts[0]
    else parts[0] + sep + Join(parts[1..], sep)
  }

  /** `repr(v)`; strings are quoted with single quotes and no escaping. */
  function Repr(v: Value): string
    decreases v
  {
    match v
    case Null => "None"
    case Bool(b) => if b then "True" else "False"
    case Int(i) => IntToString(i)
    case Str(s) => "'" + s + "'"
    case List(items) =>
      "[" + Join(seq(|items|, k requires 0 <= k < |items| => Repr(items[k])), ", ") + "]"
    case Dict(entries) =>
      "{" + Join(seq(|entries|, k requires 0 <= k < |entries| =>
                       assert entries[k] in entries;
                       "'" + entries[k].0 + "': " + Repr(entries[k].1)), ", ") + "}"
  }

  /** `str(v)`, which is what an f-string inserts: a string as is, anything else as its repr. */
  function Render(v: Value): (r: string)
    ensures v.Str? ==> r == v.s
    ensures v.Int? ==> ParseInt(r) == Some(v.i)
  {
    if v.Str? then v.s
    else if v.Int? then
      IntToStringRoundTrip(v.i);
      Repr(v)
    else Repr(v)
  }

  /** `part` occurs in `s` as a contiguous substring. */
  predicate Contains(s: string, part: string)
  {
    exists k :: 0 <= k <= |s| && part <= s[k..]
  }
}
