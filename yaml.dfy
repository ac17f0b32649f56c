/**
 * The YAML tree that the test-specification loader hands to the parsers,
 * with the few pieces of Python value semantics the parsers depend on:
 * `type(x) is ...` tests, `str(x)`, iterating a value with `for`, and
 * the identity of a value used as a dictionary key.
 */
module Yaml {

  import opened Wrappers

  /** A loaded YAML value. A mapping keeps its entries in the order that
      `dict.items()` yields them; `YOther` stands for any other scalar
      (floats, dates), carried with its `str()` text. */
  datatype Yaml =
    | YNull
    | YBool(b: bool)
    | YInt(i: int)
    | YStr(s: string)
    | YList(items: seq<Yaml>)
    | YDict(entries: seq<(Yaml, Yaml)>)
    | YOther(text: string)

  /** The decimal text of a digit. */
  function DigitChar(d: nat): (c: char)
    requires d < 10
    ensures '0' <= c <= '9'
  {
    "0123456789"[d]
  }

  /** Decimal text of a natural number, as Python's `str` writes it. */
  function NatToString(n: nat): (s: string)
    ensures |s| > 0
    ensures forall k :: 0 <= k < |s| ==> '0' <= s[k] <= '9'
    decreases n
  {
    if n < 10 then [DigitChar(n)] else NatToString(n / 10) + [DigitChar(n % 10)]
  }

  /** Decimal text of an integer, with a leading minus sign when negative. */
  function IntToString(i: int): (s: string)
    ensures |s| > 0
    ensures (s[0] == '-') == (i < 0)
  {
    if i < 0 then "-" + NatToString(-i) else NatToString(i)
  }

  /** Python's `str(x)` of a loaded value. */
  function Str(y: Yaml): string
  {
    match y
    case YStr(s) => s
    case _ => Repr(y)
  }

  /** Python's `repr(x)`: strings quoted, containers written out. Quote
      escaping inside strings is not modelled. */
  function Repr(y: Yaml): string
  {
    match y
    case YNull => "None"
    case YBool(b) => if b then "True" else "False"
    case YInt(i) => IntToString(i)
    case YStr(s) => "'" + s + "'"
    case YOther(t) => t
    case YList(items) => "[" + ReprItems(items) + "]"
    case YDict(entries) => "{" + ReprEntries(entries) + "}"
  }

  function ReprItems(items: seq<Yaml>): string
    decreases items
  {
    if items == [] then ""
    else if |items| == 1 then Repr(items[0])
    else Repr(items[0]) + ", " + ReprItems(items[1..])
  }

  function ReprEntries(entries: seq<(Yaml, Yaml)>): string
    decreases entries
  {
    if entries == [] then ""
    else
      var e := entries[0];
      assert e.0 < e && e.1 < e;
      var head := Repr(e.0) + ": " + Repr(e.1);
      if |entries| == 1 then head else head + ", " + ReprEntries(entries[1..])
  }

  /** Whether a value may be a Python dictionary key (lists and dicts
      are unhashable). */
  predicate Hashable(y: Yaml)
  {
    !y.YList? && !y.YDict?
  }

  /** The identity a value has as a dictionary key: Python's `True == 1`
      and `False == 0` hash alike, so they name the same entry. */
  function KeyOf(y: Yaml): (k: Yaml)
    ensures !k.YBool?
    ensures y.YStr? ==> k == y
  {
    match y
    case YBool(b) => YInt(if b then 1 else 0)
    case _ => y
  }

  /** What `for x in value` walks over: a list's items, a string's
      characters (each a one-character string), a dict's keys; any other
      value is not iterable. */
  function Iterate(y: Yaml): (r: Result<seq<Yaml>>)
    ensures y.YList? ==> r == Ok(y.items)
    ensures y.YStr? ==> r.Ok? && |r.value| == |y.s|
    ensures y.YDict? ==> r.Ok? && |r.value| == |y.entries|
    ensures (y.YNull? || y.YBool? || y.YInt? || y.YOther?) ==> r.Err? && r.error.Fault?
  {
    match y
    case YList(items) => Ok(items)
    case YStr(s) => Ok(seq(|s|, k requires 0 <= k < |s| => YStr([s[k]])))
    case YDict(entries) => Ok(seq(|entries|, k requires 0 <= k < |entries| => entries[k].0))
    case _ => Err(Fault("object is not iterable"))
  }

  /** A `dict` key compared with `==` to one of the parser's string keywords. */
  predicate IsKey(key: Yaml, word: string)
  {
    key == YStr(word)
  }
}
