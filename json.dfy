/**
 * JSON values (RFC 8259, section 3: object, array, string, number, true,
 * false, null) as Python's `json.loads` hands them over, with Python's
 * truthiness and `repr`.
 */
module Json {
  import opened Wrappers

  /** An object keeps its members in insertion order, as a Python dict does. */
  datatype Json =
    | Null
    | Bool(b: bool)
    | Num(n: int)
    | Str(s: string)
    | Arr(items: seq<Json>)
    | Obj(members: seq<(string, Json)>)

  /** Python's `not value`: None, False, 0, "", [] and {} are falsy. */
  predicate IsFalsy(j: Json) {
    match j
    case Null => true
    case Bool(b) => !b
    case Num(n) => n == 0
    case Str(s) => s == ""
    case Arr(xs) => xs == []
    case Obj(ms) => ms == []
  }

  /** The value stored under `key` (the last duplicate wins, as in `json.loads`). */
  function Get(ms: seq<(string, Json)>, key: string): Json
  {
    if |ms| == 0 then Null
    else if ms[|ms| - 1].0 == key then ms[|ms| - 1].1
    else Get(ms[..|ms| - 1], key)
  }

  function Keys(ms: seq<(string, Json)>): (ks: seq<string>)
    ensures |ks| == |ms|
    ensures forall i :: 0 <= i < |ms| ==> ks[i] == ms[i].0
  {
    if |ms| == 0 then [] else [ms[0].0] + Keys(ms[1..])
  }

  /** Python's `value[key]` on a decoded value. */
  function Subscript(j: Json, key: string): (r: Result<Json>)
    ensures r.Ok? <==> j.Obj? && key in Keys(j.members)
    ensures r.Ok? ==> r.value == Get(j.members, key)
    ensures r.Err? && j.Obj? ==> r.error == KeyError(key)
    ensures r.Err? && !j.Obj? ==> r.error.TypeError?
  {
    match j
    case Obj(ms) => if key in Keys(ms) then Ok(Get(ms, key)) else Err(KeyError(key))
    case Null => Err(TypeError("'NoneType' object is not subscriptable"))
    case Arr(_) => Err(TypeError("list indices must be integers or slices, not str"))
    case Str(_) => Err(TypeError("string indices must be integers"))
    case Bool(_) => Err(TypeError("'bool' object is not subscriptable"))
    case Num(_) => Err(TypeError("'int' object is not subscriptable"))
  }

  /**
   * What `for x in value` visits: the elements of a list, the keys of a
   * dict, the one-character strings of a string; other values are not
   * iterable.
   */
  function Iterate(j: Json): (r: Result<seq<Json>>)
    ensures r.Err? <==> j.Null? || j.Bool? || j.Num?
    ensures j.Arr? ==> r == Ok(j.items)
    ensures j.Obj? ==> r.Ok? && |r.value| == |j.members| && forall i :: 0 <= i < |j.members| ==> r.value[i] == Str(j.members[i].0)
    ensures j.Str? ==> r.Ok? && |r.value| == |j.s| && forall i :: 0 <= i < |j.s| ==> r.value[i] == Str([j.s[i]])
  {
    match j
    case Arr(xs) => Ok(xs)
    case Obj(ms) => Ok(seq(|ms|, i requires 0 <= i < |ms| => Str(ms[i].0)))
    case Str(s) => Ok(seq(|s|, i requires 0 <= i < |s| => Str([s[i]])))
    case Null => Err(TypeError("'NoneType' object is not iterable"))
    case Bool(_) => Err(TypeError("'bool' object is not iterable"))
    case Num(_) => Err(TypeError("'int' object is not iterable"))
  }

  // ------------------------------------------------------- filter_none_values

  /** Drops every `None` value of a dict and every `None` element of a list, at every depth. */
  function FilterNone(j: Json): (r: Json)
    ensures r.Obj? <==> j.Obj?
    ensures r.Arr? <==> j.Arr?
    ensures j.Obj? ==> |r.members| <= |j.members|
    ensures j.Arr? ==> |r.items| <= |j.items|
    ensures !j.Obj? && !j.Arr? ==> r == j
    decreases j, 2
  {
    match j
    case Obj(ms) => Obj(FilterMembers(ms, j))
    case Arr(xs) => Arr(FilterItems(xs, j))
    case _ => j
  }

  function FilterMembers(ms: seq<(string, Json)>, ghost parent: Json): (r: seq<(string, Json)>)
    requires forall i :: 0 <= i < |ms| ==> ms[i].1 < parent
    ensures |r| <= |ms|
    decreases parent, 1, |ms|
  {
    if |ms| == 0 then []
    else
      var rest := FilterMembers(ms[1..], parent);
      if ms[0].1 == Null then rest else [(ms[0].0, FilterNone(ms[0].1))] + rest
  }

  function FilterItems(xs: seq<Json>, ghost parent: Json): (r: seq<Json>)
    requires forall i :: 0 <= i < |xs| ==> xs[i] < parent
    ensures |r| <= |xs|
    decreases parent, 1, |xs|
  {
    if |xs| == 0 then []
    else
      var rest := FilterItems(xs[1..], parent);
      if xs[0] == Null then rest else [FilterNone(xs[0])] + rest
  }

  /** No member value and no list element is `None`, at any depth below the root. */
  predicate NullFree(j: Json) {
    match j
    case Obj(ms) => forall i :: 0 <= i < |ms| ==> ms[i].1 != Null && NullFree(ms[i].1)
    case Arr(xs) => forall i :: 0 <= i < |xs| ==> xs[i] != Null && NullFree(xs[i])
    case _ => true
  }

  predicate MembersNullFree(ms: seq<(string, Json)>) {
    forall i :: 0 <= i < |ms| ==> ms[i].1 != Null && NullFree(ms[i].1)
  }

  predicate ItemsNullFree(xs: seq<Json>) {
    forall i :: 0 <= i < |xs| ==> xs[i] != Null && NullFree(xs[i])
  }

  /** The keys a dict keeps once its `None` members are gone, in their order. */
  function NonNullKeys(ms: seq<(string, Json)>): seq<string> {
    if |ms| == 0 then []
    else if ms[0].1 == Null then NonNullKeys(ms[1..])
    else [ms[0].0] + NonNullKeys(ms[1..])
  }

  /** The number of elements of a list that are not `None`. */
  function NonNullCount(xs: seq<Json>): nat {
    if |xs| == 0 then 0 else (if xs[0] == Null then 0 else 1) + NonNullCount(xs[1..])
  }

  /** After filtering nothing `None` is left below the root. */
  lemma {:induction false} FilterNoneIsNullFree(j: Json)
    ensures NullFree(FilterNone(j))
    decreases j, 2
  {
    match j
    case Obj(ms) => FilterMembersNullFree(ms, j);
    case Arr(xs) => FilterItemsNullFree(xs, j);
    case _ =>
  }

  lemma {:induction false} FilterMembersNullFree(ms: seq<(string, Json)>, parent: Json)
    requires forall i :: 0 <= i < |ms| ==> ms[i].1 < parent
    ensures MembersNullFree(FilterMembers(ms, parent))
    decreases parent, 1, |ms|
  {
    if |ms| > 0 {
      FilterMembersNullFree(ms[1..], parent);
      var rest := FilterMembers(ms[1..], parent);
      if ms[0].1 != Null {
        FilterNoneIsNullFree(ms[0].1);
        NotNullStaysNotNull(ms[0].1);
        var r := [(ms[0].0, FilterNone(ms[0].1))] + rest;
        assert FilterMembers(ms, parent) == r;
        forall i | 0 <= i < |r| ensures r[i].1 != Null && NullFree(r[i].1) {
          if i > 0 { assert r[i] == rest[i - 1]; }
        }
      }
    }
  }

  lemma {:induction false} FilterItemsNullFree(xs: seq<Json>, parent: Json)
    requires forall i :: 0 <= i < |xs| ==> xs[i] < parent
    ensures ItemsNullFree(FilterItems(xs, parent))
    decreases parent, 1, |xs|
  {
    if |xs| > 0 {
      FilterItemsNullFree(xs[1..], parent);
      var rest := FilterItems(xs[1..], parent);
      if xs[0] != Null {
        FilterNoneIsNullFree(xs[0]);
        NotNullStaysNotNull(xs[0]);
        var r := [FilterNone(xs[0])] + rest;
        assert FilterItems(xs, parent) == r;
        forall i | 0 <= i < |r| ensures r[i] != Null && NullFree(r[i]) {
          if i > 0 { assert r[i] == rest[i - 1]; }
        }
      }
    }
  }

  lemma {:induction false} NotNullStaysNotNull(j: Json)
    requires j != Null
    ensures FilterNone(j) != Null
  {
  }

  /** Filtering keeps the kind of every value, the keys that are not `None` in order, and the count of list elements. */
  lemma {:induction false} FilterNoneShape(j: Json)
    ensures j.Obj? <==> FilterNone(j).Obj?
    ensures j.Arr? <==> FilterNone(j).Arr?
    ensures !j.Obj? && !j.Arr? ==> FilterNone(j) == j
    ensures j.Obj? ==> Keys(FilterNone(j).members) == NonNullKeys(j.members)
    ensures j.Arr? ==> |FilterNone(j).items| == NonNullCount(j.items)
  {
    match j
    case Obj(ms) => FilterMembersKeys(ms, j);
    case Arr(xs) => FilterItemsCount(xs, j);
    case _ =>
  }

  lemma {:induction false} FilterMembersKeys(ms: seq<(string, Json)>, parent: Json)
    requires forall i :: 0 <= i < |ms| ==> ms[i].1 < parent
    ensures Keys(FilterMembers(ms, parent)) == NonNullKeys(ms)
    decreases |ms|
  {
    if |ms| > 0 {
      FilterMembersKeys(ms[1..], parent);
    }
  }

  lemma {:induction false} FilterItemsCount(xs: seq<Json>, parent: Json)
    requires forall i :: 0 <= i < |xs| ==> xs[i] < parent
    ensures |FilterItems(xs, parent)| == NonNullCount(xs)
    decreases |xs|
  {
    if |xs| > 0 {
      FilterItemsCount(xs[1..], parent);
    }
  }

  /** A value with nothing `None` below its root is left exactly as it is. */
  lemma {:induction false} FilterNoneFixes(j: Json)
    requires NullFree(j)
    ensures FilterNone(j) == j
    decreases j, 2
  {
    match j
    case Obj(ms) => FilterMembersFixes(ms, j);
    case Arr(xs) => FilterItemsFixes(xs, j);
    case _ =>
  }

  lemma {:induction false} FilterMembersFixes(ms: seq<(string, Json)>, parent: Json)
    requires forall i :: 0 <= i < |ms| ==> ms[i].1 < parent
    requires MembersNullFree(ms)
    ensures FilterMembers(ms, parent) == ms
    decreases parent, 1, |ms|
  {
    if |ms| > 0 {
      FilterMembersFixes(ms[1..], parent);
      FilterNoneFixes(ms[0].1);
      assert [(ms[0].0, ms[0].1)] + ms[1..] == ms;
    }
  }

  lemma {:induction false} FilterItemsFixes(xs: seq<Json>, parent: Json)
    requires forall i :: 0 <= i < |xs| ==> xs[i] < parent
    requires ItemsNullFree(xs)
    ensures FilterItems(xs, parent) == xs
    decreases parent, 1, |xs|
  {
    if |xs| > 0 {
      FilterItemsFixes(xs[1..], parent);
      FilterNoneFixes(xs[0]);
      assert [xs[0]] + xs[1..] == xs;
    }
  }

  /** Filtering twice is filtering once. */
  lemma {:induction false} FilterNoneIdempotent(j: Json)
    ensures FilterNone(FilterNone(j)) == FilterNone(j)
  {
    FilterNoneIsNullFree(j);
    FilterNoneFixes(FilterNone(j));
  }

  // ------------------------------------------------------------------ repr

  /** Python's `str` of a decoded value: a string is itself, anything else its repr. */
  function Text(j: Json): string {
    if j.Str? then j.s else Repr(j)
  }

  /**
   * `str(value)` of the parsed value: Python's `repr` of dicts, lists and
   * scalars. The first character tells the kind of value.
   */
  function Repr(j: Json): (r: string)
    ensures |r| > 0
    ensures r[0] == '[' <==> j.Arr?
    ensures r[0] == '{' <==> j.Obj?
    ensures r[0] == '\'' || r[0] == '"' <==> j.Str?
    ensures r[0] == '-' || '0' <= r[0] <= '9' <==> j.Num?
    decreases j, 2
  {
    match j
    case Null => "None"
    case Bool(b) => if b then "True" else "False"
    case Num(n) => IntRepr(n)
    case Str(s) => StrRepr(s)
    case Arr(xs) => "[" + ItemsRepr(xs, j) + "]"
    case Obj(ms) => "{" + MembersRepr(ms, j) + "}"
  }

  function ItemsRepr(xs: seq<Json>, ghost parent: Json): string
    requires forall i :: 0 <= i < |xs| ==> xs[i] < parent
    decreases parent, 1, |xs|
  {
    if |xs| == 0 then ""
    else if |xs| == 1 then Repr(xs[0])
    else Repr(xs[0]) + ", " + ItemsRepr(xs[1..], parent)
  }

  function MembersRepr(ms: seq<(string, Json)>, ghost parent: Json): string
    requires forall i :: 0 <= i < |ms| ==> ms[i].1 < parent
    decreases parent, 1, |ms|
  {
    if |ms| == 0 then ""
    else
      var m := StrRepr(ms[0].0) + ": " + Repr(ms[0].1);
      if |ms| == 1 then m else m + ", " + MembersRepr(ms[1..], parent)
  }

  /** The quote `repr` puts around a string: double quotes only when it holds a single quote and no double quote. */
  function QuoteOf(s: string): char {
    if '\'' in s && '"' !in s then '"' else '\''
  }

  /**
   * Python's `repr` of a string: the chosen quote around the characters,
   * with the backslash, the quote, newline, carriage return and tab
   * escaped, and the other control characters of Latin-1 (and the soft
   * hyphen and no-break space) written as `\xNN`.
   */
  function StrRepr(s: string): (r: string)
    ensures |r| >= 2 && r[0] == r[|r| - 1] == QuoteOf(s)
  {
    [QuoteOf(s)] + ReprBody(s, QuoteOf(s)) + [QuoteOf(s)]
  }

  function ReprBody(s: string, quote: char): string {
    if |s| == 0 then "" else ReprChar(s[0], quote) + ReprBody(s[1..], quote)
  }

  /** A character `repr` writes as itself. */
  predicate Plain(c: char) {
    var n := c as int;
    c != '\\' && c != '\'' && c != '"' && 0x20 <= n && !(0x7F <= n <= 0xA0) && n != 0xAD
  }

  function ReprChar(c: char, quote: char): string {
    if c == '\\' then "\\\\"
    else if c == quote then ['\\', quote]
    else if c == '\n' then "\\n"
    else if c == '\r' then "\\r"
    else if c == '\t' then "\\t"
    else if c as int < 0x20 || 0x7F <= c as int <= 0xA0 || c as int == 0xAD then
      "\\x" + [HexDigit(c as int / 16), HexDigit(c as int % 16)]
    else [c]
  }

  function HexDigit(d: nat): char
    requires d < 16
  {
    "0123456789abcdef"[d]
  }

  /** A string of plain characters is written as itself between single quotes. */
  lemma {:induction false} StrReprPlain(s: string)
    requires forall i :: 0 <= i < |s| ==> Plain(s[i])
    ensures StrRepr(s) == "'" + s + "'"
  {
    ReprBodyPlain(s, '\'');
  }

  lemma {:induction false} ReprBodyPlain(s: string, quote: char)
    requires quote == '\'' || quote == '"'
    requires forall i :: 0 <= i < |s| ==> Plain(s[i])
    ensures ReprBody(s, quote) == s
  {
    if |s| > 0 {
      ReprBodyPlain(s[1..], quote);
    }
  }

  /** Escaping never lets the chosen quote through bare: every character of the body is escaped or differs from it. */
  lemma {:induction false} ReprBodyNoBareQuote(s: string, quote: char)
    requires quote == '\'' || quote == '"'
    ensures forall i :: 0 <= i < |ReprBody(s, quote)| && ReprBody(s, quote)[i] == quote ==> i > 0 && ReprBody(s, quote)[i - 1] == '\\'
  {
    if |s| > 0 {
      var head, tail := ReprChar(s[0], quote), ReprBody(s[1..], quote);
      ReprBodyNoBareQuote(s[1..], quote);
      assert ReprBody(s, quote) == head + tail;
      forall i | 0 <= i < |head + tail| && (head + tail)[i] == quote
        ensures i > 0 && (head + tail)[i - 1] == '\\'
      {
        if i >= |head| {
          assert (head + tail)[i] == tail[i - |head|];
          if i - |head| > 0 {
            assert (head + tail)[i - 1] == tail[i - |head| - 1];
          } else {
            assert false;
          }
        }
      }
    }
  }

  function DigitsRepr(n: nat): (r: string)
    ensures |r| > 0 && '0' <= r[0] <= '9'
    decreases n
  {
    var d := [(n % 10 + '0' as int) as char];
    if n < 10 then d else DigitsRepr(n / 10) + d
  }

  /** A single digit is written as itself. */
  lemma {:induction false} DigitReprSingle(n: nat)
    requires n < 10
    ensures DigitsRepr(n) == [(n + '0' as int) as char]
  {
  }

  function IntRepr(n: int): string {
    if n < 0 then "-" + DigitsRepr(-n) else DigitsRepr(n)
  }
}
