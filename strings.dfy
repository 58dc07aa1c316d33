/**
 * The handful of Python `str` operations the pipeline relies on, written
 * over `seq<char>`: `split`, `join`, `strip`, `lower`, `in` (substring) and
 * `replace`, with `list.index` and `list.remove` over lists of strings.
 * Each is defined the way CPython scans (left to right, non-overlapping)
 * and comes with the facts the rest of the model needs.
 */
module Strings {

  /**
   * The characters CPython's `str.strip()` and `str.split()` treat as
   * whitespace: the ASCII controls 9-13 and 28-31, the space, NEL, the
   * no-break space, the Ogham space mark, the spaces U+2000-U+200A, the
   * line and paragraph separators, the narrow no-break space, the medium
   * mathematical space and the ideographic space.
   */
  predicate IsSpace(c: char) {
    var n := c as int;
    || n == 0x20 || 0x09 <= n <= 0x0D || 0x1C <= n <= 0x1F
    || n == 0x85 || n == 0xA0 || n == 0x1680 || 0x2000 <= n <= 0x200A
    || n == 0x2028 || n == 0x2029 || n == 0x202F || n == 0x205F || n == 0x3000
  }

  /** `t` occurs in `s` starting at index `i`. */
  predicate OccursAt(s: string, t: string, i: nat) {
    i + |t| <= |s| && s[i..i + |t|] == t
  }

  /** Python's `t in s` for strings. */
  predicate Contains(s: string, t: string) {
    exists i: nat :: i <= |s| && OccursAt(s, t, i)
  }

  // ---------------------------------------------------------------- join

  /** `sep.join(parts)`. */
  function Join(parts: seq<string>, sep: string): string {
    if |parts| == 0 then ""
    else if |parts| == 1 then parts[0]
    else parts[0] + sep + Join(parts[1..], sep)
  }

  // --------------------------------------------------------------- split

  /**
   * `s.split(sep)` for a non-empty separator: scans left to right and cuts
   * at every non-overlapping occurrence of `sep`.
   */
  function Split(s: string, sep: string): (r: seq<string>)
    requires |sep| > 0
    ensures |r| >= 1 && |r[0]| <= |s|
    decreases |s|
  {
    if OccursAt(s, sep, 0) then [""] + Split(s[|sep|..], sep)
    else if |s| == 0 then [""]
    else
      var rest := Split(s[1..], sep);
      [[s[0]] + rest[0]] + rest[1..]
  }

  /** Joining the pieces of a split with the same separator gives the string back. */
  lemma {:induction false} JoinSplit(s: string, sep: string)
    requires |sep| > 0
    ensures Join(Split(s, sep), sep) == s
    decreases |s|
  {
    if OccursAt(s, sep, 0) {
      var rest := Split(s[|sep|..], sep);
      JoinSplit(s[|sep|..], sep);
      assert Split(s, sep) == [""] + rest;
      assert s == sep + s[|sep|..];
    } else if |s| == 0 {
    } else {
      var rest := Split(s[1..], sep);
      JoinSplit(s[1..], sep);
      assert Split(s, sep) == [[s[0]] + rest[0]] + rest[1..];
      JoinFront(s[0], rest, sep);
      assert s == [s[0]] + s[1..];
    }
  }

  /** A character put in front of the first part comes out in front of the join. */
  lemma {:induction false} JoinFront(c: char, parts: seq<string>, sep: string)
    requires |parts| >= 1
    ensures Join([[c] + parts[0]] + parts[1..], sep) == [c] + Join(parts, sep)
  {
    var r := [[c] + parts[0]] + parts[1..];
    if |parts| > 1 {
      assert r[1..] == parts[1..];
    }
  }

  /** A string that never holds the separator's first character splits into itself alone. */
  lemma {:induction false} SplitNoSeparator(s: string, sep: string)
    requires |sep| > 0 && sep[0] !in s
    ensures Split(s, sep) == [s]
    decreases |s|
  {
    if |s| > 0 {
      assert !OccursAt(s, sep, 0) by { assert s[0] != sep[0]; }
      SplitNoSeparator(s[1..], sep);
      assert [s[0]] + s[1..] == s;
    } else {
      assert !OccursAt(s, sep, 0);
    }
  }

  /** A piece free of the separator's first character, followed by the separator, splits off as the first piece. */
  lemma {:induction false} SplitAfterPiece(p: string, sep: string, rest: string)
    requires |sep| > 0 && sep[0] !in p
    ensures Split(p + sep + rest, sep) == [p] + Split(rest, sep)
    decreases |p|
  {
    var s := p + sep + rest;
    if |p| == 0 {
      assert s == sep + rest;
      assert OccursAt(s, sep, 0) by { assert s[0..|sep|] == sep; }
      assert s[|sep|..] == rest;
    } else {
      assert !OccursAt(s, sep, 0) by { assert s[0] == p[0]; assert p[0] != sep[0]; }
      assert s[1..] == p[1..] + sep + rest;
      SplitAfterPiece(p[1..], sep, rest);
      assert [p[0]] + p[1..] == p;
    }
  }

  /**
   * Splitting a join gives back the parts when no part holds the
   * separator's first character.
   */
  lemma {:induction false} SplitJoin(parts: seq<string>, sep: string)
    requires |parts| >= 1 && |sep| > 0
    requires forall i :: 0 <= i < |parts| ==> sep[0] !in parts[i]
    ensures Split(Join(parts, sep), sep) == parts
    decreases |parts|
  {
    if |parts| == 1 {
      SplitNoSeparator(parts[0], sep);
    } else {
      SplitJoin(parts[1..], sep);
      SplitAfterPiece(parts[0], sep, Join(parts[1..], sep));
      assert [parts[0]] + parts[1..] == parts;
    }
  }

  // ---------------------------------------------------------- list.remove

  /** `list.index(x)`: the position of the first occurrence. */
  function IndexOf(xs: seq<string>, x: string): (i: nat)
    requires x in xs
    ensures i < |xs| && xs[i] == x && x !in xs[..i]
    decreases |xs|
  {
    if xs[0] == x then 0
    else
      var i := IndexOf(xs[1..], x);
      assert xs[..i + 1] == [xs[0]] + xs[1..][..i];
      i + 1
  }

  /** `list.remove(x)`: drops the first occurrence and keeps the order of the rest. */
  function RemoveFirst(xs: seq<string>, x: string): (r: seq<string>)
    requires x in xs
    ensures |r| == |xs| - 1
    ensures multiset(r) == multiset(xs) - multiset{x}
  {
    var i := IndexOf(xs, x);
    assert xs == xs[..i] + [xs[i]] + xs[i + 1..];
    xs[..i] + xs[i + 1..]
  }

  // --------------------------------------------------------------- strip

  function StripLeft(s: string): (r: string)
    ensures |r| <= |s| && r == s[|s| - |r|..]
    ensures |r| > 0 ==> !IsSpace(r[0])
    ensures forall i :: 0 <= i < |s| - |r| ==> IsSpace(s[i])
  {
    if |s| > 0 && IsSpace(s[0]) then StripLeft(s[1..]) else s
  }

  function StripRight(s: string): (r: string)
    ensures |r| <= |s| && r == s[..|r|]
    ensures |r| > 0 ==> !IsSpace(r[|r| - 1])
    ensures forall i :: |r| <= i < |s| ==> IsSpace(s[i])
  {
    if |s| > 0 && IsSpace(s[|s| - 1]) then StripRight(s[..|s| - 1]) else s
  }

  /** Every character of `s` is whitespace (true of the empty string). */
  predicate AllSpace(s: string) {
    forall i :: 0 <= i < |s| ==> IsSpace(s[i])
  }

  /** `s.strip()`: drops leading and trailing whitespace. */
  function Strip(s: string): (r: string)
    ensures |r| <= |s|
    ensures |r| > 0 ==> !IsSpace(r[0]) && !IsSpace(r[|r| - 1])
    ensures AllSpace(s) <==> r == ""
  {
    StripRight(StripLeft(s))
  }

  /** The stripped string is a contiguous slice of the input with no whitespace at either end. */
  lemma {:induction false} StripIsTrimmedSlice(s: string)
    ensures exists i, j :: 0 <= i <= j <= |s| && Strip(s) == s[i..j]
    ensures |Strip(s)| > 0 ==> !IsSpace(Strip(s)[0]) && !IsSpace(Strip(s)[|Strip(s)| - 1])
  {
    var l := StripLeft(s);
    var i := |s| - |l|;
    var r := StripRight(l);
    assert l == s[i..] && r == l[..|r|];
    assert l[..|r|] == s[i..i + |r|];
    assert Strip(s) == s[i..i + |r|];
  }

  /** A string with no whitespace at either end is left unchanged by `strip`. */
  lemma {:induction false} StripTrimmed(s: string)
    requires |s| > 0 ==> !IsSpace(s[0]) && !IsSpace(s[|s| - 1])
    ensures Strip(s) == s
  {
  }

  /** Stripping twice is stripping once. */
  lemma {:induction false} StripIdempotent(s: string)
    ensures Strip(Strip(s)) == Strip(s)
  {
    StripIsTrimmedSlice(s);
    StripTrimmed(Strip(s));
  }

  /** Leading spaces are removed by `strip`. */
  lemma {:induction false} StripLeadingSpace(s: string)
    requires |s| > 0 ==> !IsSpace(s[0]) && !IsSpace(s[|s| - 1])
    ensures Strip(" " + s) == s
  {
    assert (" " + s)[1..] == s;
  }

  // --------------------------------------------------------------- lower

  /** The lower-case form of the ASCII and Latin-1 capital letters (U+00C0-U+00DE but the multiplication sign). */
  function LowerChar(c: char): char {
    if 'A' <= c <= 'Z' then (c as int - 'A' as int + 'a' as int) as char
    else if 0xC0 <= c as int <= 0xDE && c as int != 0xD7 then (c as int + 0x20) as char
    else c
  }

  /** `s.lower()` for the ASCII and Latin-1 letters, character by character. */
  function Lower(s: string): (r: string)
    ensures |r| == |s|
    ensures forall i :: 0 <= i < |s| ==> r[i] == LowerChar(s[i])
  {
    if |s| == 0 then "" else [LowerChar(s[0])] + Lower(s[1..])
  }

  lemma {:induction false} LowerIdempotent(s: string)
    ensures Lower(Lower(s)) == Lower(s)
  {
    assert forall i :: 0 <= i < |s| ==> LowerChar(LowerChar(s[i])) == LowerChar(s[i]);
  }

  lemma {:induction false} LowerConcat(a: string, b: string)
    ensures Lower(a + b) == Lower(a) + Lower(b)
  {
    assert forall i :: 0 <= i < |a + b| ==> Lower(a + b)[i] == (Lower(a) + Lower(b))[i];
  }

  // ------------------------------------------------------------- replace

  /** `s.replace(pat, rep)`: every non-overlapping occurrence, scanning left to right. */
  function ReplaceAll(s: string, pat: string, rep: string): string
    requires |pat| > 0
    decreases |s|
  {
    if OccursAt(s, pat, 0) then rep + ReplaceAll(s[|pat|..], pat, rep)
    else if |s| == 0 then ""
    else [s[0]] + ReplaceAll(s[1..], pat, rep)
  }

  /** With a one-character pattern, replacement works character by character. */
  lemma {:induction false} ReplaceCharConcat(a: string, b: string, c: char, rep: string)
    ensures ReplaceAll(a + b, [c], rep) == ReplaceAll(a, [c], rep) + ReplaceAll(b, [c], rep)
    decreases |a|
  {
    if |a| > 0 {
      var s := a + b;
      assert s[1..] == a[1..] + b;
      assert s[0..1] == a[0..1];
      ReplaceCharConcat(a[1..], b, c, rep);
      if OccursAt(a, [c], 0) {
        assert OccursAt(s, [c], 0);
      } else {
        assert !OccursAt(s, [c], 0);
      }
    } else {
      assert a + b == b;
    }
  }

  /** A string free of the pattern's only character is left as it is. */
  lemma {:induction false} ReplaceCharAbsent(s: string, c: char, rep: string)
    requires c !in s
    ensures ReplaceAll(s, [c], rep) == s
    decreases |s|
  {
    if |s| > 0 {
      assert s[0..1] == [s[0]];
      ReplaceCharAbsent(s[1..], c, rep);
      assert [s[0]] + s[1..] == s;
    }
  }

  // -------------------------------------------------------- brace escape

  /** One character as it appears once braces are doubled. */
  function EscapedChar(c: char): string {
    if c == '{' then "{{" else if c == '}' then "}}" else [c]
  }

  /** Reference definition: every brace doubled, every other character kept. */
  function DoubledBraces(s: string): string {
    if |s| == 0 then "" else EscapedChar(s[0]) + DoubledBraces(s[1..])
  }

  lemma {:induction false} DoubledBracesConcat(a: string, b: string)
    ensures DoubledBraces(a + b) == DoubledBraces(a) + DoubledBraces(b)
    decreases |a|
  {
    if |a| > 0 {
      assert (a + b)[1..] == a[1..] + b;
      DoubledBracesConcat(a[1..], b);
    } else {
      assert a + b == b;
    }
  }

  /**
   * `.replace("{", "{{").replace("}", "}}")`, the escaping that keeps a
   * prompt template from reading the embedded text as placeholders.
   */
  function EscapeBraces(s: string): (r: string)
    ensures r == DoubledBraces(s)
  {
    EscapeBracesIsDoubling(s);
    ReplaceAll(ReplaceAll(s, "{", "{{"), "}", "}}")
  }

  lemma {:induction false} EscapeBracesIsDoubling(s: string)
    ensures ReplaceAll(ReplaceAll(s, "{", "{{"), "}", "}}") == DoubledBraces(s)
    decreases |s|
  {
    if |s| > 0 {
      var h, t := s[..1], s[1..];
      assert s == h + t;
      ReplaceCharConcat(h, t, '{', "{{");
      var h1 := ReplaceAll(h, "{", "{{");
      var t1 := ReplaceAll(t, "{", "{{");
      ReplaceCharConcat(h1, t1, '}', "}}");
      EscapeBracesIsDoubling(t);
      assert h == [s[0]];
      assert h[0..1] == h && h[1..] == "";
      if s[0] == '{' {
        assert OccursAt(h, "{", 0);
        assert h1 == "{{";
        assert ReplaceAll(h1, "}", "}}") == "{{" by { ReplaceCharAbsent(h1, '}', "}}"); }
      } else {
        assert h1 == h by { ReplaceCharAbsent(h, '{', "{{"); }
        if s[0] == '}' {
          assert OccursAt(h1, "}", 0);
          assert ReplaceAll(h1, "}", "}}") == "}}";
        } else {
          ReplaceCharAbsent(h1, '}', "}}");
        }
      }
      assert DoubledBraces(s) == EscapedChar(s[0]) + DoubledBraces(t);
    }
  }

  /**
   * What a prompt template renders for literal text: a doubled brace
   * stands for one brace.
   */
  function RenderLiteral(t: string): string
    decreases |t|
  {
    if |t| >= 2 && t[..2] in {"{{", "}}"} then [t[0]] + RenderLiteral(t[2..])
    else if |t| == 0 then ""
    else [t[0]] + RenderLiteral(t[1..])
  }

  /** Rendering escaped text gives back the text: escaping loses nothing. */
  lemma {:induction false} RenderEscaped(s: string)
    ensures RenderLiteral(EscapeBraces(s)) == s
    decreases |s|
  {
    if |s| > 0 {
      var t := DoubledBraces(s);
      assert t == EscapedChar(s[0]) + DoubledBraces(s[1..]);
      RenderEscaped(s[1..]);
      var e := EscapedChar(s[0]);
      assert t[|e|..] == DoubledBraces(s[1..]);
      if s[0] == '{' || s[0] == '}' {
        assert t[..2] == e;
      } else {
        assert t[0] == s[0];
      }
      assert [s[0]] + s[1..] == s;
    }
  }
}
