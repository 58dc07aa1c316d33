/**
 * Deleting a quoted word from a text whose quotes separate pieces: the
 * schema narrowing rewrites a description with
 * `description.replace("'" + word + "'", "")`. A text is read as the
 * quote-free pieces between its quotes; `Scrub` says, piece by piece, what
 * `replace` leaves of it, and `ScrubbedHasNoOccurrence` that nothing of the
 * quoted word is left when the pieces are shaped like the descriptions.
 */
module QuotedText {
  import opened Strings

  const Quote: char := '\''

  predicate QuoteFree(s: string) {
    Quote !in s
  }

  predicate AllQuoteFree(pieces: seq<string>) {
    forall i :: 0 <= i < |pieces| ==> QuoteFree(pieces[i])
  }

  /** `"'" + word + "'"`. */
  function Quoted(word: string): string {
    [Quote] + word + [Quote]
  }

  /**
   * The pieces of the text once every non-overlapping `'word'` is deleted
   * scanning left to right: a match at piece 1 joins piece 0 to piece 2,
   * and scanning resumes at the quote after piece 2.
   */
  function Scrub(pieces: seq<string>, word: string): (r: seq<string>)
    ensures |pieces| >= 1 ==> |r| >= 1
    ensures AllQuoteFree(pieces) ==> AllQuoteFree(r)
    decreases |pieces|
  {
    if |pieces| <= 2 then pieces
    else if pieces[1] == word then Scrub([pieces[0] + pieces[2]] + pieces[3..], word)
    else [pieces[0]] + Scrub(pieces[1..], word)
  }

  // ------------------------------------------------------- replace steps

  /** A quote-free prefix cannot hold the start of a match and passes through unchanged. */
  lemma {:induction false} ReplaceSkipsQuoteFree(a: string, t: string, word: string)
    requires QuoteFree(a)
    ensures ReplaceAll(a + t, Quoted(word), "") == a + ReplaceAll(t, Quoted(word), "")
    decreases |a|
  {
    var pat := Quoted(word);
    if |a| == 0 {
      assert a + t == t;
    } else {
      var s := a + t;
      assert s[0] == a[0] && a[0] in a;
      assert pat[0] == Quote;
      if |pat| <= |s| {
        assert s[..|pat|][0] == s[0];
      }
      assert s[1..] == a[1..] + t;
      assert forall c :: c in a[1..] ==> c in a;
      ReplaceSkipsQuoteFree(a[1..], t, word);
      assert [a[0]] + a[1..] == a;
    }
  }

  /** A quote, a piece that is not the word, and another quote: no match starts at the first quote. */
  lemma {:induction false} QuotedPieceNoMatch(piece: string, rest: string, word: string)
    requires QuoteFree(piece) && QuoteFree(word) && piece != word
    ensures !OccursAt([Quote] + (piece + ([Quote] + rest)), Quoted(word), 0)
  {
    var s := [Quote] + (piece + ([Quote] + rest));
    var pat := Quoted(word);
    if |word| < |piece| {
      assert s[|word| + 1] == piece[|word|] && piece[|word|] in piece;
      assert pat[|word| + 1] == Quote;
    } else if |word| > |piece| {
      assert pat[|piece| + 1] == word[|piece|] && word[|piece|] in word;
      assert s[|piece| + 1] == Quote;
    } else {
      assert s[1..|piece| + 1] == piece;
      assert pat[1..|word| + 1] == word;
    }
  }

  /** A quote followed by one quote-free piece and nothing else: no match starts at the quote. */
  lemma {:induction false} LastPieceNoMatch(piece: string, word: string)
    requires QuoteFree(piece)
    ensures !OccursAt([Quote] + piece, Quoted(word), 0)
  {
    var s := [Quote] + piece;
    var pat := Quoted(word);
    if |word| < |piece| {
      assert s[|word| + 1] == piece[|word|] && piece[|word|] in piece;
      assert pat[|word| + 1] == Quote;
    }
  }

  /** A text that opens with the quoted word: the match and what follows it. */
  lemma {:induction false} QuotedPrefix(word: string, rest: string)
    ensures OccursAt([Quote] + (word + ([Quote] + rest)), Quoted(word), 0)
    ensures ([Quote] + (word + ([Quote] + rest)))[|Quoted(word)|..] == rest
  {
    var s := [Quote] + (word + ([Quote] + rest));
    assert s == Quoted(word) + rest;
  }

  /** Concatenation regrouped to the right. */
  lemma {:induction false} Assoc(a: string, b: string, c: string)
    ensures a + b + c == a + (b + c)
  {
  }

  /** One unfolding of `Join` over quotes. */
  lemma {:induction false} JoinStep(pieces: seq<string>)
    requires |pieces| >= 2
    ensures Join(pieces, [Quote]) == pieces[0] + ([Quote] + Join(pieces[1..], [Quote]))
  {
    Assoc(pieces[0], [Quote], Join(pieces[1..], [Quote]));
  }

  /** Joining a first piece to the join of the rest. */
  lemma {:induction false} JoinFront(first: string, rest: seq<string>)
    requires |rest| >= 1
    ensures Join([first] + rest, [Quote]) == first + ([Quote] + Join(rest, [Quote]))
  {
    JoinStep([first] + rest);
    assert ([first] + rest)[1..] == rest;
  }

  // ------------------------------------------------------------ the theorem

  /** The first two pieces of a text of at least three, with the rest after the second quote. */
  lemma {:induction false} JoinFirstTwo(pieces: seq<string>)
    requires |pieces| >= 3
    ensures Join(pieces[1..], [Quote]) == pieces[1] + ([Quote] + Join(pieces[2..], [Quote]))
    ensures Join(pieces, [Quote]) == pieces[0] + ([Quote] + Join(pieces[1..], [Quote]))
  {
    JoinStep(pieces);
    JoinStep(pieces[1..]);
    assert pieces[1..][1..] == pieces[2..];
  }

  /** Merging the first and third pieces joins their texts without the quotes between. */
  lemma {:induction false} JoinMerged(pieces: seq<string>)
    requires |pieces| >= 3
    ensures Join([pieces[0] + pieces[2]] + pieces[3..], [Quote]) == pieces[0] + Join(pieces[2..], [Quote])
  {
    var merged := [pieces[0] + pieces[2]] + pieces[3..];
    if |pieces| > 3 {
      JoinFront(pieces[0] + pieces[2], pieces[3..]);
      JoinStep(pieces[2..]);
      assert pieces[2..][1..] == pieces[3..];
      Assoc(pieces[0], pieces[2], [Quote] + Join(pieces[3..], [Quote]));
    } else {
      assert merged == [pieces[0] + pieces[2]];
      assert pieces[2..] == [pieces[2]];
    }
  }

  /** The step of `ReplaceQuotedInJoin` where piece 1 is the word. */
  lemma {:induction false} ReplaceAtMatch(pieces: seq<string>, word: string)
    requires |pieces| >= 3 && AllQuoteFree(pieces) && QuoteFree(word) && pieces[1] == word
    ensures ReplaceAll(Join(pieces, [Quote]), Quoted(word), "")
         == ReplaceAll(Join([pieces[0] + pieces[2]] + pieces[3..], [Quote]), Quoted(word), "")
  {
    var pat := Quoted(word);
    var j2 := Join(pieces[2..], [Quote]);
    JoinFirstTwo(pieces);
    assert QuoteFree(pieces[0]);
    ReplaceSkipsQuoteFree(pieces[0], [Quote] + Join(pieces[1..], [Quote]), word);
    QuotedPrefix(word, j2);
    assert "" + ReplaceAll(j2, pat, "") == ReplaceAll(j2, pat, "");
    JoinMerged(pieces);
    ReplaceSkipsQuoteFree(pieces[0], j2, word);
  }

  /** `replace` past one character that starts no match. */
  lemma {:induction false} ReplaceStepNoMatch(s: string, pat: string)
    requires |pat| > 0 && |s| > 0 && !OccursAt(s, pat, 0)
    ensures ReplaceAll(s, pat, "") == [s[0]] + ReplaceAll(s[1..], pat, "")
  {
  }

  /** The step of `ReplaceQuotedInJoin` where piece 1 is not the word. */
  lemma {:induction false} ReplaceAtNoMatch(pieces: seq<string>, word: string)
    requires |pieces| >= 3 && AllQuoteFree(pieces) && QuoteFree(word) && pieces[1] != word
    ensures ReplaceAll(Join(pieces, [Quote]), Quoted(word), "")
         == pieces[0] + ([Quote] + ReplaceAll(Join(pieces[1..], [Quote]), Quoted(word), ""))
  {
    var pat := Quoted(word);
    var j1 := Join(pieces[1..], [Quote]);
    var tail := [Quote] + j1;
    JoinFirstTwo(pieces);
    assert QuoteFree(pieces[0]) && QuoteFree(pieces[1]);
    ReplaceSkipsQuoteFree(pieces[0], tail, word);
    QuotedPieceNoMatch(pieces[1], Join(pieces[2..], [Quote]), word);
    ReplaceStepNoMatch(tail, pat);
    assert tail[1..] == j1;
  }

  /** `replace("'word'", "")` on a text of quote-separated pieces deletes exactly what `Scrub` deletes. */
  lemma {:induction false} ReplaceQuotedInJoin(pieces: seq<string>, word: string)
    requires AllQuoteFree(pieces) && QuoteFree(word)
    ensures ReplaceAll(Join(pieces, [Quote]), Quoted(word), "") == Join(Scrub(pieces, word), [Quote])
    decreases |pieces|
  {
    if |pieces| == 0 {
    } else if |pieces| == 1 {
      ReplaceSkipsQuoteFree(pieces[0], "", word);
      assert pieces[0] + "" == pieces[0];
    } else if |pieces| == 2 {
      var s0, s1 := pieces[0], pieces[1];
      JoinStep(pieces);
      assert pieces[1..] == [s1];
      assert QuoteFree(s0) && QuoteFree(s1);
      ReplaceSkipsQuoteFree(s0, [Quote] + s1, word);
      LastPieceNoMatch(s1, word);
      ReplaceStepNoMatch([Quote] + s1, Quoted(word));
      assert ([Quote] + s1)[1..] == s1 + "";
      ReplaceSkipsQuoteFree(s1, "", word);
      assert s1 + "" == s1;
    } else if pieces[1] == word {
      ReplaceAtMatch(pieces, word);
      ReplaceQuotedInJoin([pieces[0] + pieces[2]] + pieces[3..], word);
    } else {
      ReplaceAtNoMatch(pieces, word);
      ReplaceQuotedInJoin(pieces[1..], word);
      JoinFront(pieces[0], Scrub(pieces[1..], word));
    }
  }

  // ---------------------------------------------------- nothing is left

  /** No piece strictly between the first and the last is the word. */
  predicate NoInner(pieces: seq<string>, word: string) {
    forall i :: 0 < i < |pieces| - 1 ==> pieces[i] != word
  }

  /** Of two neighbouring pieces (the last piece aside) at least one contains a space. */
  predicate NoAdjacentBare(pieces: seq<string>) {
    forall i :: 0 <= i < |pieces| - 2 ==> ' ' in pieces[i] || ' ' in pieces[i + 1]
  }

  /** Scrubbing a space-free word leaves no inner piece equal to it. */
  lemma {:induction false} ScrubLeavesNoInner(pieces: seq<string>, word: string)
    requires ' ' !in word && NoAdjacentBare(pieces)
    ensures NoInner(Scrub(pieces, word), word)
    ensures |pieces| >= 1 ==> Scrub(pieces, word)[0] == pieces[0] || ' ' in Scrub(pieces, word)[0]
    decreases |pieces|
  {
    if |pieces| <= 2 {
    } else if pieces[1] == word {
      assert ' ' in pieces[0];
      var merged := [pieces[0] + pieces[2]] + pieces[3..];
      assert forall i :: 1 <= i < |merged| ==> merged[i] == pieces[i + 2];
      assert ' ' in merged[0];
      ScrubLeavesNoInner(merged, word);
    } else {
      var rest := pieces[1..];
      assert forall i :: 0 <= i < |rest| ==> rest[i] == pieces[i + 1];
      ScrubLeavesNoInner(rest, word);
      var r := Scrub(rest, word);
      assert r[0] != word;
      assert forall i :: 0 < i < |r| + 1 ==> ([pieces[0]] + r)[i] == r[i - 1];
    }
  }

  /** With no inner piece equal to the word, scrubbing changes nothing. */
  lemma {:induction false} ScrubNoInnerFixed(pieces: seq<string>, word: string)
    requires NoInner(pieces, word)
    ensures Scrub(pieces, word) == pieces
    decreases |pieces|
  {
    if |pieces| > 2 {
      var rest := pieces[1..];
      assert forall i :: 0 < i < |rest| - 1 ==> rest[i] == pieces[i + 1];
      ScrubNoInnerFixed(rest, word);
      assert [pieces[0]] + rest == pieces;
    }
  }

  /** Deleting a pattern never lengthens a text, and shortens it whenever the pattern occurs. */
  lemma {:induction false} ReplaceShrinks(s: string, pat: string)
    requires |pat| > 0
    ensures |ReplaceAll(s, pat, "")| <= |s|
    ensures Contains(s, pat) ==> |ReplaceAll(s, pat, "")| < |s|
    decreases |s|
  {
    if OccursAt(s, pat, 0) {
      ReplaceShrinks(s[|pat|..], pat);
    } else if |s| > 0 {
      ReplaceShrinks(s[1..], pat);
      if Contains(s, pat) {
        var i: nat :| i <= |s| && OccursAt(s, pat, i);
        ShiftOccurrence(s, pat, i);
      }
    }
  }

  /** An occurrence past the first character is an occurrence in the tail. */
  lemma {:induction false} ShiftOccurrence(s: string, pat: string, i: nat)
    requires 0 < i && OccursAt(s, pat, i)
    ensures Contains(s[1..], pat)
  {
    assert s[1..][i - 1..i - 1 + |pat|] == s[i..i + |pat|];
    assert OccursAt(s[1..], pat, i - 1);
  }

  /**
   * Once a space- and quote-free word is deleted from a text of quote-free
   * pieces in which no two neighbours lack a space, the quoted word no
   * longer occurs in the text.
   */
  lemma {:induction false} ScrubbedHasNoOccurrence(pieces: seq<string>, word: string)
    requires AllQuoteFree(pieces) && QuoteFree(word) && ' ' !in word && NoAdjacentBare(pieces)
    ensures !Contains(Join(Scrub(pieces, word), [Quote]), Quoted(word))
  {
    var r := Scrub(pieces, word);
    ScrubLeavesNoInner(pieces, word);
    ScrubNoInnerFixed(r, word);
    ReplaceQuotedInJoin(r, word);
    ReplaceShrinks(Join(r, [Quote]), Quoted(word));
  }
}
