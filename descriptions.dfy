/**
 * The description of a top-level field of the extractor's schema, built
 * as the pieces that lie between its single quotes, and the shape facts
 * the quoted-name scrub relies on: every piece is quote-free, and no two
 * neighbouring pieces are both free of spaces.
 */
module Descriptions {
  import opened Strings
  import opened Taxonomy
  import opened QuotedText

  /** Field keys of the subcategories of a main category, in schema order. */
  function SubKeys(m: Main): (r: seq<string>)
    ensures |r| == |SubsOf(m)| >= 2
    ensures forall i :: 0 <= i < |r| ==> r[i] == SubKey(SubsOf(m)[i])
  {
    var ss := SubsOf(m);
    seq(|ss|, i requires 0 <= i < |ss| => SubKey(ss[i]))
  }

  const UserLead: string := "The user"
  const CategoryLead: string := "s preferences in the category "
  const TopicsIntro: string := ". This includes " + "preferences in the topics "

  /** The quote-separated tail of a description: the keys, separated by `, ` and closed by a full stop. */
  function Topics(keys: seq<string>): (r: seq<string>)
    requires |keys| >= 1
    decreases |keys|
  {
    if |keys| == 1 then [keys[0], "."]
    else [keys[0], ", "] + Topics(keys[1..])
  }

  /** The text between the quotes of a main category's description. */
  function DescriptionPieces(m: Main): seq<string> {
    [UserLead, CategoryLead, MainDisplay(m), TopicsIntro] + Topics(SubKeys(m))
  }

  /**
   * The description of a top-level field: "The user's preferences in the
   * category '<main display>'. This includes preferences in the topics
   * '<sub key>', ..., '<sub key>'.", written as its quote-separated pieces.
   */
  function Description(m: Main): string {
    Join(DescriptionPieces(m), [Quote])
  }

  // ------------------------------------------------------ shape facts

  /** The topic pieces alternate key and ", ", and end with the last key and ".". */
  lemma {:induction false} TopicsShape(keys: seq<string>)
    requires |keys| >= 1
    ensures |Topics(keys)| == 2 * |keys|
    ensures forall j :: 0 <= j < |keys| ==> Topics(keys)[2 * j] == keys[j]
    ensures forall j :: 0 <= j < |keys| - 1 ==> Topics(keys)[2 * j + 1] == ", "
    ensures Topics(keys)[2 * |keys| - 1] == "."
    decreases |keys|
  {
    if |keys| > 1 {
      TopicsShape(keys[1..]);
      var t := Topics(keys[1..]);
      assert Topics(keys) == [keys[0], ", "] + t;
      forall j | 1 <= j < |keys| ensures Topics(keys)[2 * j] == keys[j] {
        assert Topics(keys)[2 * j] == t[2 * (j - 1)];
      }
      forall j | 1 <= j < |keys| - 1 ensures Topics(keys)[2 * j + 1] == ", " {
        assert Topics(keys)[2 * j + 1] == t[2 * (j - 1) + 1];
      }
    }
  }

  /** Subcategory keys hold no quote. */
  lemma {:induction false} SubKeyQuoteFree(s: Sub)
    ensures QuoteFree(SubKey(s))
  {
  }

  /** Subcategory keys hold no space. */
  lemma {:induction false} SubKeySpaceFree(s: Sub)
    ensures ' ' !in SubKey(s)
  {
  }

  /** Main display names hold a space and no quote. */
  lemma {:induction false} MainDisplayShape(m: Main)
    ensures QuoteFree(MainDisplay(m)) && ' ' in MainDisplay(m)
  {
    match m
    case PointsOfInterest => assert MainDisplay(m)[6] == ' ';
    case NavigationAndRouting => assert MainDisplay(m)[10] == ' ';
    case VehicleSettingsAndComfort => assert MainDisplay(m)[7] == ' ';
    case EntertainmentAndMedia => assert MainDisplay(m)[13] == ' ';
  }

  /** The fixed pieces of a description hold a space and no quote. */
  lemma {:induction false} FixedPiecesShape()
    ensures QuoteFree(UserLead) && ' ' in UserLead
    ensures QuoteFree(CategoryLead) && ' ' in CategoryLead
    ensures QuoteFree(TopicsIntro) && ' ' in TopicsIntro
  {
    assert UserLead[3] == ' ' && CategoryLead[1] == ' ' && TopicsIntro[1] == ' ';
  }

  /** Putting a quote-free piece in front keeps a list of pieces quote-free. */
  lemma {:induction false} PrependQuoteFree(p: string, rest: seq<string>)
    requires QuoteFree(p) && AllQuoteFree(rest)
    ensures AllQuoteFree([p] + rest)
  {
    forall i | 1 <= i < |rest| + 1 ensures QuoteFree(([p] + rest)[i]) {
      assert ([p] + rest)[i] == rest[i - 1];
    }
  }

  /** Putting a piece in front keeps "no two bare neighbours" when it or its neighbour holds a space. */
  lemma {:induction false} PrependNoAdjacentBare(p: string, rest: seq<string>)
    requires NoAdjacentBare(rest)
    requires |rest| < 2 || ' ' in p || ' ' in rest[0]
    ensures NoAdjacentBare([p] + rest)
  {
    forall i | 1 <= i < |rest| - 1 ensures ' ' in ([p] + rest)[i] || ' ' in ([p] + rest)[i + 1] {
      assert ([p] + rest)[i] == rest[i - 1] && ([p] + rest)[i + 1] == rest[i];
    }
  }

  /** Four pieces in front of a list, one at a time. */
  lemma {:induction false} FourFront(a: string, b: string, c: string, d: string, t: seq<string>)
    ensures [a, b, c, d] + t == [a] + ([b] + ([c] + ([d] + t)))
  {
  }

  /** The topic list of quote-free keys is quote-free and has no two bare neighbours. */
  lemma {:induction false} TopicsPlain(keys: seq<string>)
    requires |keys| >= 1 && forall j :: 0 <= j < |keys| ==> QuoteFree(keys[j])
    ensures AllQuoteFree(Topics(keys)) && NoAdjacentBare(Topics(keys))
    ensures ' ' !in Topics(keys)[|Topics(keys)| - 1]
    decreases |keys|
  {
    var comma := ", ";
    assert comma[1] == ' ';
    if |keys| == 1 {
      assert Topics(keys) == [keys[0], "."];
      assert QuoteFree(".") && ' ' !in ".";
    } else {
      var t := Topics(keys[1..]);
      TopicsPlain(keys[1..]);
      assert Topics(keys) == [keys[0]] + ([comma] + t);
      assert QuoteFree(comma);
      PrependQuoteFree(comma, t);
      PrependNoAdjacentBare(comma, t);
      PrependQuoteFree(keys[0], [comma] + t);
      PrependNoAdjacentBare(keys[0], [comma] + t);
    }
  }

  /**
   * The pieces of every description are quote-free, and of two neighbouring
   * pieces (the last one aside) at least one holds a space.
   */
  lemma {:induction false} DescriptionPiecesShape(m: Main)
    ensures AllQuoteFree(DescriptionPieces(m)) && NoAdjacentBare(DescriptionPieces(m))
  {
    var keys := SubKeys(m);
    var t := Topics(keys);
    var d := MainDisplay(m);
    forall j | 0 <= j < |keys| ensures QuoteFree(keys[j]) {
      SubKeyQuoteFree(SubsOf(m)[j]);
    }
    TopicsPlain(keys);
    MainDisplayShape(m);
    FixedPiecesShape();
    var p3 := [TopicsIntro] + t;
    var p2 := [d] + p3;
    var p1 := [CategoryLead] + p2;
    PrependQuoteFree(TopicsIntro, t);
    PrependNoAdjacentBare(TopicsIntro, t);
    PrependQuoteFree(d, p3);
    PrependNoAdjacentBare(d, p3);
    PrependQuoteFree(CategoryLead, p2);
    PrependNoAdjacentBare(CategoryLead, p2);
    PrependQuoteFree(UserLead, p1);
    PrependNoAdjacentBare(UserLead, p1);
    FourFront(UserLead, CategoryLead, d, TopicsIntro, t);
  }

  /**
   * Deleting every quoted occurrence of a quote- and space-free word from a
   * description leaves none behind.
   */
  lemma {:induction false} DescriptionScrubbed(m: Main, word: string)
    requires QuoteFree(word) && ' ' !in word
    ensures ReplaceAll(Description(m), Quoted(word), "") == Join(Scrub(DescriptionPieces(m), word), [Quote])
    ensures !Contains(ReplaceAll(Description(m), Quoted(word), ""), Quoted(word))
  {
    DescriptionPiecesShape(m);
    ReplaceQuotedInJoin(DescriptionPieces(m), word);
    ScrubbedHasNoOccurrence(DescriptionPieces(m), word);
  }
}
