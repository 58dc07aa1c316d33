/**
 * The in-schema extraction evaluation: for every scored conversation the
 * ground-truth and predicted labels of each level are appended to the
 * label lists (the detail labels with song folded into genre), to the
 * one-preference-only lists when exactly one preference was extracted, and
 * to the true-repeated lists with the ground truth repeated once per
 * prediction; the ground truth counts as extracted when its detail label
 * is among the extracted ones, and then the preference string is looked
 * up in the conversation and in the matching extracted text. The scores
 * computed from the lists are not modelled.
 */
module InSchemaEval {
  import opened Wrappers
  import opened Json
  import opened ExtractionScores
  import Marker = PreferenceStringMarker
  import PreferenceString

  /** The ground-truth list of a level: its one label, relabelled at detail level when asked. */
  function TrueLabels(e: Extraction, level: Level, songIsGenre: bool): (r: seq<int>)
    ensures |r| == 1
  {
    if level == Detail && songIsGenre then Relabelled([e.groundTruth.detail]) else [e.groundTruth.At(level)]
  }

  /** Every level's lists extended by one conversation. */
  function Appended(ls: Levels, e: Extraction, songIsGenre: bool): Levels {
    Levels(
      LabelLists(ls.main.truth + [TrueLabels(e, Main, songIsGenre)], ls.main.pred + [Predicted(e, Main, songIsGenre)]),
      LabelLists(ls.sub.truth + [TrueLabels(e, Sub, songIsGenre)], ls.sub.pred + [Predicted(e, Sub, songIsGenre)]),
      LabelLists(ls.detail.truth + [TrueLabels(e, Detail, songIsGenre)], ls.detail.pred + [Predicted(e, Detail, songIsGenre)]))
  }

  /** Every level's true-repeated lists extended by one conversation. */
  function AppendedRepeated(ls: Levels, e: Extraction, songIsGenre: bool): Levels {
    var n := |e.extracted|;
    Levels(
      LabelLists(ls.main.truth + [Repeat(TrueLabels(e, Main, songIsGenre)[0], n)], ls.main.pred + [Predicted(e, Main, songIsGenre)]),
      LabelLists(ls.sub.truth + [Repeat(TrueLabels(e, Sub, songIsGenre)[0], n)], ls.sub.pred + [Predicted(e, Sub, songIsGenre)]),
      LabelLists(ls.detail.truth + [Repeat(TrueLabels(e, Detail, songIsGenre)[0], n)], ls.detail.pred + [Predicted(e, Detail, songIsGenre)]))
  }

  /** The four preference-string counters. */
  datatype StringCounters = StringCounters(
    inConversation: nat, inConversationUserOnly: nat, inExtracted: nat, inExtractedUserOnly: nat)

  /**
   * The string counters after one conversation: untouched unless the ground
   * truth was extracted; then the preference is looked up in all turns and
   * in the user turns, and, where found, in the matching extracted text.
   */
  function StringsCounted(c: StringCounters, e: Extraction, userPreference: string, turns: seq<Json>): Result<StringCounters> {
    match FirstIndex(e.groundTruth.detail, Column(e.extracted, Detail))
    case None => Ok(c)
    case Some(k) =>
      match Marker.Concatenated(turns)
      case Err(err) => Err(err)
      case Ok(full) =>
        match Marker.Concatenated(Marker.EveryOther(turns))
        case Err(err) => Err(err)
        case Ok(userOnly) =>
          var preference := PreferenceString.LastPiece(userPreference);
          Ok(Bumped(c, Marker.Mentions(full, preference), Marker.Mentions(userOnly, preference),
                    Marker.Mentions(e.extracted[k].text, preference)))
  }

  /** The counters after lookups in all turns, in the user turns and in the extracted text. */
  function Bumped(c: StringCounters, inFull: bool, inUser: bool, inText: bool): StringCounters {
    StringCounters(
      c.inConversation + (if inFull then 1 else 0),
      c.inConversationUserOnly + (if inUser then 1 else 0),
      c.inExtracted + (if inFull && inText then 1 else 0),
      c.inExtractedUserOnly + (if inUser && inText then 1 else 0))
  }

  /** A string found in the extraction was found in the conversation, so the counters stay ordered. */
  lemma {:induction false} StringsCountedOrdered(c: StringCounters, e: Extraction, userPreference: string, turns: seq<Json>)
    requires c.inExtracted <= c.inConversation && c.inExtractedUserOnly <= c.inConversationUserOnly
    requires StringsCounted(c, e, userPreference, turns).Ok?
    ensures var d := StringsCounted(c, e, userPreference, turns).value;
      && d.inExtracted <= d.inConversation && d.inExtractedUserOnly <= d.inConversationUserOnly
      && d.inConversation <= c.inConversation + 1 && d.inConversationUserOnly <= c.inConversationUserOnly + 1
      && (e.groundTruth.detail !in Column(e.extracted, Detail) ==> d == c)
  {
  }

  /**
   * The preference-string lookups of one conversation, made only when the
   * ground truth was extracted, at the index where it was found.
   */
  method CountStrings(c: StringCounters, e: Extraction, userPreference: string, turns: seq<Json>,
                      extracted: bool, foundIndex: Option<nat>)
    returns (r: Result<StringCounters>)
    requires extracted <==> e.groundTruth.detail in Column(e.extracted, Detail)
    requires foundIndex == FirstIndex(e.groundTruth.detail, Column(e.extracted, Detail))
    ensures r == StringsCounted(c, e, userPreference, turns)
  {
    var counters := c;
    if extracted {
      var full := Marker.Concatenated(turns);
      if full.Err? {
        return Err(full.error);
      }
      var userOnly := Marker.Concatenated(Marker.EveryOther(turns));
      if userOnly.Err? {
        return Err(userOnly.error);
      }
      var preference := PreferenceString.LastPiece(userPreference);
      var inFull := Marker.Mentions(full.value, preference);
      var inUser := Marker.Mentions(userOnly.value, preference);
      var inText := Marker.Mentions(e.extracted[foundIndex.value].text, preference);
      counters := Bump(c, inFull, inUser, inText);
    }
    r := Ok(counters);
  }

  /** The counter updates after the three lookups. */
  method Bump(c: StringCounters, inFull: bool, inUser: bool, inText: bool) returns (counters: StringCounters)
    ensures counters == Bumped(c, inFull, inUser, inText)
  {
    counters := c;
    if inFull {
      counters := counters.(inConversation := counters.inConversation + 1);
      if inText {
        counters := counters.(inExtracted := counters.inExtracted + 1);
      }
    }
    if inUser {
      counters := counters.(inConversationUserOnly := counters.inConversationUserOnly + 1);
      if inText {
        counters := counters.(inExtractedUserOnly := counters.inExtractedUserOnly + 1);
      }
    }
  }

  /** Extending the lists keeps their shapes. */
  lemma {:induction false} AppendedShapes(all: Levels, onePrefOnly: Levels, trueRepeated: Levels, e: Extraction, songIsGenre: bool,
                       n: nat, m: nat)
    requires all.Aligned(n) && onePrefOnly.Aligned(m) && onePrefOnly.Singles()
    requires trueRepeated.Aligned(n) && trueRepeated.Repeats()
    ensures Appended(all, e, songIsGenre).Aligned(n + 1)
    ensures |e.extracted| == 1 ==>
      Appended(onePrefOnly, e, songIsGenre).Aligned(m + 1) && Appended(onePrefOnly, e, songIsGenre).Singles()
    ensures AppendedRepeated(trueRepeated, e, songIsGenre).Aligned(n + 1)
    ensures AppendedRepeated(trueRepeated, e, songIsGenre).Repeats()
  {
    var r := AppendedRepeated(trueRepeated, e, songIsGenre);
    var o := Appended(onePrefOnly, e, songIsGenre);
    assert o.main.pred[..m] == onePrefOnly.main.pred && o.sub.pred[..m] == onePrefOnly.sub.pred;
    assert o.detail.pred[..m] == onePrefOnly.detail.pred;
    assert r.main.pred[..n] == trueRepeated.main.pred && r.main.truth[..n] == trueRepeated.main.truth;
    assert r.sub.pred[..n] == trueRepeated.sub.pred && r.sub.truth[..n] == trueRepeated.sub.truth;
    assert r.detail.pred[..n] == trueRepeated.detail.pred && r.detail.truth[..n] == trueRepeated.detail.truth;
    assert r.main.truth[n] == Repeat(TrueLabels(e, Main, songIsGenre)[0], |e.extracted|);
    assert r.sub.truth[n] == Repeat(TrueLabels(e, Sub, songIsGenre)[0], |e.extracted|);
    assert r.detail.truth[n] == Repeat(TrueLabels(e, Detail, songIsGenre)[0], |e.extracted|);
  }

  /**
   * The label lists extended by one conversation: the ground-truth and
   * predicted labels of each level, detail labels relabelled when asked,
   * the one-preference-only lists only when exactly one preference was
   * extracted, and the ground truth repeated once per prediction.
   */
  method AppendLabels(all0: Levels, onePrefOnly0: Levels, trueRepeated0: Levels, e: Extraction, songIsGenre: bool)
    returns (all1: Levels, onePrefOnly1: Levels, trueRepeated1: Levels)
    ensures all1 == Appended(all0, e, songIsGenre)
    ensures onePrefOnly1 == if |e.extracted| == 1 then Appended(onePrefOnly0, e, songIsGenre) else onePrefOnly0
    ensures trueRepeated1 == AppendedRepeated(trueRepeated0, e, songIsGenre)
  {
    onePrefOnly1 := onePrefOnly0;
    var mainTrue, subTrue := [e.groundTruth.main], [e.groundTruth.sub];
    var mainPred, subPred := Column(e.extracted, Main), Column(e.extracted, Sub);
    var detailTrue, detailPred := [e.groundTruth.detail], Column(e.extracted, Detail);
    if songIsGenre {
      detailTrue := RelabelSongAsGenre(detailTrue);
      detailPred := RelabelSongAsGenre(detailPred);
    }
    all1 := Levels(
      LabelLists(all0.main.truth + [mainTrue], all0.main.pred + [mainPred]),
      LabelLists(all0.sub.truth + [subTrue], all0.sub.pred + [subPred]),
      LabelLists(all0.detail.truth + [detailTrue], all0.detail.pred + [detailPred]));
    if |mainPred| == 1 && |subPred| == 1 && |detailPred| == 1 {
      onePrefOnly1 := Levels(
        LabelLists(onePrefOnly0.main.truth + [mainTrue], onePrefOnly0.main.pred + [mainPred]),
        LabelLists(onePrefOnly0.sub.truth + [subTrue], onePrefOnly0.sub.pred + [subPred]),
        LabelLists(onePrefOnly0.detail.truth + [detailTrue], onePrefOnly0.detail.pred + [detailPred]));
    }
    trueRepeated1 := Levels(
      LabelLists(trueRepeated0.main.truth + [Repeat(mainTrue[0], |mainPred|)], trueRepeated0.main.pred + [mainPred]),
      LabelLists(trueRepeated0.sub.truth + [Repeat(subTrue[0], |subPred|)], trueRepeated0.sub.pred + [subPred]),
      LabelLists(trueRepeated0.detail.truth + [Repeat(detailTrue[0], |detailPred|)], trueRepeated0.detail.pred + [detailPred]));
  }

  /**
   * The running values of the evaluation: the three families of label
   * lists, the `valid_at_try` counters, the number of scored conversations
   * and of those with one preference, the string counters and the
   * extracted flags.
   */
  datatype Tally = Tally(
    all: Levels, onePrefOnly: Levels, trueRepeated: Levels, tries: TryCounters, counter: nat,
    onePrefOnlyCounter: nat, strings: StringCounters, found: seq<bool>)

  /**
   * The counters partition the scored conversations by `valid_at_try`,
   * every list holds one entry per conversation it was fed, one-preference
   * predictions hold one label, repeated ground truths match their
   * predictions in length, and a string counted in an extraction was
   * counted in its conversation.
   */
  predicate Consistent(t: Tally) {
    && t.tries.Total() == t.counter && |t.found| == t.counter
    && t.onePrefOnlyCounter <= t.counter
    && t.all.Aligned(t.counter)
    && t.onePrefOnly.Aligned(t.onePrefOnlyCounter) && t.onePrefOnly.Singles()
    && t.trueRepeated.Aligned(t.counter) && t.trueRepeated.Repeats()
    && t.strings.inExtracted <= t.strings.inConversation
    && t.strings.inExtractedUserOnly <= t.strings.inConversationUserOnly
    && t.strings.inConversation <= t.counter && t.strings.inConversationUserOnly <= t.counter
  }

  /**
   * The values after scoring one more conversation, or the error of a turn
   * without a first value met while looking up the preference string.
   */
  function Scored(t: Tally, e: Extraction, userPreference: string, turns: seq<Json>, songIsGenre: bool): Result<Tally> {
    match StringsCounted(t.strings, e, userPreference, turns)
    case Err(err) => Err(err)
    case Ok(strings) =>
      var one := |e.extracted| == 1;
      Ok(Tally(
        Appended(t.all, e, songIsGenre),
        if one then Appended(t.onePrefOnly, e, songIsGenre) else t.onePrefOnly,
        AppendedRepeated(t.trueRepeated, e, songIsGenre),
        CountTry(t.tries, e.validAtTry), t.counter + 1,
        t.onePrefOnlyCounter + (if one then 1 else 0), strings,
        t.found + [e.groundTruth.detail in Column(e.extracted, Detail)]))
  }

  /** Scoring one more conversation keeps the invariant. */
  lemma {:induction false} ScoredConsistent(t: Tally, e: Extraction, userPreference: string, turns: seq<Json>, songIsGenre: bool)
    requires Consistent(t)
    ensures Scored(t, e, userPreference, turns, songIsGenre).Ok? ==> Consistent(Scored(t, e, userPreference, turns, songIsGenre).value)
  {
    if StringsCounted(t.strings, e, userPreference, turns).Ok? {
      AppendedShapes(t.all, t.onePrefOnly, t.trueRepeated, e, songIsGenre, t.counter, t.onePrefOnlyCounter);
      StringsCountedOrdered(t.strings, e, userPreference, turns);
    }
  }

  /**
   * One scored conversation: the label lists are extended, the
   * one-preference counter bumped, the ground truth searched among the
   * extracted detail labels, the preference strings looked up and the try
   * counted.
   */
  method Advance(t: Tally, e: Extraction, userPreference: string, turns: seq<Json>, songIsGenre: bool)
    returns (r: Result<Tally>)
    requires Consistent(t)
    ensures r == Scored(t, e, userPreference, turns, songIsGenre)
    ensures r.Ok? ==> Consistent(r.value)
  {
    var all1, onePrefOnly1, trueRepeated1 := AppendLabels(t.all, t.onePrefOnly, t.trueRepeated, e, songIsGenre);
    var onePrefOnlyCounter1 := t.onePrefOnlyCounter;
    if |e.extracted| == 1 {
      onePrefOnlyCounter1 := onePrefOnlyCounter1 + 1;
    }
    var extracted, foundIndex := FindGroundTruth(e.groundTruth.detail, Column(e.extracted, Detail));
    var counted := CountStrings(t.strings, e, userPreference, turns, extracted, foundIndex);
    if counted.Err? {
      return Err(counted.error);
    }
    ScoredConsistent(t, e, userPreference, turns, songIsGenre);
    r := Ok(Tally(all1, onePrefOnly1, trueRepeated1, CountTry(t.tries, e.validAtTry), t.counter + 1,
                  onePrefOnlyCounter1, counted.value, t.found + [extracted]));
  }

  /** The values before the first line: every list empty and every counter zero. */
  function Start(): (t: Tally)
    ensures Consistent(t) && t.counter == 0 && t.found == []
  {
    EmptyLevels();
    Tally(NoLevels, NoLevels, NoLevels, TryCounters(0, 0, 0), 0, 0, StringCounters(0, 0, 0, 0), [])
  }

  /**
   * The values after scoring a line's conversations in order, up to the
   * first one without an extraction, or the first error met.
   */
  function ScoredLine(t: Tally, convs: seq<Conversation>, songIsGenre: bool): Result<Tally>
    decreases |convs|
  {
    if |convs| == 0 || convs[0].extraction.None? then Ok(t)
    else
      match Scored(t, convs[0].extraction.value, convs[0].userPreference, convs[0].turns, songIsGenre)
      case Err(err) => Err(err)
      case Ok(next) => ScoredLine(next, convs[1..], songIsGenre)
  }

  /** The values after scoring the lines one after another, or the first error met. */
  function ScoredLines(t: Tally, lines: seq<seq<Conversation>>, songIsGenre: bool): Result<Tally> {
    if |lines| == 0 then Ok(t)
    else
      match ScoredLines(t, lines[..|lines| - 1], songIsGenre)
      case Err(err) => Err(err)
      case Ok(before) => ScoredLine(before, lines[|lines| - 1], songIsGenre)
  }

  /** A scored line keeps the invariant and scores exactly the conversations before the first one without an extraction. */
  lemma {:induction false} ScoredLineConsistent(t: Tally, convs: seq<Conversation>, songIsGenre: bool)
    requires Consistent(t)
    ensures ScoredLine(t, convs, songIsGenre).Ok? ==>
      Consistent(ScoredLine(t, convs, songIsGenre).value)
      && ScoredLine(t, convs, songIsGenre).value.counter == t.counter + Processed(convs)
    decreases |convs|
  {
    if |convs| > 0 && convs[0].extraction.Some? {
      var e := convs[0].extraction.value;
      ScoredConsistent(t, e, convs[0].userPreference, convs[0].turns, songIsGenre);
      var next := Scored(t, e, convs[0].userPreference, convs[0].turns, songIsGenre);
      if next.Ok? {
        ScoredLineConsistent(next.value, convs[1..], songIsGenre);
      }
    }
  }

  /** A scored line keeps the extracted flags of the conversations scored before it. */
  lemma {:induction false} ScoredLineKeepsFound(t: Tally, convs: seq<Conversation>, songIsGenre: bool)
    ensures ScoredLine(t, convs, songIsGenre).Ok? ==> t.found <= ScoredLine(t, convs, songIsGenre).value.found
    decreases |convs|
  {
    if |convs| > 0 && convs[0].extraction.Some? {
      var next := Scored(t, convs[0].extraction.value, convs[0].userPreference, convs[0].turns, songIsGenre);
      if next.Ok? {
        assert t.found <= next.value.found;
        ScoredLineKeepsFound(next.value, convs[1..], songIsGenre);
      }
    }
  }

  /** Scored lines keep the invariant and count the processed conversations of every line. */
  lemma {:induction false} ScoredLinesConsistent(t: Tally, lines: seq<seq<Conversation>>, songIsGenre: bool)
    requires Consistent(t)
    ensures ScoredLines(t, lines, songIsGenre).Ok? ==>
      Consistent(ScoredLines(t, lines, songIsGenre).value)
      && ScoredLines(t, lines, songIsGenre).value.counter == t.counter + Sum(lines, Processed)
  {
    if |lines| > 0 {
      var before := ScoredLines(t, lines[..|lines| - 1], songIsGenre);
      ScoredLinesConsistent(t, lines[..|lines| - 1], songIsGenre);
      if before.Ok? {
        ScoredLineConsistent(before.value, lines[|lines| - 1], songIsGenre);
      }
    }
  }

  /** Lines scored from the start keep the invariant and count their processed conversations. */
  lemma ScoredFromStart(lines: seq<seq<Conversation>>, songIsGenre: bool)
    ensures ScoredLines(Start(), lines, songIsGenre).Ok? ==>
      Consistent(ScoredLines(Start(), lines, songIsGenre).value)
      && ScoredLines(Start(), lines, songIsGenre).value.counter == Sum(lines, Processed)
  {
    ScoredLinesConsistent(Start(), lines, songIsGenre);
  }

  /** One more line scored after the first `i`. */
  lemma {:induction false} ScoredLinesSnoc(t: Tally, lines: seq<seq<Conversation>>, i: nat, songIsGenre: bool)
    requires i < |lines|
    ensures ScoredLines(t, lines[..i + 1], songIsGenre) ==
      match ScoredLines(t, lines[..i], songIsGenre)
      case Err(err) => Err(err)
      case Ok(before) => ScoredLine(before, lines[i], songIsGenre)
  {
    assert lines[..i + 1][..i] == lines[..i];
  }

  /** An error met in the first `k` lines is the error of all of them: the script stops there. */
  lemma {:induction false} ScoredLinesStop(t: Tally, lines: seq<seq<Conversation>>, k: nat, songIsGenre: bool)
    requires k <= |lines| && ScoredLines(t, lines[..k], songIsGenre).Err?
    ensures ScoredLines(t, lines, songIsGenre) == ScoredLines(t, lines[..k], songIsGenre)
  {
    if k == |lines| {
      assert lines[..k] == lines;
    } else {
      assert lines[..|lines| - 1][..k] == lines[..k];
      ScoredLinesStop(t, lines[..|lines| - 1], k, songIsGenre);
    }
  }

  class InSchemaEvaluation {
    var all: Levels
    var onePrefOnly: Levels
    var trueRepeated: Levels
    var tries: TryCounters
    var counter: nat
    var onePrefOnlyCounter: nat
    var strings: StringCounters
    /** `ground_truth_preference_extracted` of each scored conversation, in order. */
    var found: seq<bool>

    /** The running values held in the fields. */
    function Current(): Tally
      reads this
    {
      Tally(all, onePrefOnly, trueRepeated, tries, counter, onePrefOnlyCounter, strings, found)
    }

    predicate Valid()
      reads this
    {
      Consistent(Current())
    }

    constructor ()
      ensures Valid() && Current() == Start()
    {
      var t := Start();
      all, onePrefOnly, trueRepeated, tries := t.all, t.onePrefOnly, t.trueRepeated, t.tries;
      counter, onePrefOnlyCounter, strings, found := t.counter, t.onePrefOnlyCounter, t.strings, t.found;
      new;
      assert Current() == t;
    }

    /**
     * Scores one conversation with an extraction. A turn without a first
     * value, met while looking up the preference string, stops the script.
     */
    method ScoreConversation(e: Extraction, userPreference: string, turns: seq<Json>, songIsGenre: bool)
      returns (r: Option<Error>)
      requires Valid()
      modifies this
      ensures r.Some? <==> Scored(old(Current()), e, userPreference, turns, songIsGenre).Err?
      ensures r.Some? ==> r.value == Scored(old(Current()), e, userPreference, turns, songIsGenre).error
      ensures r.None? ==> Valid() && Current() == Scored(old(Current()), e, userPreference, turns, songIsGenre).value
    {
      var t := Advance(Current(), e, userPreference, turns, songIsGenre);
      if t.Err? {
        return Some(t.error);
      }
      all, onePrefOnly, trueRepeated, tries, counter, onePrefOnlyCounter, strings, found :=
        t.value.all, t.value.onePrefOnly, t.value.trueRepeated, t.value.tries, t.value.counter,
        t.value.onePrefOnlyCounter, t.value.strings, t.value.found;
      assert Current() == t.value;
      r := None;
    }

    /**
     * Scores the conversations of one line until the first one without an
     * extraction; the first error stops the line.
     */
    method ScoreLine(convs: seq<Conversation>, songIsGenre: bool) returns (r: Option<Error>)
      requires Valid()
      modifies this
      ensures r.Some? <==> ScoredLine(old(Current()), convs, songIsGenre).Err?
      ensures r.Some? ==> r.value == ScoredLine(old(Current()), convs, songIsGenre).error
      ensures r.None? ==> Valid() && Current() == ScoredLine(old(Current()), convs, songIsGenre).value
      ensures r.None? ==> counter == old(counter) + Processed(convs) && found[..old(counter)] == old(found)
    {
      ghost var before := Current();
      r := ScoreConversations(convs, songIsGenre);
      if r.None? {
        ScoredLineConsistent(before, convs, songIsGenre);
        ScoredLineKeepsFound(before, convs, songIsGenre);
      }
    }

    /** The loop of `ScoreLine`: the conversations scored one by one. */
    method ScoreConversations(convs: seq<Conversation>, songIsGenre: bool) returns (r: Option<Error>)
      requires Valid()
      modifies this
      ensures r.Some? ==> ScoredLine(old(Current()), convs, songIsGenre) == Err(r.value)
      ensures r.None? ==> Valid() && ScoredLine(old(Current()), convs, songIsGenre) == Ok(Current())
    {
      var i := 0;
      while i < |convs|
        invariant 0 <= i <= |convs|
        invariant Valid()
        invariant ScoredLine(Current(), convs[i..], songIsGenre) == ScoredLine(old(Current()), convs, songIsGenre)
      {
        if convs[i].extraction.None? {
          break;
        }
        assert convs[i..][1..] == convs[i + 1..];
        r := ScoreConversation(convs[i].extraction.value, convs[i].userPreference, convs[i].turns, songIsGenre);
        if r.Some? {
          return;
        }
        i := i + 1;
      }
      r := None;
    }

    /** Scores the lines one after the other; the first error stops the run. */
    method ScoreLines(lines: seq<seq<Conversation>>, songIsGenre: bool) returns (r: Option<Error>)
      requires Valid()
      modifies this
      ensures r.Some? <==> ScoredLines(old(Current()), lines, songIsGenre).Err?
      ensures r.Some? ==> r.value == ScoredLines(old(Current()), lines, songIsGenre).error
      ensures r.None? ==> Valid() && Current() == ScoredLines(old(Current()), lines, songIsGenre).value
    {
      for i := 0 to |lines|
        invariant Valid()
        invariant ScoredLines(old(Current()), lines[..i], songIsGenre) == Ok(Current())
      {
        ScoredLinesSnoc(old(Current()), lines, i, songIsGenre);
        r := ScoreLine(lines[i], songIsGenre);
        if r.Some? {
          ScoredLinesStop(old(Current()), lines, i + 1, songIsGenre);
          return;
        }
      }
      assert lines[..|lines|] == lines;
      r := None;
    }
  }

  /**
   * The evaluation over all lines: the scored conversations of each line,
   * in order, from the empty start; the first error stops the script.
   */
  method EvaluateInSchema(lines: seq<seq<Conversation>>, songIsGenre: bool)
    returns (r: Result<InSchemaEvaluation>)
    ensures r.Err? <==> ScoredLines(Start(), lines, songIsGenre).Err?
    ensures r.Err? ==> r.error == ScoredLines(Start(), lines, songIsGenre).error
    ensures r.Ok? ==> r.value.Current() == ScoredLines(Start(), lines, songIsGenre).value
    ensures r.Ok? ==> r.value.Valid() && r.value.counter == Sum(lines, Processed)
  {
    var eval := new InSchemaEvaluation();
    var err := eval.ScoreLines(lines, songIsGenre);
    if err.Some? {
      return Err(err.value);
    }
    ScoredFromStart(lines, songIsGenre);
    r := Ok(eval);
  }

  /** A valid evaluation's `valid_at_try` counters add up to the scored conversations. */
  lemma {:induction false} TriesPartition(eval: InSchemaEvaluation)
    requires eval.Valid()
    ensures eval.tries.atTry1 + eval.tries.atTry2 + eval.tries.notValid == eval.counter == |eval.found|
  {
  }

  /**
   * The extracted flag compares raw labels while the detail lists are
   * relabelled: a ground-truth song extracted as a genre agrees in the lists
   * yet is not counted as extracted.
   */
  lemma {:induction false} FoundIgnoresRelabelling()
    ensures var e := Extraction(Labels(3, 10, SongLabel), [Extracted(Labels(3, 10, GenreLabel), "")], Some(1), None);
      && TrueLabels(e, Detail, true) == Predicted(e, Detail, true)
      && e.groundTruth.detail !in Column(e.extracted, Detail)
  {
    var e := Extraction(Labels(3, 10, SongLabel), [Extracted(Labels(3, 10, GenreLabel), "")], Some(1), None);
    assert Column(e.extracted, Detail) == [GenreLabel];
  }
}
