/**
 * The out-of-schema extraction evaluation over the first fifty input
 * lines: the ground truth lies outside the schema, so each scored
 * conversation contributes an empty true label set at every level, its
 * predicted labels (the detail labels with song folded into genre), its
 * number of extracted preferences and, when recorded, its number of
 * "other" preferences; the `valid_at_try` counters partition the scored
 * conversations. The scores computed from the lists are not modelled.
 */
module OutOfSchemaEval {
  import opened Wrappers
  import opened ExtractionScores

  /** The number of input lines evaluated. */
  const EvaluatedLines := 50

  /** The `evaluation` entry written into a scored conversation (integer part). */
  datatype OutEvaluation = OutEvaluation(numberExtracted: nat, numberOther: Option<int>)

  function ExtractedCount(v: OutEvaluation): nat {
    v.numberExtracted
  }

  /** The total of the recorded "other" counts, skipping conversations without one. */
  function OtherTotal(vs: seq<OutEvaluation>): int {
    if |vs| == 0 then 0
    else OtherTotal(vs[..|vs| - 1]) + match vs[|vs| - 1].numberOther { case None => 0 case Some(k) => k }
  }

  /** Every level's lists extended by one conversation: the raw ground truth and the predictions. */
  function Appended(ls: Levels, e: Extraction, songIsGenre: bool): (r: Levels)
    ensures |r.main.truth| == |ls.main.truth| + 1
  {
    Levels(
      LabelLists(ls.main.truth + [[e.groundTruth.main]], ls.main.pred + [Predicted(e, Main, songIsGenre)]),
      LabelLists(ls.sub.truth + [[e.groundTruth.sub]], ls.sub.pred + [Predicted(e, Sub, songIsGenre)]),
      LabelLists(ls.detail.truth + [[e.groundTruth.detail]], ls.detail.pred + [Predicted(e, Detail, songIsGenre)]))
  }

  /** The predicted labels of the three levels, the detail ones relabelled in place when asked. */
  method Predict(e: Extraction, songIsGenre: bool) returns (main: seq<int>, sub: seq<int>, detail: seq<int>)
    ensures main == Predicted(e, Main, songIsGenre)
    ensures sub == Predicted(e, Sub, songIsGenre)
    ensures detail == Predicted(e, Detail, songIsGenre)
  {
    main, sub, detail := Column(e.extracted, Main), Column(e.extracted, Sub), Column(e.extracted, Detail);
    if songIsGenre {
      detail := RelabelSongAsGenre(detail);
    }
  }

  /** Every level's lists extended by one conversation's ground truth and predicted labels. */
  method AppendPredictions(ls: Levels, e: Extraction, songIsGenre: bool) returns (r: Levels)
    ensures r == Appended(ls, e, songIsGenre)
  {
    var mainPred, subPred, detailPred := Predict(e, songIsGenre);
    r := Levels(
      LabelLists(ls.main.truth + [[e.groundTruth.main]], ls.main.pred + [mainPred]),
      LabelLists(ls.sub.truth + [[e.groundTruth.sub]], ls.sub.pred + [subPred]),
      LabelLists(ls.detail.truth + [[e.groundTruth.detail]], ls.detail.pred + [detailPred]));
  }

  /** The empty true label sets of one level, one per scored conversation. */
  predicate AllEmpty(truth: seq<seq<int>>, n: nat) {
    |truth| == n && forall i :: 0 <= i < n ==> truth[i] == []
  }

  /**
   * The running values of the evaluation: the label lists, the empty true
   * label sets, the `valid_at_try` counters, the number of scored
   * conversations, the two totals and the evaluations written.
   */
  datatype Tally = Tally(
    all: Levels, emptyMain: seq<seq<int>>, emptySub: seq<seq<int>>, emptyDetail: seq<seq<int>>,
    tries: TryCounters, counter: nat, extractedTotal: nat, otherTotal: int, evaluations: seq<OutEvaluation>)

  /**
   * One list entry and one evaluation per scored conversation, every true
   * label set of the empty lists empty, the counters partitioning the
   * conversations, and the totals summing the evaluations.
   */
  predicate Consistent(t: Tally) {
    && t.all.Aligned(t.counter)
    && AllEmpty(t.emptyMain, t.counter) && AllEmpty(t.emptySub, t.counter) && AllEmpty(t.emptyDetail, t.counter)
    && t.tries.Total() == t.counter && |t.evaluations| == t.counter
    && t.extractedTotal == Sum(t.evaluations, ExtractedCount)
    && t.otherTotal == OtherTotal(t.evaluations)
  }

  /** The values after scoring one more conversation. */
  function Scored(t: Tally, e: Extraction, songIsGenre: bool): Tally {
    Tally(
      Appended(t.all, e, songIsGenre), t.emptyMain + [[]], t.emptySub + [[]], t.emptyDetail + [[]],
      CountTry(t.tries, e.validAtTry), t.counter + 1, t.extractedTotal + |e.extracted|,
      t.otherTotal + (match e.numberOther { case None => 0 case Some(k) => k }),
      t.evaluations + [OutEvaluation(|e.extracted|, e.numberOther)])
  }

  /** Scoring one more conversation keeps the invariant. */
  lemma {:induction false} ScoredConsistent(t: Tally, e: Extraction, songIsGenre: bool)
    requires Consistent(t)
    ensures Consistent(Scored(t, e, songIsGenre))
  {
    var v := OutEvaluation(|e.extracted|, e.numberOther);
    assert (t.evaluations + [v])[..|t.evaluations|] == t.evaluations;
  }

  /**
   * One scored conversation: the predicted labels are computed, the lists
   * extended, the try counted and, only when the extraction has an "other"
   * count, that count added to its total.
   */
  method Advance(t: Tally, e: Extraction, songIsGenre: bool) returns (r: Tally)
    requires Consistent(t)
    ensures Consistent(r) && r == Scored(t, e, songIsGenre)
  {
    var levels := AppendPredictions(t.all, e, songIsGenre);
    var other := t.otherTotal + match e.numberOther { case None => 0 case Some(k) => k };
    ScoredConsistent(t, e, songIsGenre);
    r := Tally(levels, t.emptyMain + [[]], t.emptySub + [[]], t.emptyDetail + [[]], CountTry(t.tries, e.validAtTry), t.counter + 1,
               t.extractedTotal + |e.extracted|, other, t.evaluations + [OutEvaluation(|e.extracted|, e.numberOther)]);
  }

  /** The values before the first line: every list empty and every counter zero. */
  function Start(): Tally {
    Tally(NoLevels, [], [], [], TryCounters(0, 0, 0), 0, 0, 0, [])
  }

  /** The values after scoring a line's conversations in order, up to the first one without an extraction. */
  function ScoredLine(t: Tally, convs: seq<Conversation>, songIsGenre: bool): Tally
    decreases |convs|
  {
    if |convs| == 0 || convs[0].extraction.None? then t
    else ScoredLine(Scored(t, convs[0].extraction.value, songIsGenre), convs[1..], songIsGenre)
  }

  /** The values after scoring the lines one after another. */
  function ScoredLines(t: Tally, lines: seq<seq<Conversation>>, songIsGenre: bool): Tally {
    if |lines| == 0 then t
    else ScoredLine(ScoredLines(t, lines[..|lines| - 1], songIsGenre), lines[|lines| - 1], songIsGenre)
  }

  /** Scoring a line keeps the invariant and scores exactly the conversations before the first one without an extraction. */
  lemma {:induction false} ScoredLineConsistent(t: Tally, convs: seq<Conversation>, songIsGenre: bool)
    requires Consistent(t)
    ensures Consistent(ScoredLine(t, convs, songIsGenre))
    ensures ScoredLine(t, convs, songIsGenre).counter == t.counter + Processed(convs)
    decreases |convs|
  {
    if |convs| > 0 && convs[0].extraction.Some? {
      ScoredConsistent(t, convs[0].extraction.value, songIsGenre);
      ScoredLineConsistent(Scored(t, convs[0].extraction.value, songIsGenre), convs[1..], songIsGenre);
    }
  }

  /** The extractions a line scores: those of the conversations before the first one without an extraction. */
  function Scoreable(convs: seq<Conversation>): (r: seq<Extraction>)
    ensures |r| == Processed(convs)
    ensures forall i :: 0 <= i < |r| ==> convs[i].extraction == Some(r[i])
  {
    if |convs| == 0 || convs[0].extraction.None? then [] else [convs[0].extraction.value] + Scoreable(convs[1..])
  }

  /** The evaluation written for each extraction: its number of extracted preferences and of "other" answers. */
  function Evaluations(es: seq<Extraction>): (r: seq<OutEvaluation>)
    ensures |r| == |es|
    ensures forall i :: 0 <= i < |es| ==> r[i] == OutEvaluation(|es[i].extracted|, es[i].numberOther)
  {
    if |es| == 0 then [] else [OutEvaluation(|es[0].extracted|, es[0].numberOther)] + Evaluations(es[1..])
  }

  /** The true label set of each extraction at one level: its single ground-truth label. */
  function Truths(es: seq<Extraction>, level: Level): (r: seq<seq<int>>)
    ensures |r| == |es|
    ensures forall i :: 0 <= i < |es| ==> r[i] == [es[i].groundTruth.At(level)]
  {
    if |es| == 0 then [] else [[es[0].groundTruth.At(level)]] + Truths(es[1..], level)
  }

  /** The predicted labels of each extraction at one level. */
  function Predictions(es: seq<Extraction>, level: Level, songIsGenre: bool): (r: seq<seq<int>>)
    ensures |r| == |es|
    ensures forall i :: 0 <= i < |es| ==> r[i] == Predicted(es[i], level, songIsGenre)
  {
    if |es| == 0 then [] else [Predicted(es[0], level, songIsGenre)] + Predictions(es[1..], level, songIsGenre)
  }

  /** A line whose first conversation has an extraction scores it and then the rest of the line. */
  lemma ScoredLineFirst(t: Tally, convs: seq<Conversation>, songIsGenre: bool)
    requires |convs| > 0 && convs[0].extraction.Some?
    ensures ScoredLine(t, convs, songIsGenre) == ScoredLine(Scored(t, convs[0].extraction.value, songIsGenre), convs[1..], songIsGenre)
    ensures Scoreable(convs) == [convs[0].extraction.value] + Scoreable(convs[1..])
  {
  }

  /** Scoring a line appends, for each extraction it scores and in order, one evaluation. */
  lemma {:induction false} ScoredLineEvaluations(t: Tally, convs: seq<Conversation>, songIsGenre: bool)
    ensures ScoredLine(t, convs, songIsGenre).evaluations == t.evaluations + Evaluations(Scoreable(convs))
    decreases |convs|
  {
    if |convs| > 0 && convs[0].extraction.Some? {
      var e := convs[0].extraction.value;
      ScoredLineFirst(t, convs, songIsGenre);
      ScoredLineEvaluations(Scored(t, e, songIsGenre), convs[1..], songIsGenre);
      EvaluationsCons(e, Scoreable(convs[1..]));
    }
  }

  lemma EvaluationsCons(e: Extraction, es: seq<Extraction>)
    ensures Evaluations([e] + es) == [OutEvaluation(|e.extracted|, e.numberOther)] + Evaluations(es)
  {
    assert ([e] + es)[1..] == es;
  }

  /** Scoring a line appends at a level, for each extraction it scores and in order, its ground truth and its predicted labels. */
  lemma {:induction false} ScoredLineLabels(t: Tally, convs: seq<Conversation>, level: Level, songIsGenre: bool)
    ensures var r := ScoredLine(t, convs, songIsGenre).all.At(level);
      && r.truth == t.all.At(level).truth + Truths(Scoreable(convs), level)
      && r.pred == t.all.At(level).pred + Predictions(Scoreable(convs), level, songIsGenre)
  {
    ScoredLineTruths(t, convs, level, songIsGenre);
    ScoredLinePredictions(t, convs, level, songIsGenre);
  }

  lemma {:induction false} ScoredLineTruths(t: Tally, convs: seq<Conversation>, level: Level, songIsGenre: bool)
    ensures ScoredLine(t, convs, songIsGenre).all.At(level).truth == t.all.At(level).truth + Truths(Scoreable(convs), level)
    decreases |convs|
  {
    if |convs| > 0 && convs[0].extraction.Some? {
      var e := convs[0].extraction.value;
      var next := Scored(t, e, songIsGenre);
      ScoredLineFirst(t, convs, songIsGenre);
      ScoredLineTruths(next, convs[1..], level, songIsGenre);
      LabelsCons(e, Scoreable(convs[1..]), level, songIsGenre);
      AppendedAt(t.all, e, level, songIsGenre);
      assert next.all.At(level).truth == t.all.At(level).truth + [[e.groundTruth.At(level)]];
    }
  }

  lemma {:induction false} ScoredLinePredictions(t: Tally, convs: seq<Conversation>, level: Level, songIsGenre: bool)
    ensures ScoredLine(t, convs, songIsGenre).all.At(level).pred
         == t.all.At(level).pred + Predictions(Scoreable(convs), level, songIsGenre)
    decreases |convs|
  {
    if |convs| > 0 && convs[0].extraction.Some? {
      var e := convs[0].extraction.value;
      var next := Scored(t, e, songIsGenre);
      ScoredLineFirst(t, convs, songIsGenre);
      ScoredLinePredictions(next, convs[1..], level, songIsGenre);
      LabelsCons(e, Scoreable(convs[1..]), level, songIsGenre);
      AppendedAt(t.all, e, level, songIsGenre);
      assert next.all.At(level).pred == t.all.At(level).pred + [Predicted(e, level, songIsGenre)];
    }
  }

  lemma LabelsCons(e: Extraction, es: seq<Extraction>, level: Level, songIsGenre: bool)
    ensures Truths([e] + es, level) == [[e.groundTruth.At(level)]] + Truths(es, level)
    ensures Predictions([e] + es, level, songIsGenre) == [Predicted(e, level, songIsGenre)] + Predictions(es, level, songIsGenre)
  {
    assert ([e] + es)[1..] == es;
  }

  lemma AppendedAt(ls: Levels, e: Extraction, level: Level, songIsGenre: bool)
    ensures Appended(ls, e, songIsGenre).At(level).truth == ls.At(level).truth + [[e.groundTruth.At(level)]]
    ensures Appended(ls, e, songIsGenre).At(level).pred == ls.At(level).pred + [Predicted(e, level, songIsGenre)]
  {
  }

  /** One more line scored after the first `i`. */
  lemma {:induction false} ScoredLinesSnoc(t: Tally, lines: seq<seq<Conversation>>, i: nat, songIsGenre: bool)
    requires i < |lines|
    ensures ScoredLines(t, lines[..i + 1], songIsGenre) == ScoredLine(ScoredLines(t, lines[..i], songIsGenre), lines[i], songIsGenre)
  {
    assert lines[..i + 1][..i] == lines[..i];
  }

  /** Scoring lines keeps the invariant and scores, line by line, the conversations before the first without an extraction. */
  lemma {:induction false} ScoredLinesConsistent(t: Tally, lines: seq<seq<Conversation>>, songIsGenre: bool)
    requires Consistent(t)
    ensures Consistent(ScoredLines(t, lines, songIsGenre))
    ensures ScoredLines(t, lines, songIsGenre).counter == t.counter + Sum(lines, Processed)
  {
    if |lines| > 0 {
      ScoredLinesConsistent(t, lines[..|lines| - 1], songIsGenre);
      ScoredLineConsistent(ScoredLines(t, lines[..|lines| - 1], songIsGenre), lines[|lines| - 1], songIsGenre);
    }
  }

  /** Lines scored from the start keep the invariant and count their processed conversations. */
  lemma ScoredFromStart(lines: seq<seq<Conversation>>, songIsGenre: bool)
    ensures Consistent(ScoredLines(Start(), lines, songIsGenre))
    ensures ScoredLines(Start(), lines, songIsGenre).counter == Sum(lines, Processed)
  {
    ScoredLinesConsistent(Start(), lines, songIsGenre);
  }

  class OutOfSchemaEvaluation {
    var all: Levels
    /** The empty true label sets of the main, sub and detail level. */
    var emptyMain: seq<seq<int>>
    var emptySub: seq<seq<int>>
    var emptyDetail: seq<seq<int>>
    var tries: TryCounters
    var counter: nat
    var extractedTotal: nat
    var otherTotal: int
    var evaluations: seq<OutEvaluation>

    /** The running values held in the fields. */
    function Current(): Tally
      reads this
    {
      Tally(all, emptyMain, emptySub, emptyDetail, tries, counter, extractedTotal, otherTotal, evaluations)
    }

    predicate Valid()
      reads this
    {
      Consistent(Current())
    }

    constructor ()
      ensures Valid() && Current() == Start()
    {
      assert NoLists.Aligned(0);
      all := NoLevels;
      emptyMain, emptySub, emptyDetail := [], [], [];
      tries := TryCounters(0, 0, 0);
      counter, extractedTotal, otherTotal := 0, 0, 0;
      evaluations := [];
    }

    /** Scores one conversation with an extraction. */
    method ScoreConversation(e: Extraction, songIsGenre: bool)
      requires Valid()
      modifies this
      ensures Valid() && Current() == Scored(old(Current()), e, songIsGenre)
    {
      var t := Advance(Current(), e, songIsGenre);
      all, emptyMain, emptySub, emptyDetail, tries, counter, extractedTotal, otherTotal, evaluations :=
        t.all, t.emptyMain, t.emptySub, t.emptyDetail, t.tries, t.counter, t.extractedTotal, t.otherTotal, t.evaluations;
    }

    /** Scores the conversations of one line until the first one without an extraction. */
    method ScoreLine(convs: seq<Conversation>, songIsGenre: bool)
      requires Valid()
      modifies this
      ensures Valid() && Current() == ScoredLine(old(Current()), convs, songIsGenre)
      ensures counter == old(counter) + Processed(convs)
    {
      var i := 0;
      while i < |convs|
        invariant 0 <= i <= Processed(convs)
        invariant Valid() && counter == old(counter) + i
        invariant ScoredLine(Current(), convs[i..], songIsGenre) == ScoredLine(old(Current()), convs, songIsGenre)
      {
        if convs[i].extraction.None? {
          break;
        }
        ProcessedNext(convs, i);
        assert convs[i..][1..] == convs[i + 1..];
        ScoreConversation(convs[i].extraction.value, songIsGenre);
        i := i + 1;
      }
    }

    /**
     * Scores the first `n` lines one after the other; a missing line
     * raises IndexError with its index.
     */
    method ScoreLines(lines: seq<seq<Conversation>>, n: nat, songIsGenre: bool) returns (err: Option<Error>)
      requires Valid()
      modifies this
      ensures Valid()
      ensures err.Some? <==> |lines| < n
      ensures err.Some? ==> err.value == IndexError(|lines|)
      ensures err.None? ==> Current() == ScoredLines(old(Current()), lines[..n], songIsGenre)
    {
      for i := 0 to n
        invariant Valid() && i <= |lines|
        invariant Current() == ScoredLines(old(Current()), lines[..i], songIsGenre)
      {
        if i >= |lines| {
          return Some(IndexError(i));
        }
        ScoredLinesSnoc(old(Current()), lines, i, songIsGenre);
        ScoreLine(lines[i], songIsGenre);
      }
      err := None;
    }
  }

  /**
   * The evaluation of exactly the first `n` lines, scored in order from
   * the start; fewer lines raise IndexError at the first missing one.
   */
  method EvaluateFirst(lines: seq<seq<Conversation>>, n: nat, songIsGenre: bool)
    returns (r: Result<OutOfSchemaEvaluation>)
    ensures r.Err? <==> |lines| < n
    ensures r.Err? ==> r.error == IndexError(|lines|)
    ensures r.Ok? ==> r.value.Current() == ScoredLines(Start(), lines[..n], songIsGenre)
    ensures r.Ok? ==> r.value.Valid() && r.value.counter == Sum(lines[..n], Processed)
  {
    var eval := new OutOfSchemaEvaluation();
    var err := eval.ScoreLines(lines, n, songIsGenre);
    if err.Some? {
      return Err(err.value);
    }
    ScoredFromStart(lines[..n], songIsGenre);
    r := Ok(eval);
  }

  /** The evaluation of exactly the first fifty lines. */
  method EvaluateOutOfSchema(lines: seq<seq<Conversation>>, songIsGenre: bool)
    returns (r: Result<OutOfSchemaEvaluation>)
    ensures r.Err? <==> |lines| < EvaluatedLines
    ensures r.Err? ==> r.error == IndexError(|lines|)
    ensures r.Ok? ==> r.value.Current() == ScoredLines(Start(), lines[..EvaluatedLines], songIsGenre)
    ensures r.Ok? ==> r.value.Valid() && r.value.counter == Sum(lines[..EvaluatedLines], Processed)
  {
    r := EvaluateFirst(lines, EvaluatedLines, songIsGenre);
  }

  /** In a valid evaluation the totals are sums over the recorded evaluations and the counters partition them. */
  lemma {:induction false} TotalsBound(eval: OutOfSchemaEvaluation, maxOther: nat)
    requires eval.Valid()
    requires forall i :: 0 <= i < |eval.evaluations| ==>
      eval.evaluations[i].numberOther.None? ||
      0 <= eval.evaluations[i].numberOther.value <= maxOther
    ensures 0 <= eval.otherTotal <= maxOther * eval.counter
    ensures eval.tries.atTry1 + eval.tries.atTry2 + eval.tries.notValid == eval.counter
  {
    OtherTotalBound(eval.evaluations, maxOther);
  }

  lemma {:induction false} OtherTotalBound(vs: seq<OutEvaluation>, maxOther: nat)
    requires forall i :: 0 <= i < |vs| ==> vs[i].numberOther.None? || 0 <= vs[i].numberOther.value <= maxOther
    ensures 0 <= OtherTotal(vs) <= maxOther * |vs|
  {
    if |vs| > 0 {
      OtherTotalBound(vs[..|vs| - 1], maxOther);
    }
  }

  /** Conversations without an "other" count add nothing to the other total. */
  lemma {:induction false} OtherTotalSkipsMissing(vs: seq<OutEvaluation>)
    requires forall i :: 0 <= i < |vs| ==> vs[i].numberOther.None?
    ensures OtherTotal(vs) == 0
  {
    if |vs| > 0 {
      OtherTotalSkipsMissing(vs[..|vs| - 1]);
    }
  }
}
