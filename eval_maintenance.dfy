/**
 * The maintenance evaluation: every conversation's three tool calls (for
 * the equal, negate and different question) are filed under the detail
 * category's cardinality (MP or MNP), each call is marked correct when it
 * is the tool its question expects (pass, update, append), the bucket
 * size of the equal question is recorded once per question asked, and
 * conversations without exactly one negate extraction are counted. The
 * accuracies' numerators and the tally matrices are the integer parts of
 * the final scores; the divisions and plots are not modelled.
 */
module MaintenanceEval {
  import opened Wrappers
  import opened FunctionLabel

  /** The cardinality that files a conversation under MP; anything else is MNP. */
  const Mp := "MP"

  /** One maintenance question's evaluation: the tool called and the bucket size. */
  datatype Question = Question(call: Option<string>, numberExisting: int)

  /** What the evaluation reads from a conversation. `kind` is the detail category's cardinality. */
  datatype ScoredConversation = ScoredConversation(
    kind: string, equal: Question, negateCount: int, negate: Question, different: Question)

  /** The `correct_tool` flags written for the three questions. */
  datatype Correctness = Correctness(equal: bool, negate: bool, different: bool)

  datatype QuestionKind = Equal | Negate | Different

  /** The tool `correct_tool` expects for a question, for MP and MNP alike. */
  function Expected(q: QuestionKind): string {
    match q
    case Equal => PassPreference
    case Negate => UpdatePreference
    case Different => AppendPreference
  }

  /** The tool the accuracy scores expect: for MNP, a different preference is expected to update. */
  function AccuracyExpected(kind: string, q: QuestionKind): string {
    if kind != Mp && q == Different then UpdatePreference else Expected(q)
  }

  /** The flags `correct_tool` should get: each call compared with its question's expected tool. */
  function Flags(c: ScoredConversation): Correctness {
    Correctness(
      c.equal.call == Some(Expected(Equal)),
      c.negate.call == Some(Expected(Negate)),
      c.different.call == Some(Expected(Different)))
  }

  /** The three `correct_tool` flags of one conversation, each set by its own comparison. */
  method Correct(c: ScoredConversation) returns (r: Correctness)
    ensures r.equal <==> c.equal.call == Some(PassPreference)
    ensures r.negate <==> c.negate.call == Some(UpdatePreference)
    ensures r.different <==> c.different.call == Some(AppendPreference)
    ensures r == Flags(c)
  {
    var correctTool: bool;
    if c.equal.call == Some(PassPreference) {
      correctTool := true;
    } else {
      correctTool := false;
    }
    r := Correctness(correctTool, false, false);
    if c.negate.call == Some(UpdatePreference) {
      correctTool := true;
    } else {
      correctTool := false;
    }
    r := r.(negate := correctTool);
    if c.different.call == Some(AppendPreference) {
      correctTool := true;
    } else {
      correctTool := false;
    }
    r := r.(different := correctTool);
  }

  /** The tool calls of one cardinality, one list per question. */
  datatype Filed = Filed(equal: seq<Option<string>>, negate: seq<Option<string>>, different: seq<Option<string>>) {
    predicate Aligned(n: nat) {
      |equal| == n && |negate| == n && |different| == n
    }

    function Add(c: ScoredConversation): Filed {
      Filed(equal + [c.equal.call], negate + [c.negate.call], different + [c.different.call])
    }
  }

  /** The bucket sizes one conversation records: three, or two when the negate question is invalid. */
  function BucketSizes(c: ScoredConversation): (r: seq<int>)
    ensures |r| == if c.negateCount == 1 then 3 else 2
    ensures forall i :: 0 <= i < |r| ==> r[i] == c.equal.numberExisting
  {
    Repeat(c.equal.numberExisting, if c.negateCount == 1 then 3 else 2)
  }

  /** The running values of the evaluation. */
  datatype Running = Running(
    mp: Filed, mnp: Filed, existing: seq<int>, invalidNegate: nat, total: nat, correctness: seq<Correctness>)

  /**
   * The three lists of each cardinality grow together, every conversation
   * is filed under exactly one cardinality and receives its flags, and the
   * bucket sizes number three per conversation less one per invalid
   * negate question.
   */
  predicate Consistent(t: Running) {
    && t.mp.Aligned(|t.mp.equal|) && t.mnp.Aligned(|t.mnp.equal|)
    && |t.mp.equal| + |t.mnp.equal| == t.total == |t.correctness|
    && t.invalidNegate <= t.total
    && |t.existing| == 3 * t.total - t.invalidNegate
  }

  /** The values before the first conversation: every list empty and every counter zero. */
  function Start(): Running {
    Running(Filed([], [], []), Filed([], [], []), [], 0, 0, [])
  }

  /**
   * The values after one more conversation: its calls filed under its
   * cardinality, its bucket sizes and flags appended, the invalid-negate
   * counter raised without exactly one negate extraction.
   */
  function Scored(t: Running, c: ScoredConversation): Running {
    Running(
      if c.kind == Mp then t.mp.Add(c) else t.mp,
      if c.kind == Mp then t.mnp else t.mnp.Add(c),
      t.existing + BucketSizes(c),
      t.invalidNegate + (if c.negateCount == 1 then 0 else 1),
      t.total + 1,
      t.correctness + [Flags(c)])
  }

  /** Scoring one more conversation keeps the invariant. */
  lemma {:induction false} ScoredConsistent(t: Running, c: ScoredConversation)
    requires Consistent(t)
    ensures Consistent(Scored(t, c))
  {
    assert |BucketSizes(c)| == if c.negateCount == 1 then 3 else 2;
  }

  /** The values after scoring the conversations in order. */
  function ScoredAll(t: Running, convs: seq<ScoredConversation>): Running {
    if |convs| == 0 then t else Scored(ScoredAll(t, convs[..|convs| - 1]), convs[|convs| - 1])
  }

  /** The values after scoring every conversation of every line, line by line. */
  function ScoredLines(t: Running, lines: seq<seq<ScoredConversation>>): Running {
    if |lines| == 0 then t else ScoredAll(ScoredLines(t, lines[..|lines| - 1]), lines[|lines| - 1])
  }

  /** The flags of the conversations, in order. */
  function AllFlags(convs: seq<ScoredConversation>): (r: seq<Correctness>)
    ensures |r| == |convs| && forall i :: 0 <= i < |convs| ==> r[i] == Flags(convs[i])
  {
    seq(|convs|, i requires 0 <= i < |convs| => Flags(convs[i]))
  }

  /**
   * Scoring conversations keeps the invariant, counts each of them once
   * and appends exactly their flags, in order, after the earlier ones.
   */
  lemma {:induction false} ScoredAllContents(t: Running, convs: seq<ScoredConversation>)
    requires Consistent(t)
    ensures Consistent(ScoredAll(t, convs))
    ensures ScoredAll(t, convs).total == t.total + |convs|
    ensures ScoredAll(t, convs).correctness == t.correctness + AllFlags(convs)
  {
    if |convs| > 0 {
      var init := convs[..|convs| - 1];
      ScoredAllContents(t, init);
      ScoredConsistent(ScoredAll(t, init), convs[|convs| - 1]);
      assert AllFlags(convs) == AllFlags(init) + [Flags(convs[|convs| - 1])];
    }
  }

  /** Scoring lines keeps the invariant and counts every conversation of every line. */
  lemma {:induction false} ScoredLinesConsistent(t: Running, lines: seq<seq<ScoredConversation>>)
    requires Consistent(t)
    ensures Consistent(ScoredLines(t, lines))
    ensures ScoredLines(t, lines).total == t.total + Sum(lines, Length)
  {
    if |lines| > 0 {
      ScoredLinesConsistent(t, lines[..|lines| - 1]);
      ScoredAllContents(ScoredLines(t, lines[..|lines| - 1]), lines[|lines| - 1]);
    }
  }

  /** A conversation is filed under MP exactly when its cardinality is "MP", and then only there. */
  lemma {:induction false} ScoredFilesOnce(t: Running, c: ScoredConversation)
    ensures |Scored(t, c).mp.equal| == |t.mp.equal| + (if c.kind == Mp then 1 else 0)
    ensures |Scored(t, c).mnp.equal| == |t.mnp.equal| + (if c.kind == Mp then 0 else 1)
    ensures c.kind == Mp ==> Scored(t, c).mp.equal[|t.mp.equal|] == c.equal.call
    ensures c.kind != Mp ==> Scored(t, c).mnp.equal[|t.mnp.equal|] == c.equal.call
  {
  }

  class MaintenanceEvaluation {
    var mp: Filed
    var mnp: Filed
    /** `mean_existing_preferences` before averaging. */
    var existing: seq<int>
    var invalidNegate: nat
    var total: nat
    var correctness: seq<Correctness>

    /** The running values held in the fields. */
    function Current(): Running
      reads this
    {
      Running(mp, mnp, existing, invalidNegate, total, correctness)
    }

    predicate Valid()
      reads this
    {
      Consistent(Current())
    }

    constructor ()
      ensures Valid() && Current() == Start()
    {
      mp, mnp := Filed([], [], []), Filed([], [], []);
      existing, invalidNegate, total, correctness := [], 0, 0, [];
    }

    /** Scores one conversation. */
    method ScoreConversation(c: ScoredConversation)
      requires Valid()
      modifies this
      ensures Valid() && Current() == Scored(old(Current()), c)
    {
      total := total + 1;
      existing := existing + [c.equal.numberExisting];
      if c.negateCount == 1 {
        existing := existing + [c.equal.numberExisting];
      } else {
        invalidNegate := invalidNegate + 1;
      }
      existing := existing + [c.equal.numberExisting];
      assert existing == old(existing) + BucketSizes(c);
      if c.kind == Mp {
        mp := Filed(mp.equal + [c.equal.call], mp.negate + [c.negate.call], mp.different + [c.different.call]);
      } else {
        mnp := Filed(mnp.equal + [c.equal.call], mnp.negate + [c.negate.call], mnp.different + [c.different.call]);
      }
      var flags := Correct(c);
      correctness := correctness + [flags];
      ScoredConsistent(old(Current()), c);
    }

    /** Scores the conversations of one line in order. */
    method ScoreLine(convs: seq<ScoredConversation>)
      requires Valid()
      modifies this
      ensures Valid() && Current() == ScoredAll(old(Current()), convs)
    {
      for j := 0 to |convs|
        invariant Valid() && Current() == ScoredAll(old(Current()), convs[..j])
      {
        assert convs[..j + 1][..j] == convs[..j];
        ScoreConversation(convs[j]);
      }
      assert convs[..|convs|] == convs;
    }

    /** Scores the lines one after the other. */
    method ScoreLines(lines: seq<seq<ScoredConversation>>)
      requires Valid()
      modifies this
      ensures Valid() && Current() == ScoredLines(old(Current()), lines)
    {
      for i := 0 to |lines|
        invariant Valid() && Current() == ScoredLines(old(Current()), lines[..i])
      {
        assert lines[..i + 1][..i] == lines[..i];
        ScoreLine(lines[i]);
      }
      assert lines[..|lines|] == lines;
    }
  }

  /** The evaluation over all lines: every conversation of every line is scored, from the empty start. */
  method EvaluateMaintenance(lines: seq<seq<ScoredConversation>>) returns (eval: MaintenanceEvaluation)
    ensures fresh(eval) && eval.Valid() && eval.Current() == ScoredLines(Start(), lines)
    ensures eval.total == Sum(lines, Length)
  {
    eval := new MaintenanceEvaluation();
    eval.ScoreLines(lines);
    ScoredLinesConsistent(Start(), lines);
  }

  function Length(convs: seq<ScoredConversation>): nat {
    |convs|
  }

  // ------------------------------------------------------ final scores

  /** The predictions that are not None, in order (the negate lists before scoring). */
  function Present(xs: seq<Option<string>>): (r: seq<string>)
    ensures |r| <= |xs|
    ensures forall y :: y in r <==> Some(y) in xs
    ensures forall y :: multiset(r)[y] == multiset(xs)[Some(y)]
  {
    if |xs| == 0 then []
    else
      assert xs == xs[..|xs| - 1] + [xs[|xs| - 1]];
      Present(xs[..|xs| - 1]) + match xs[|xs| - 1] { case None => [] case Some(y) => [y] }
  }

  /** How many predictions are the given tool: the numerator of an accuracy score. */
  function Hits(expected: string, xs: seq<Option<string>>): (n: nat)
    ensures n <= |xs|
  {
    if |xs| == 0 then 0 else Hits(expected, xs[..|xs| - 1]) + if xs[|xs| - 1] == Some(expected) then 1 else 0
  }

  /** Hits counts exactly the positions holding the tool. */
  lemma {:induction false} HitsCount(expected: string, xs: seq<Option<string>>)
    ensures Hits(expected, xs) == 0 <==> Some(expected) !in xs
    ensures Hits(expected, xs) == |xs| <==> forall i :: 0 <= i < |xs| ==> xs[i] == Some(expected)
  {
    if |xs| > 0 {
      var init := xs[..|xs| - 1];
      HitsCount(expected, init);
      assert xs == init + [xs[|xs| - 1]];
      if Hits(expected, xs) == |xs| {
        assert Hits(expected, init) == |init|;
      }
    }
  }

  /**
   * `custom_accuracy_different_mp`'s numerator: predictions that update or
   * append, whatever the expected labels say.
   */
  method CustomHits(yTrue: seq<string>, yPred: seq<Option<string>>) returns (correct: nat)
    ensures var n := if |yTrue| < |yPred| then |yTrue| else |yPred|;
      correct == Hits(UpdatePreference, yPred[..n]) + Hits(AppendPreference, yPred[..n])
  {
    correct := 0;
    var n := if |yTrue| < |yPred| then |yTrue| else |yPred|;
    for i := 0 to n
      invariant correct == Hits(UpdatePreference, yPred[..i]) + Hits(AppendPreference, yPred[..i])
    {
      assert yPred[..i + 1][..i] == yPred[..i];
      if yPred[i] == Some(UpdatePreference) || yPred[i] == Some(AppendPreference) {
        correct := correct + 1;
      }
    }
  }

  /** The lenient MP score never falls below the plain one and never exceeds the number of predictions. */
  lemma {:induction false} CustomHitsBounds(xs: seq<Option<string>>)
    ensures Hits(AppendPreference, xs) <= Hits(UpdatePreference, xs) + Hits(AppendPreference, xs) <= |xs|
  {
    HitsDisjoint(UpdatePreference, AppendPreference, xs);
  }

  lemma {:induction false} HitsDisjoint(a: string, b: string, xs: seq<Option<string>>)
    requires a != b
    ensures Hits(a, xs) + Hits(b, xs) <= |xs|
  {
    if |xs| > 0 {
      HitsDisjoint(a, b, xs[..|xs| - 1]);
    }
  }

  /** The integer parts of the final scores. */
  datatype Summary = Summary(
    invalidNegate: nat, total: nat,
    mpConvs: nat, mpNegateQuestions: nat, mpEqualHits: nat, mpNegateHits: nat, mpDifferentHits: nat,
    mnpConvs: nat, mnpNegateQuestions: nat, mnpEqualHits: nat, mnpNegateHits: nat, mnpDifferentHits: nat)

  /** Accuracies compare against the expected tool; negate lists are scored without their None entries. */
  function Summarize(eval: MaintenanceEvaluation): Summary
    reads eval
  {
    var mpNegate := Present(eval.mp.negate);
    var mnpNegate := Present(eval.mnp.negate);
    Summary(
      eval.invalidNegate, eval.total,
      |eval.mp.equal|, |mpNegate|,
      Hits(AccuracyExpected(Mp, Equal), eval.mp.equal),
      Hits(AccuracyExpected(Mp, Negate), Somes(mpNegate)),
      Hits(AccuracyExpected(Mp, Different), eval.mp.different),
      |eval.mnp.equal|, |mnpNegate|,
      Hits(AccuracyExpected("MNP", Equal), eval.mnp.equal),
      Hits(AccuracyExpected("MNP", Negate), Somes(mnpNegate)),
      Hits(AccuracyExpected("MNP", Different), eval.mnp.different))
  }

  function Somes(xs: seq<string>): (r: seq<Option<string>>)
    ensures |r| == |xs| && forall i :: 0 <= i < |xs| ==> r[i] == Some(xs[i])
  {
    seq(|xs|, i requires 0 <= i < |xs| => Some(xs[i]))
  }

  /** Every score's numerator is bounded by its number of questions; the conversations split into MP and MNP. */
  lemma {:induction false} SummaryBounds(eval: MaintenanceEvaluation)
    requires eval.Valid()
    ensures var s := Summarize(eval);
      && s.mpConvs + s.mnpConvs == s.total
      && s.mpEqualHits <= s.mpConvs && s.mpNegateHits <= s.mpNegateQuestions <= s.mpConvs
      && s.mpDifferentHits <= s.mpConvs
      && s.mnpEqualHits <= s.mnpConvs && s.mnpNegateHits <= s.mnpNegateQuestions <= s.mnpConvs
      && s.mnpDifferentHits <= s.mnpConvs
      && s.invalidNegate <= s.total
  {
  }

  /**
   * The two MNP expectations disagree on the different question: an update
   * counts for the accuracy but is not the correct tool, an append the
   * other way round; for MP they agree.
   */
  lemma {:induction false} MnpDifferentExpectationsDisagree(kind: string)
    ensures kind != Mp ==> AccuracyExpected(kind, Different) == UpdatePreference != Expected(Different)
    ensures kind == Mp ==> forall q :: AccuracyExpected(kind, q) == Expected(q)
  {
  }

  // ------------------------------------------------------ tally matrices

  /** The column of a predicted tool; anything else is a KeyError. */
  function PredictedColumn(p: Option<string>): (r: Result<nat>)
    ensures r.Ok? <==> p == Some(PassPreference) || p == Some(UpdatePreference) || p == Some(AppendPreference)
    ensures r.Ok? ==> r.value < 3 && LabelName(r.value + 1) == p.value
  {
    match p
    case None => Err(KeyError("None"))
    case Some(name) =>
      if name == PassPreference then Ok(0)
      else if name == UpdatePreference then Ok(1)
      else if name == AppendPreference then Ok(2)
      else Err(KeyError(name))
  }

  /** A pair is tallied only when its prediction has a column inside the matrix. */
  predicate Fits(p: Option<string>, cols: nat) {
    PredictedColumn(p).Ok? && PredictedColumn(p).value < cols
  }

  /** The (true row, prediction) pairs: equal as row 0, non-None negate as row 1, different as row 2. */
  function TallyPairs(equal: seq<Option<string>>, negate: seq<string>, different: seq<Option<string>>)
    : (r: seq<(nat, Option<string>)>)
    ensures |r| == |equal| + |negate| + |different|
    ensures forall i :: 0 <= i < |r| ==> r[i].0 < 3
  {
    seq(|equal|, i requires 0 <= i < |equal| => (0, equal[i]))
    + seq(|negate|, i requires 0 <= i < |negate| => (1, Some(negate[i])))
    + seq(|different|, i requires 0 <= i < |different| => (2, different[i]))
  }

  /** How many pairs fall in cell (row, col). */
  function Cell(pairs: seq<(nat, Option<string>)>, row: nat, col: nat): nat {
    if |pairs| == 0 then 0
    else
      var last := pairs[|pairs| - 1];
      Cell(pairs[..|pairs| - 1], row, col) + if last.0 == row && PredictedColumn(last.1) == Ok(col) then 1 else 0
  }

  /**
   * The tally loop over a zero matrix of 3 rows and `cols` columns: each
   * pair adds one to its cell; a prediction without a column is a KeyError
   * and one past the last column an IndexError.
   */
  method Tally(pairs: seq<(nat, Option<string>)>, cols: nat) returns (r: Result<array2<nat>>)
    requires forall i :: 0 <= i < |pairs| ==> pairs[i].0 < 3
    ensures r.Err? <==> exists i :: 0 <= i < |pairs| && !Fits(pairs[i].1, cols)
    ensures r.Ok? ==> fresh(r.value) && r.value.Length0 == 3 && r.value.Length1 == cols
    ensures r.Ok? ==> forall a, b :: 0 <= a < 3 && 0 <= b < cols ==> r.value[a, b] == Cell(pairs, a, b)
  {
    var m := new nat[3, cols]((a, b) => 0);
    for i := 0 to |pairs|
      invariant forall j :: 0 <= j < i ==> Fits(pairs[j].1, cols)
      invariant forall a, b :: 0 <= a < 3 && 0 <= b < cols ==> m[a, b] == Cell(pairs[..i], a, b)
    {
      assert pairs[..i + 1][..i] == pairs[..i];
      var col := PredictedColumn(pairs[i].1);
      if col.Err? {
        return Err(col.error);
      }
      if col.value >= cols {
        return Err(IndexError(col.value));
      }
      var row := pairs[i].0;
      m[row, col.value] := m[row, col.value] + 1;
    }
    assert pairs[..|pairs|] == pairs;
    r := Ok(m);
  }

  /** The cells of one row up to column `cols`. */
  function RowTotal(pairs: seq<(nat, Option<string>)>, row: nat, cols: nat): nat {
    if cols == 0 then 0 else RowTotal(pairs, row, cols - 1) + Cell(pairs, row, cols - 1)
  }

  function GridTotal(pairs: seq<(nat, Option<string>)>, cols: nat): nat {
    RowTotal(pairs, 0, cols) + RowTotal(pairs, 1, cols) + RowTotal(pairs, 2, cols)
  }

  lemma {:induction false} RowTotalStep(pairs: seq<(nat, Option<string>)>, x: (nat, Option<string>), row: nat, cols: nat)
    ensures RowTotal(pairs + [x], row, cols) ==
      RowTotal(pairs, row, cols) + if x.0 == row && Fits(x.1, cols) then 1 else 0
  {
    assert (pairs + [x])[..|pairs|] == pairs;
    if cols > 0 {
      RowTotalStep(pairs, x, row, cols - 1);
    }
  }

  /** When every prediction fits, the cells add up to the number of pairs. */
  lemma {:induction false} TallyTotal(pairs: seq<(nat, Option<string>)>, cols: nat)
    requires forall i :: 0 <= i < |pairs| ==> pairs[i].0 < 3 && Fits(pairs[i].1, cols)
    ensures GridTotal(pairs, cols) == |pairs|
  {
    if |pairs| > 0 {
      var init, x := pairs[..|pairs| - 1], pairs[|pairs| - 1];
      TallyTotal(init, cols);
      assert pairs == init + [x];
      RowTotalStep(init, x, 0, cols);
      RowTotalStep(init, x, 1, cols);
      RowTotalStep(init, x, 2, cols);
    } else {
      RowTotalZero(pairs, 0, cols);
      RowTotalZero(pairs, 1, cols);
      RowTotalZero(pairs, 2, cols);
    }
  }

  lemma {:induction false} RowTotalZero(pairs: seq<(nat, Option<string>)>, row: nat, cols: nat)
    requires |pairs| == 0
    ensures RowTotal(pairs, row, cols) == 0
  {
    if cols > 0 {
      RowTotalZero(pairs, row, cols - 1);
    }
  }

  /**
   * The MNP matrix has two columns, so an append prediction anywhere in
   * the MNP lists stops the tally, while the three-column MP matrix takes
   * every pass, update and append prediction.
   */
  lemma {:induction false} MnpTallyRejectsAppend(equal: seq<Option<string>>, negate: seq<string>, different: seq<Option<string>>, i: nat)
    requires i < |different| && different[i] == Some(AppendPreference)
    ensures exists k :: 0 <= k < |TallyPairs(equal, negate, different)| && !Fits(TallyPairs(equal, negate, different)[k].1, 2)
  {
    var pairs := TallyPairs(equal, negate, different);
    assert pairs[|equal| + |negate| + i] == (2, different[i]);
  }

  lemma {:induction false} ThreeColumnsFit(p: Option<string>)
    requires p == Some(PassPreference) || p == Some(UpdatePreference) || p == Some(AppendPreference)
    ensures Fits(p, 3) && (Fits(p, 2) <==> p != Some(AppendPreference))
  {
  }
}
