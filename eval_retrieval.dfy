/**
 * The retrieval evaluation: for every conversation whose detail category
 * was extracted perfectly, the preferences stored for the user in the same
 * subcategory are counted (n), and the hits of the similarity search for
 * the next conversation question are scored on their first n, n + 1 and
 * n + 2 entries: how many are in the subcategory, and whether the
 * conversation's own preference is among them. The search itself, the
 * embedding and the final floating-point means are inputs or left out.
 */
module RetrievalEval {
  import opened Wrappers
  import opened Strings
  import opened Taxonomy
  import opened CategoryLabels
  import opened PydCategory
  import opened PreferenceStore
  import opened PreferenceString

  /** One search hit: its id, the stored preference it returns, and that preference's vector. */
  datatype Hit = Hit(id: string, entity: Record, vector: Option<seq<real>>)

  /**
   * What the evaluation reads from one conversation. `detailAccuracy` is
   * None when the extraction or its evaluation is missing (a KeyError);
   * `hits` is the search result for the next conversation question.
   */
  datatype RetrievalConversation = RetrievalConversation(
    detailAccuracy: Option<real>, uuid: string, userPreference: string, hits: seq<Hit>)

  /** One input line: the user and the conversations. */
  datatype RetrievalLine = RetrievalLine(user: string, data: seq<RetrievalConversation>)

  /** The `evaluation_next_conversation_question_embedding` entry written for a conversation. */
  datatype RetrievalRecord = RetrievalRecord(
    numberSame: nat, retrievedIds: seq<string>, topP2: seq<Hit>,
    foundTop: bool, ratio: Ratio, foundP1: bool, ratioP1: Ratio, foundP2: bool, ratioP2: Ratio)

  function Min(a: nat, b: nat): nat {
    if a < b then a else b
  }

  /** The hits a top-k window looks at: the first k, or all when there are fewer. */
  function Window(hits: seq<Hit>, k: nat): (w: seq<Hit>)
    ensures |w| == Min(k, |hits|) && w == hits[..|w|]
  {
    hits[..Min(k, |hits|)]
  }

  function Ids(hits: seq<Hit>): (r: seq<string>)
    ensures |r| == |hits| && forall i :: 0 <= i < |hits| ==> r[i] == hits[i].id
  {
    seq(|hits|, i requires 0 <= i < |hits| => hits[i].id)
  }

  /** How many hits return a preference of the subcategory. */
  function Relevant(hits: seq<Hit>, sub: string): (n: nat)
    ensures n <= |hits|
  {
    if |hits| == 0 then 0
    else Relevant(hits[..|hits| - 1], sub) + if hits[|hits| - 1].entity.subcategory == sub then 1 else 0
  }

  /** Whether the conversation's own preference is among the first k hits. */
  predicate Found(hits: seq<Hit>, k: nat, uuid: string) {
    uuid in Ids(Window(hits, k))
  }

  /**
   * One top-k loop: the zip of the first k ids with the hits, counting
   * hits in and out of the subcategory and flagging the conversation's id.
   */
  method ScoreWindow(hits: seq<Hit>, k: nat, uuid: string, sub: string)
    returns (relevant: nat, irrelevant: nat, found: bool)
    ensures relevant == Relevant(Window(hits, k), sub)
    ensures relevant + irrelevant == Min(k, |hits|)
    ensures found <==> Found(hits, k, uuid)
  {
    var ids := Ids(hits)[..Min(k, |hits|)];
    relevant, irrelevant, found := 0, 0, false;
    for i := 0 to |ids|
      invariant relevant == Relevant(hits[..i], sub) && relevant + irrelevant == i
      invariant found <==> uuid in ids[..i]
    {
      assert hits[..i + 1][..i] == hits[..i];
      if hits[i].entity.subcategory == sub {
        relevant := relevant + 1;
      } else {
        irrelevant := irrelevant + 1;
      }
      if ids[i] == uuid {
        found := true;
      }
      assert ids[..i + 1] == ids[..i] + [ids[i]];
    }
    assert ids[..|ids|] == ids == Ids(Window(hits, k));
  }

  /** A larger window sees every hit of a smaller one: found stays found, relevant hits only grow. */
  lemma {:induction false} WindowMonotone(hits: seq<Hit>, k: nat, k2: nat, uuid: string, sub: string)
    requires k <= k2
    ensures Found(hits, k, uuid) ==> Found(hits, k2, uuid)
    ensures Relevant(Window(hits, k), sub) <= Relevant(Window(hits, k2), sub)
  {
    var w, w2 := Window(hits, k), Window(hits, k2);
    assert w == w2[..|w|];
    if Found(hits, k, uuid) {
      var i :| 0 <= i < |w| && Ids(w)[i] == uuid;
      assert Ids(w2)[i] == uuid;
    }
    RelevantPrefix(w2, |w|, sub);
  }

  lemma {:induction false} RelevantPrefix(hits: seq<Hit>, j: nat, sub: string)
    requires j <= |hits|
    ensures Relevant(hits[..j], sub) <= Relevant(hits, sub)
    decreases |hits|
  {
    if j < |hits| {
      assert hits[..j] == hits[..|hits| - 1][..j];
      RelevantPrefix(hits[..|hits| - 1], j, sub);
    } else {
      assert hits[..j] == hits;
    }
  }

  /**
   * A ratio slot: the integer 0 it is created with, or the relevant hits
   * of a window over the window's size k (the division is kept exact).
   */
  datatype Ratio = Unset | Quotient(relevant: nat, size: nat) {
    /** A quotient between 0 and 1 with a non-zero divisor. */
    predicate Proper() {
      Quotient? && 0 < size && relevant <= size
    }
  }

  /** The recorded hits lose their vectors; ids and preferences stay. */
  method ClearVectors(hits: seq<Hit>) returns (r: seq<Hit>)
    ensures |r| == |hits|
    ensures forall i :: 0 <= i < |r| ==> r[i].vector.None? && r[i].id == hits[i].id && r[i].entity == hits[i].entity
  {
    r := hits;
    for i := 0 to |r|
      invariant |r| == |hits|
      invariant forall j :: 0 <= j < i ==> r[j] == hits[j].(vector := None)
      invariant forall j :: i <= j < |r| ==> r[j] == hits[j]
    {
      r := r[i := r[i].(vector := None)];
    }
  }

  /**
   * The subcategory key of a conversation: the second `;`-piece of its
   * preference string, stripped and mapped to its field key; a string
   * without a `;` fails at index 1.
   */
  function SubcategoryKey(userPreference: string): Result<string> {
    var pieces := Split(userPreference, ";");
    if |pieces| < 2 then Err(IndexError(1)) else SubToPyd(Strip(pieces[1]))
  }

  /** Round trip: the key read back from an encoded preference string is the key of its subcategory. */
  lemma {:induction false} SubcategoryKeyOfEncoding(main: string, s: Sub, detail: string, attributes: string)
    requires ';' !in main && Clean(SubDisplay(s)) && ';' !in detail && ';' !in attributes
    ensures SubcategoryKey(UserPreference(main, SubDisplay(s), detail, attributes)) == Ok(SubKey(s))
  {
    var u := UserPreference(main, SubDisplay(s), detail, attributes);
    SplitUserPreference(main, SubDisplay(s), detail, attributes);
    assert Split(u, ";")[1] == " " + SubDisplay(s);
    StripSpaceFront(SubDisplay(s));
    StripTrimmed(SubDisplay(s));
    PydOfSubDisplay(s);
  }

  /** The number of stored preferences of the user in the subcategory (the count query). */
  function SameSubcategory(rows: seq<Record>, user: string, sub: string): (n: nat)
    ensures n <= |rows|
  {
    if |rows| == 0 then 0
    else
      var last := rows[|rows| - 1];
      SameSubcategory(rows[..|rows| - 1], user, sub) + if last.userName == user && last.subcategory == sub then 1 else 0
  }

  /** How many flags are set: an accuracy's numerator. */
  function Count(bs: seq<bool>): (n: nat)
    ensures n <= |bs|
  {
    if |bs| == 0 then 0 else Count(bs[..|bs| - 1]) + if bs[|bs| - 1] then 1 else 0
  }

  /** Flags that imply other flags pointwise are never more numerous. */
  lemma {:induction false} CountImplied(a: seq<bool>, b: seq<bool>)
    requires |a| == |b| && forall i :: 0 <= i < |a| ==> a[i] ==> b[i]
    ensures Count(a) <= Count(b)
  {
    if |a| > 0 {
      CountImplied(a[..|a| - 1], b[..|b| - 1]);
    }
  }

  /** Each flag implies the next one, position by position. */
  predicate Implies(a: seq<bool>, b: seq<bool>) {
    |a| == |b| && forall i :: 0 <= i < |a| ==> a[i] ==> b[i]
  }

  predicate UnitRatios(rs: seq<Ratio>) {
    forall i :: 0 <= i < |rs| ==> rs[i].Proper()
  }

  /** The running values of the evaluation. */
  datatype Running = Running(
    foundTop: seq<bool>, foundP1: seq<bool>, foundP2: seq<bool>, totalSame: nat, totalQuestions: nat,
    ratios: seq<Ratio>, ratiosP1: seq<Ratio>, ratiosP2: seq<Ratio>, records: seq<RetrievalRecord>)

  /**
   * One entry per scored question in every list; found in the top n
   * implies found in the top n + 1, which implies found in the top
   * n + 2; every ratio lies between 0 and 1; and each record carries its
   * question's flags and, as its ratio, the n + 2 ratio.
   */
  predicate Coherent(t: Running) {
    && |t.records| == t.totalQuestions
    && Consistent(t.foundTop, t.foundP1, t.foundP2, t.ratios, t.ratiosP1, t.ratiosP2, t.records)
  }

  /** The values before the first line: every list empty and both totals zero. */
  function Start(): Running {
    Running([], [], [], 0, 0, [], [], [], [])
  }

  /** The values after one more scored question: every list gets its entry and both totals grow. */
  function Added(t: Running, q: Scoring): Running {
    Running(
      t.foundTop + [q.record.foundTop], t.foundP1 + [q.record.foundP1], t.foundP2 + [q.record.foundP2],
      t.totalSame + q.record.numberSame, t.totalQuestions + 1,
      t.ratios + [q.ratio], t.ratiosP1 + [q.ratio1], t.ratiosP2 + [q.record.ratio], t.records + [q.record])
  }

  /** Adding a proper question keeps the invariant. */
  lemma {:induction false} AddedCoherent(t: Running, q: Scoring)
    requires Coherent(t) && q.Proper()
    ensures Coherent(Added(t, q))
  {
    ConsistentAppend(t.foundTop, t.foundP1, t.foundP2, t.ratios, t.ratiosP1, t.ratiosP2, t.records, q.record, q.ratio, q.ratio1);
  }

  /** The values after a conversation: scored when its detail accuracy is perfect, untouched otherwise. */
  function ScoredIfPerfect(t: Running, c: RetrievalConversation, user: string, rows: seq<Record>): Result<Running> {
    if c.detailAccuracy != Some(1.0) then Ok(t)
    else
      match QuestionScoring(c, user, rows)
      case Err(err) => Err(err)
      case Ok(q) => Ok(Added(t, q))
  }

  /**
   * The values after the conversations of a line, in order, up to the
   * first one without an extraction, or the first error met.
   */
  function ScoredConversations(t: Running, convs: seq<RetrievalConversation>, user: string, rows: seq<Record>): Result<Running>
    decreases |convs|
  {
    if |convs| == 0 || convs[0].detailAccuracy.None? then Ok(t)
    else
      match ScoredIfPerfect(t, convs[0], user, rows)
      case Err(err) => Err(err)
      case Ok(next) => ScoredConversations(next, convs[1..], user, rows)
  }

  /** The values after scoring the lines one after another, or the first error met. */
  function ScoredLines(t: Running, lines: seq<RetrievalLine>, rows: seq<Record>): Result<Running> {
    if |lines| == 0 then Ok(t)
    else
      match ScoredLines(t, lines[..|lines| - 1], rows)
      case Err(err) => Err(err)
      case Ok(before) => ScoredConversations(before, lines[|lines| - 1].data, lines[|lines| - 1].user, rows)
  }

  /** Scored conversations keep the invariant. */
  lemma {:induction false} ScoredConversationsCoherent(t: Running, convs: seq<RetrievalConversation>, user: string, rows: seq<Record>)
    requires Coherent(t)
    ensures ScoredConversations(t, convs, user, rows).Ok? ==> Coherent(ScoredConversations(t, convs, user, rows).value)
    decreases |convs|
  {
    if |convs| > 0 && convs[0].detailAccuracy.Some? {
      var next := ScoredIfPerfect(t, convs[0], user, rows);
      if next.Ok? {
        if convs[0].detailAccuracy == Some(1.0) {
          QuestionScoringProper(convs[0], user, rows);
          AddedCoherent(t, QuestionScoring(convs[0], user, rows).value);
        }
        ScoredConversationsCoherent(next.value, convs[1..], user, rows);
      }
    }
  }

  /**
   * The fold of a line succeeds exactly when every perfect conversation
   * before the first one without an extraction is scorable, and then it
   * adds one question per such perfect conversation.
   */
  lemma {:induction false} ScoredConversationsMeaning(t: Running, convs: seq<RetrievalConversation>, user: string, rows: seq<Record>)
    ensures ScoredConversations(t, convs, user, rows).Ok? <==> AllScorable(convs[..Reached(convs)], user, rows)
    ensures ScoredConversations(t, convs, user, rows).Ok? ==>
      ScoredConversations(t, convs, user, rows).value.totalQuestions == t.totalQuestions + Perfect(convs[..Reached(convs)])
    decreases |convs|
  {
    if |convs| == 0 || convs[0].detailAccuracy.None? {
      assert convs[..Reached(convs)] == [];
    } else {
      var c, rest := convs[0], convs[1..];
      assert convs[..Reached(convs)] == [c] + rest[..Reached(rest)];
      AllScorableCons(c, rest[..Reached(rest)], user, rows);
      PerfectCons(c, rest[..Reached(rest)]);
      QuestionScoringProper(c, user, rows);
      var next := ScoredIfPerfect(t, c, user, rows);
      if next.Ok? {
        ScoredConversationsMeaning(next.value, rest, user, rows);
      }
    }
  }

  lemma {:induction false} AllScorableCons(c: RetrievalConversation, rest: seq<RetrievalConversation>, user: string, rows: seq<Record>)
    ensures AllScorable([c] + rest, user, rows) <==>
      (c.detailAccuracy == Some(1.0) ==> Scorable(c, user, rows)) && AllScorable(rest, user, rows)
    decreases |rest|
  {
    if |rest| > 0 {
      assert ([c] + rest)[..|rest|] == [c] + rest[..|rest| - 1];
      AllScorableCons(c, rest[..|rest| - 1], user, rows);
    } else {
      assert ([c] + rest)[..0] == [];
    }
  }

  lemma {:induction false} PerfectCons(c: RetrievalConversation, rest: seq<RetrievalConversation>)
    ensures Perfect([c] + rest) == (if c.detailAccuracy == Some(1.0) then 1 else 0) + Perfect(rest)
    decreases |rest|
  {
    if |rest| > 0 {
      assert ([c] + rest)[..|rest|] == [c] + rest[..|rest| - 1];
      PerfectCons(c, rest[..|rest| - 1]);
    } else {
      assert ([c] + rest)[..0] == [];
    }
  }

  /** Scored lines keep the invariant. */
  lemma {:induction false} ScoredLinesCoherent(t: Running, lines: seq<RetrievalLine>, rows: seq<Record>)
    requires Coherent(t)
    ensures ScoredLines(t, lines, rows).Ok? ==> Coherent(ScoredLines(t, lines, rows).value)
  {
    if |lines| > 0 {
      var before := ScoredLines(t, lines[..|lines| - 1], rows);
      ScoredLinesCoherent(t, lines[..|lines| - 1], rows);
      if before.Ok? {
        ScoredConversationsCoherent(before.value, lines[|lines| - 1].data, lines[|lines| - 1].user, rows);
      }
    }
  }

  /** One more line scored after the first `i`. */
  lemma {:induction false} ScoredLinesSnoc(t: Running, lines: seq<RetrievalLine>, i: nat, rows: seq<Record>)
    requires i < |lines|
    ensures ScoredLines(t, lines[..i + 1], rows) ==
      match ScoredLines(t, lines[..i], rows)
      case Err(err) => Err(err)
      case Ok(before) => ScoredConversations(before, lines[i].data, lines[i].user, rows)
  {
    assert lines[..i + 1][..i] == lines[..i];
  }

  /** An error met in the first `k` lines is the error of all of them: the script stops there. */
  lemma {:induction false} ScoredLinesStop(t: Running, lines: seq<RetrievalLine>, k: nat, rows: seq<Record>)
    requires k <= |lines| && ScoredLines(t, lines[..k], rows).Err?
    ensures ScoredLines(t, lines, rows) == ScoredLines(t, lines[..k], rows)
  {
    if k == |lines| {
      assert lines[..k] == lines;
    } else {
      assert lines[..|lines| - 1][..k] == lines[..k];
      ScoredLinesStop(t, lines[..|lines| - 1], k, rows);
    }
  }

  class RetrievalEvaluation {
    var foundTop: seq<bool>
    var foundP1: seq<bool>
    var foundP2: seq<bool>
    var totalSame: nat
    var totalQuestions: nat
    var ratios: seq<Ratio>
    var ratiosP1: seq<Ratio>
    var ratiosP2: seq<Ratio>
    /** The entries written into the scored conversations, in order. */
    var records: seq<RetrievalRecord>

    /** The running values held in the fields. */
    function Current(): Running
      reads this
    {
      Running(foundTop, foundP1, foundP2, totalSame, totalQuestions, ratios, ratiosP1, ratiosP2, records)
    }

    predicate Valid()
      reads this
    {
      Coherent(Current())
    }

    constructor ()
      ensures Valid() && Current() == Start()
    {
      foundTop, foundP1, foundP2 := [], [], [];
      totalSame, totalQuestions := 0, 0;
      ratios, ratiosP1, ratiosP2 := [], [], [];
      records := [];
    }

    /**
     * Scores one conversation with a perfect detail extraction: on success
     * every list gets the question's entry; on failure nothing changes.
     */
    method ScoreConversation(c: RetrievalConversation, user: string, rows: seq<Record>)
      returns (r: Result<Scoring>)
      requires Valid()
      modifies this
      ensures Valid()
      ensures r == QuestionScoring(c, user, rows)
      ensures r.Err? <==> !Scorable(c, user, rows)
      ensures r.Err? ==> unchanged(this)
      ensures r.Ok? ==> r.value.Describes(c, user, rows)
      ensures r.Ok? ==> Current() == Added(old(Current()), r.value)
    {
      var q := ScoreQuestion(c, user, rows);
      if q.Err? {
        return Err(q.error);
      }
      Add(q.value);
      r := q;
    }

    /** Records a scored question: its count of same-subcategory preferences and its list entries. */
    method Add(q: Scoring)
      requires Valid() && q.Proper()
      modifies this
      ensures Valid() && Current() == Added(old(Current()), q)
    {
      var top, p1, p2, rs, rs1, rs2, recs := AppendQuestion(foundTop, foundP1, foundP2, ratios, ratiosP1, ratiosP2, records, q);
      foundTop, foundP1, foundP2, ratios, ratiosP1, ratiosP2, records, totalSame, totalQuestions :=
        top, p1, p2, rs, rs1, rs2, recs, totalSame + q.record.numberSame, totalQuestions + 1;
      AddedCoherent(old(Current()), q);
    }

    /**
     * Scores a conversation only when its detail accuracy is perfect; any
     * other is skipped. Following conversations `done` that all scored,
     * it fails exactly when `c` is the first that does not.
     */
    method ScoreIfPerfect(c: RetrievalConversation, user: string, rows: seq<Record>, ghost done: seq<RetrievalConversation>)
      returns (err: Option<Error>)
      requires Valid() && AllScorable(done, user, rows)
      modifies this
      ensures Valid()
      ensures err.Some? <==> ScoredIfPerfect(old(Current()), c, user, rows).Err?
      ensures err.Some? ==> err.value == ScoredIfPerfect(old(Current()), c, user, rows).error
      ensures err.None? ==> Current() == ScoredIfPerfect(old(Current()), c, user, rows).value
      ensures err.None? <==> AllScorable(done + [c], user, rows)
      ensures err.None? ==> totalQuestions == old(totalQuestions) + if c.detailAccuracy == Some(1.0) then 1 else 0
    {
      assert (done + [c])[..|done|] == done;
      err := None;
      if c.detailAccuracy == Some(1.0) {
        var r := ScoreConversation(c, user, rows);
        if r.Err? {
          err := Some(r.error);
        }
      }
    }

    /**
     * Scores the conversations of one line: a conversation without an
     * extraction ends the line, one without a perfect detail accuracy is
     * skipped, and the first scoring failure is returned.
     */
    method ScoreLine(line: RetrievalLine, rows: seq<Record>) returns (err: Option<Error>)
      requires Valid()
      modifies this
      ensures Valid()
      ensures err.Some? <==> ScoredConversations(old(Current()), line.data, line.user, rows).Err?
      ensures err.Some? ==> err.value == ScoredConversations(old(Current()), line.data, line.user, rows).error
      ensures err.None? ==> Current() == ScoredConversations(old(Current()), line.data, line.user, rows).value
      ensures err.None? <==> LineScorable(line, rows)
      ensures err.None? ==> totalQuestions == old(totalQuestions) + Questions(line)
    {
      var data := line.data;
      var i := 0;
      err := None;
      while i < |data| && err.None?
        invariant 0 <= i <= |data|
        invariant Valid()
        invariant err.None? ==> ScoredConversations(Current(), data[i..], line.user, rows) == ScoredConversations(old(Current()), data, line.user, rows)
        invariant err.Some? ==> ScoredConversations(old(Current()), data, line.user, rows) == Err(err.value)
      {
        var c := data[i];
        if c.detailAccuracy.None? {
          break;
        }
        assert data[i..][1..] == data[i + 1..];
        err := ScoreIfPerfect(c, line.user, rows, []);
        i := i + 1;
      }
      ScoredConversationsMeaning(old(Current()), data, line.user, rows);
    }

    /** Scores the lines one after the other; the first failure ends the run. */
    method ScoreLines(lines: seq<RetrievalLine>, rows: seq<Record>) returns (err: Option<Error>)
      requires Valid()
      modifies this
      ensures Valid()
      ensures err.Some? <==> ScoredLines(old(Current()), lines, rows).Err?
      ensures err.Some? ==> err.value == ScoredLines(old(Current()), lines, rows).error
      ensures err.None? ==> Current() == ScoredLines(old(Current()), lines, rows).value
      ensures err.None? <==> forall i :: 0 <= i < |lines| ==> LineScorable(lines[i], rows)
      ensures err.None? ==> totalQuestions == old(totalQuestions) + Sum(lines, Questions)
    {
      for i := 0 to |lines|
        invariant Valid() && totalQuestions == old(totalQuestions) + Sum(lines[..i], Questions)
        invariant forall j :: 0 <= j < i ==> LineScorable(lines[j], rows)
        invariant ScoredLines(old(Current()), lines[..i], rows) == Ok(Current())
      {
        assert lines[..i + 1][..i] == lines[..i];
        ScoredLinesSnoc(old(Current()), lines, i, rows);
        err := ScoreLine(lines[i], rows);
        if err.Some? {
          ScoredLinesStop(old(Current()), lines, i + 1, rows);
          return;
        }
      }
      assert lines[..|lines|] == lines;
      err := None;
    }
  }

  /** A scored question: its record and the top-n and top-(n + 1) ratios, which the record does not keep. */
  datatype Scoring = Scoring(record: RetrievalRecord, sub: string, ratio: Ratio, ratio1: Ratio) {
    /**
     * The windows agree: found in the top n implies found in the top
     * n + 1, which implies found in the top n + 2; every ratio is a proper
     * quotient; the record keeps the top-(n + 2) ratio and two unset slots.
     */
    predicate Proper() {
      && (record.foundTop ==> record.foundP1) && (record.foundP1 ==> record.foundP2)
      && ratio.Proper() && ratio1.Proper() && record.ratio.Proper()
      && record.ratioP1 == Unset && record.ratioP2 == Unset
    }

    /**
     * The scoring of conversation `c` of `user` against the stored rows:
     * n is the number of the user's preferences in the conversation's
     * subcategory; the found flags say whether the conversation's id is
     * among the first n, n + 1 and n + 2 hits; the ratios count the hits
     * of the subcategory among them; the record keeps every hit id and the
     * first n + 2 hits without their vectors.
     */
    predicate Describes(c: RetrievalConversation, user: string, rows: seq<Record>) {
      && SubcategoryKey(c.userPreference) == Ok(sub)
      && record.numberSame == SameSubcategory(rows, user, sub) && record.numberSame > 0
      && Windows(record, ratio, ratio1, c.hits, sub, c.uuid)
      && record.retrievedIds == Ids(c.hits)
      && RecordedHits(record.topP2, c.hits, record.numberSame + 2)
    }
  }

  /**
   * The scoring of one question. The subcategory key fails as in
   * `SubcategoryKey`, and a user without preferences in the subcategory
   * (n = 0) makes the top-n ratio divide by zero. Otherwise the record
   * holds n, all retrieved ids, the first n + 2 hits without vectors, the
   * three found flags and, in its ratio slot, the last ratio assigned to
   * it, the top-(n + 2) one.
   */
  method ScoreQuestion(c: RetrievalConversation, user: string, rows: seq<Record>) returns (r: Result<Scoring>)
    ensures r == QuestionScoring(c, user, rows)
    ensures r.Err? <==> !Scorable(c, user, rows)
    ensures r.Ok? ==> r.value.Proper()
    ensures r.Ok? ==> r.value.Describes(c, user, rows)
  {
    var key := SubcategoryKey(c.userPreference);
    if key.Err? {
      return Err(key.error);
    }
    var sub := key.value;
    var n := SameSubcategory(rows, user, sub);
    if n == 0 {
      return Err(ZeroDivisionError);
    }
    var q := ScoreWindows(c.hits, n, c.uuid, sub);
    r := Ok(q);
  }

  /**
   * The windows of sizes n, n + 1 and n + 2 of one question's hits: their
   * found flags, their ratios (the record keeping the last one), the
   * retrieved ids and the first n + 2 hits without their vectors.
   */
  method ScoreWindows(hits: seq<Hit>, n: nat, uuid: string, sub: string) returns (q: Scoring)
    requires n > 0
    ensures q.Proper() && q.sub == sub && q.record.numberSame == n
    ensures Windows(q.record, q.ratio, q.ratio1, hits, sub, uuid)
    ensures q.record.retrievedIds == Ids(hits)
    ensures RecordedHits(q.record.topP2, hits, n + 2)
    ensures q == WindowsScoring(hits, n, uuid, sub)
  {
    var retrievedIds := Ids(hits);
    var relevant, irrelevant, found := ScoreWindow(hits, n, uuid, sub);
    var ratio := Quotient(relevant, n);
    var relevant1, irrelevant1, found1 := ScoreWindow(hits, n + 1, uuid, sub);
    var ratio1 := Quotient(relevant1, n + 1);
    var relevant2, irrelevant2, found2 := ScoreWindow(hits, n + 2, uuid, sub);
    var ratio2 := Quotient(relevant2, n + 2);
    var cleared := ClearVectors(hits);
    var record := RetrievalRecord(n, retrievedIds, cleared[..Min(n + 2, |cleared|)], found, ratio2, found1, Unset, found2, Unset);
    Scored(hits, n, uuid, sub);
    assert cleared[..Min(n + 2, |cleared|)] == Cleared(Window(hits, n + 2));
    q := Scoring(record, sub, ratio, ratio1);
  }

  /** The hits without their vectors. */
  function Cleared(hits: seq<Hit>): (r: seq<Hit>)
    ensures |r| == |hits|
    ensures forall i :: 0 <= i < |r| ==> r[i].vector.None? && r[i].id == hits[i].id && r[i].entity == hits[i].entity
  {
    seq(|hits|, i requires 0 <= i < |hits| => hits[i].(vector := None))
  }

  /** The scoring of the windows of sizes n, n + 1 and n + 2 of one question's hits. */
  function WindowsScoring(hits: seq<Hit>, n: nat, uuid: string, sub: string): Scoring {
    Scoring(
      RetrievalRecord(n, Ids(hits), Cleared(Window(hits, n + 2)),
        Found(hits, n, uuid), WindowRatio(hits, sub, n + 2), Found(hits, n + 1, uuid), Unset,
        Found(hits, n + 2, uuid), Unset),
      sub, WindowRatio(hits, sub, n), WindowRatio(hits, sub, n + 1))
  }

  /**
   * The scoring of one question, or the error that stops the script: the
   * subcategory key's, or a division by zero when the user has no
   * preference stored in the subcategory.
   */
  function QuestionScoring(c: RetrievalConversation, user: string, rows: seq<Record>): Result<Scoring> {
    match SubcategoryKey(c.userPreference)
    case Err(err) => Err(err)
    case Ok(sub) =>
      var n := SameSubcategory(rows, user, sub);
      if n == 0 then Err(ZeroDivisionError) else Ok(WindowsScoring(c.hits, n, c.uuid, sub))
  }

  /** A question scores exactly when it is scorable, and its scoring is proper and describes it. */
  lemma {:induction false} QuestionScoringProper(c: RetrievalConversation, user: string, rows: seq<Record>)
    ensures QuestionScoring(c, user, rows).Ok? <==> Scorable(c, user, rows)
    ensures QuestionScoring(c, user, rows).Ok? ==>
      QuestionScoring(c, user, rows).value.Proper() && QuestionScoring(c, user, rows).value.Describes(c, user, rows)
  {
    var key := SubcategoryKey(c.userPreference);
    if key.Ok? && SameSubcategory(rows, user, key.value) > 0 {
      var n := SameSubcategory(rows, user, key.value);
      Scored(c.hits, n, c.uuid, key.value);
      var q := WindowsScoring(c.hits, n, c.uuid, key.value);
      assert |q.record.topP2| == Min(n + 2, |c.hits|);
    }
  }

  /** The flags and ratios of the three windows of sizes n, n + 1 and n + 2, n being the record's count. */
  predicate Windows(record: RetrievalRecord, ratio: Ratio, ratio1: Ratio, hits: seq<Hit>, sub: string, uuid: string) {
    var n := record.numberSame;
    && RecordAgrees(record, Found(hits, n, uuid), Found(hits, n + 1, uuid), Found(hits, n + 2, uuid), WindowRatio(hits, sub, n + 2))
    && ratio == WindowRatio(hits, sub, n)
    && ratio1 == WindowRatio(hits, sub, n + 1)
  }

  /** A conversation that scores without an exception: its key maps and its subcategory holds preferences. */
  predicate Scorable(c: RetrievalConversation, user: string, rows: seq<Record>) {
    SubcategoryKey(c.userPreference).Ok? && SameSubcategory(rows, user, SubcategoryKey(c.userPreference).value) > 0
  }

  /** The ratio of relevant hits among the first k hits of a conversation, for its subcategory. */
  function WindowRatio(hits: seq<Hit>, sub: string, k: nat): (r: Ratio)
    ensures k > 0 ==> r.Proper()
  {
    Quotient(Relevant(Window(hits, k), sub), k)
  }

  /** The recorded hits: the first k (or all) with their vectors dropped. */
  predicate RecordedHits(recorded: seq<Hit>, hits: seq<Hit>, k: nat) {
    && |recorded| == Min(k, |hits|)
    && forall i :: 0 <= i < |recorded| ==>
      recorded[i].vector.None? && recorded[i].id == hits[i].id && recorded[i].entity == hits[i].entity
  }

  /** The three windows of one question agree in the way `Valid` demands. */
  lemma {:induction false} Scored(hits: seq<Hit>, n: nat, uuid: string, sub: string)
    requires n > 0
    ensures Found(hits, n, uuid) ==> Found(hits, n + 1, uuid)
    ensures Found(hits, n + 1, uuid) ==> Found(hits, n + 2, uuid)
  {
    WindowMonotone(hits, n, n + 1, uuid, sub);
    WindowMonotone(hits, n + 1, n + 2, uuid, sub);
  }

  /** Where a line's processing stops: at its first conversation without an extraction. */
  function Reached(convs: seq<RetrievalConversation>): (n: nat)
    ensures n <= |convs|
    ensures forall i :: 0 <= i < n ==> convs[i].detailAccuracy.Some?
    ensures n < |convs| ==> convs[n].detailAccuracy.None?
  {
    if |convs| == 0 || convs[0].detailAccuracy.None? then 0 else 1 + Reached(convs[1..])
  }

  /** How many conversations have a perfect detail accuracy. */
  function Perfect(convs: seq<RetrievalConversation>): (n: nat)
    ensures n <= |convs|
  {
    if |convs| == 0 then 0
    else Perfect(convs[..|convs| - 1]) + if convs[|convs| - 1].detailAccuracy == Some(1.0) then 1 else 0
  }

  /** The questions a line contributes: its perfect conversations before the first missing extraction. */
  function Questions(line: RetrievalLine): nat {
    Perfect(line.data[..Reached(line.data)])
  }

  /** Every conversation the line scores scores without an exception. */
  predicate LineScorable(line: RetrievalLine, rows: seq<Record>) {
    AllScorable(line.data[..Reached(line.data)], line.user, rows)
  }

  /** Every conversation with a perfect detail accuracy scores without an exception. */
  predicate AllScorable(convs: seq<RetrievalConversation>, user: string, rows: seq<Record>) {
    if |convs| == 0 then true
    else
      var last := convs[|convs| - 1];
      AllScorable(convs[..|convs| - 1], user, rows) && (last.detailAccuracy == Some(1.0) ==> Scorable(last, user, rows))
  }

  /** A conversation that fails to score makes every longer run of conversations fail. */
  lemma {:induction false} AllScorableFails(convs: seq<RetrievalConversation>, user: string, rows: seq<Record>, i: nat)
    requires i < |convs| && convs[i].detailAccuracy == Some(1.0) && !Scorable(convs[i], user, rows)
    ensures !AllScorable(convs, user, rows)
    decreases |convs|
  {
    if i < |convs| - 1 {
      AllScorableFails(convs[..|convs| - 1], user, rows, i);
    }
  }

  /** Every prefix of a run of conversations that all score also scores. */
  lemma {:induction false} AllScorablePrefix(convs: seq<RetrievalConversation>, user: string, rows: seq<Record>, k: nat)
    requires k <= |convs|
    ensures AllScorable(convs, user, rows) ==> AllScorable(convs[..k], user, rows)
    decreases |convs|
  {
    if k < |convs| {
      assert convs[..|convs| - 1][..k] == convs[..k];
      AllScorablePrefix(convs[..|convs| - 1], user, rows, k);
    } else {
      assert convs[..k] == convs;
    }
  }

  /** The lines scored: all but the last, which holds the extraction scores. */
  function Body(lines: seq<RetrievalLine>): (r: seq<RetrievalLine>)
    ensures |r| == if |lines| == 0 then 0 else |lines| - 1
    ensures r == lines[..|r|]
  {
    if |lines| == 0 then [] else lines[..|lines| - 1]
  }

  /**
   * The evaluation over all lines but the last, from the empty start; the
   * first failure ends it.
   */
  method EvaluateRetrieval(lines: seq<RetrievalLine>, rows: seq<Record>)
    returns (eval: RetrievalEvaluation, err: Option<Error>)
    ensures fresh(eval) && eval.Valid()
    ensures err.Some? <==> ScoredLines(Start(), Body(lines), rows).Err?
    ensures err.Some? ==> err.value == ScoredLines(Start(), Body(lines), rows).error
    ensures err.None? ==> eval.Current() == ScoredLines(Start(), Body(lines), rows).value
    ensures err.None? <==> forall i :: 0 <= i < |Body(lines)| ==> LineScorable(lines[i], rows)
    ensures err.None? ==> eval.totalQuestions == Sum(Body(lines), Questions)
  {
    eval := new RetrievalEvaluation();
    err := eval.ScoreLines(Body(lines), rows);
  }

  /** The top-n accuracy never exceeds the top-(n + 1) one, which never exceeds the top-(n + 2) one. */
  lemma {:induction false} AccuracyOrdered(eval: RetrievalEvaluation)
    requires eval.Valid()
    ensures Count(eval.foundTop) <= Count(eval.foundP1) <= Count(eval.foundP2) <= eval.totalQuestions
  {
    ConsistentPointwise(eval.foundTop, eval.foundP1, eval.foundP2, eval.ratios, eval.ratiosP1, eval.ratiosP2, eval.records);
    CountImplied(eval.foundTop, eval.foundP1);
    CountImplied(eval.foundP1, eval.foundP2);
  }

  /** The recorded `ratio_relevant_irrelevant_ssc` is the top-(n + 2) ratio, never the top-n one it was first set to. */
  lemma {:induction false} RecordedRatioIsLastWindow(eval: RetrievalEvaluation, i: nat)
    requires eval.Valid() && i < eval.totalQuestions
    ensures eval.records[i].ratio == eval.ratiosP2[i]
    ensures eval.records[i].ratioP1 == Unset && eval.records[i].ratioP2 == Unset
  {
    ConsistentPointwise(eval.foundTop, eval.foundP1, eval.foundP2, eval.ratios, eval.ratiosP1, eval.ratiosP2, eval.records);
  }

  /**
   * The question lists side by side: one entry per record, each flag
   * implying the next, every ratio between 0 and 1, and each record
   * agreeing with its question's entries.
   */
  predicate Consistent(
    foundTop: seq<bool>, foundP1: seq<bool>, foundP2: seq<bool>,
    ratios: seq<Ratio>, ratiosP1: seq<Ratio>, ratiosP2: seq<Ratio>, records: seq<RetrievalRecord>)
    decreases |records|
  {
    && |foundTop| == |records| && |foundP1| == |records| && |foundP2| == |records|
    && |ratios| == |records| && |ratiosP1| == |records| && |ratiosP2| == |records|
    && (|records| == 0 ||
        var n := |records| - 1;
        && Consistent(foundTop[..n], foundP1[..n], foundP2[..n], ratios[..n], ratiosP1[..n], ratiosP2[..n], records[..n])
        && (foundTop[n] ==> foundP1[n]) && (foundP1[n] ==> foundP2[n])
        && ratios[n].Proper() && ratiosP1[n].Proper() && ratiosP2[n].Proper()
        && RecordAgrees(records[n], foundTop[n], foundP1[n], foundP2[n], ratiosP2[n]))
  }

  /** The pointwise reading of `Consistent`. */
  lemma {:induction false} ConsistentPointwise(
    foundTop: seq<bool>, foundP1: seq<bool>, foundP2: seq<bool>,
    ratios: seq<Ratio>, ratiosP1: seq<Ratio>, ratiosP2: seq<Ratio>, records: seq<RetrievalRecord>)
    requires Consistent(foundTop, foundP1, foundP2, ratios, ratiosP1, ratiosP2, records)
    ensures Implies(foundTop, foundP1) && Implies(foundP1, foundP2)
    ensures UnitRatios(ratios) && UnitRatios(ratiosP1) && UnitRatios(ratiosP2)
    ensures forall i :: 0 <= i < |records| ==> RecordAgrees(records[i], foundTop[i], foundP1[i], foundP2[i], ratiosP2[i])
    decreases |records|
  {
    if |records| > 0 {
      var n := |records| - 1;
      ConsistentPointwise(foundTop[..n], foundP1[..n], foundP2[..n], ratios[..n], ratiosP1[..n], ratiosP2[..n], records[..n]);
    }
  }

  /** A record written with its question's entries keeps the lists consistent. */
  lemma {:induction false} ConsistentAppend(
    foundTop: seq<bool>, foundP1: seq<bool>, foundP2: seq<bool>,
    ratios: seq<Ratio>, ratiosP1: seq<Ratio>, ratiosP2: seq<Ratio>, records: seq<RetrievalRecord>,
    r: RetrievalRecord, ratio: Ratio, ratio1: Ratio)
    requires Consistent(foundTop, foundP1, foundP2, ratios, ratiosP1, ratiosP2, records)
    requires RecordAgrees(r, r.foundTop, r.foundP1, r.foundP2, r.ratio)
    requires (r.foundTop ==> r.foundP1) && (r.foundP1 ==> r.foundP2)
    requires ratio.Proper() && ratio1.Proper() && r.ratio.Proper()
    ensures Consistent(
      foundTop + [r.foundTop], foundP1 + [r.foundP1], foundP2 + [r.foundP2],
      ratios + [ratio], ratiosP1 + [ratio1], ratiosP2 + [r.ratio], records + [r])
  {
    var n := |records|;
    assert (foundTop + [r.foundTop])[..n] == foundTop && (foundP1 + [r.foundP1])[..n] == foundP1;
    assert (foundP2 + [r.foundP2])[..n] == foundP2 && (ratios + [ratio])[..n] == ratios;
    assert (ratiosP1 + [ratio1])[..n] == ratiosP1 && (ratiosP2 + [r.ratio])[..n] == ratiosP2;
    assert (records + [r])[..n] == records;
  }

  /** The list appends of one scored question. */
  method AppendQuestion(
    foundTop0: seq<bool>, foundP10: seq<bool>, foundP20: seq<bool>,
    ratios0: seq<Ratio>, ratiosP10: seq<Ratio>, ratiosP20: seq<Ratio>, records0: seq<RetrievalRecord>, q: Scoring)
    returns (
      foundTop: seq<bool>, foundP1: seq<bool>, foundP2: seq<bool>,
      ratios: seq<Ratio>, ratiosP1: seq<Ratio>, ratiosP2: seq<Ratio>, records: seq<RetrievalRecord>)
    requires Consistent(foundTop0, foundP10, foundP20, ratios0, ratiosP10, ratiosP20, records0)
    requires q.Proper()
    ensures Consistent(foundTop, foundP1, foundP2, ratios, ratiosP1, ratiosP2, records)
    ensures foundTop == foundTop0 + [q.record.foundTop] && foundP1 == foundP10 + [q.record.foundP1]
    ensures foundP2 == foundP20 + [q.record.foundP2]
    ensures ratios == ratios0 + [q.ratio] && ratiosP1 == ratiosP10 + [q.ratio1] && ratiosP2 == ratiosP20 + [q.record.ratio]
    ensures records == records0 + [q.record]
  {
    ConsistentAppend(foundTop0, foundP10, foundP20, ratios0, ratiosP10, ratiosP20, records0, q.record, q.ratio, q.ratio1);
    foundTop, foundP1, foundP2 := foundTop0 + [q.record.foundTop], foundP10 + [q.record.foundP1], foundP20 + [q.record.foundP2];
    ratios, ratiosP1, ratiosP2 := ratios0 + [q.ratio], ratiosP10 + [q.ratio1], ratiosP20 + [q.record.ratio];
    records := records0 + [q.record];
  }

  /**
   * A record written as the script writes it: its three flags, the n + 2
   * ratio in the `ratio_relevant_irrelevant_ssc` slot (each later window
   * overwrites it), and 0 in the slots of the n + 1 and n + 2 triples,
   * which are never assigned.
   */
  predicate RecordAgrees(r: RetrievalRecord, top: bool, p1: bool, p2: bool, ratioP2: Ratio) {
    r.foundTop == top && r.foundP1 == p1 && r.foundP2 == p2
    && r.ratio == ratioP2 && r.ratioP1 == Unset && r.ratioP2 == Unset
  }
}
