/**
 * The evaluation driver of the maintenance engine. For each conversation
 * it takes the equal, negate and different preferences in that order;
 * for each non-empty one it queries the preference's bucket, inserts
 * directly into an empty bucket, and otherwise hands the preference to the
 * MP or MNP filter according to the detail category's cardinality. The
 * tool name of the latest call is carried from one preference to the
 * next, across conversations.
 */
module MaintenanceRouting {
  import opened Wrappers
  import opened PreferenceStore
  import opened FunctionLabel
  import opened MaintenanceEngine

  /** What the negate question's extraction holds. */
  datatype NegateExtraction = NegateExtraction(
    count: int,
    labels: Option<seq<int>>,
    full: Option<Record>)

  /** The evaluation recorded for one preference. */
  datatype Evaluation = Evaluation(numberExisting: Option<nat>, functionCall: Option<string>)

  /** The driver's `tool_call` variable: never assigned yet, or holding a name or `None`. */
  datatype Carried = Unbound | Bound(call: Option<string>)

  /** One conversation of an input line, with the evaluations the driver attaches. */
  datatype Conversation = Conversation(
    userUuid: string,
    groundTruthLabels: seq<int>,
    equal: Record,
    negate: NegateExtraction,
    different: Record,
    evaluations: Option<seq<Evaluation>>)

  const NegateLabelsKey := "extracted_preference_negate_0_categories_label"
  const NegateFullKey := "extracted_preference_negate_0_full"
  const UnknownCardinality := "Detail category does not exist or mapping wrong"

  /**
   * The negate preference the driver uses: the single extracted one when
   * exactly one was extracted and its category labels equal the ground
   * truth's, otherwise none.
   */
  function SelectNegate(q: NegateExtraction, groundTruth: seq<int>): (r: Result<Option<Record>>)
    ensures r.Ok? && r.value.Some? <==> q.count == 1 && q.labels == Some(groundTruth) && q.full.Some?
    ensures r.Ok? && r.value.Some? ==> r.value == q.full
    ensures r.Err? <==> q.count == 1 && (q.labels.None? || (q.labels.value == groundTruth && q.full.None?))
  {
    if q.count == 1 then
      if q.labels.None? then Err(KeyError(NegateLabelsKey))
      else if q.labels.value == groundTruth then
        if q.full.None? then Err(KeyError(NegateFullKey)) else Ok(q.full)
      else Ok(None)
    else Ok(None)
  }

  /** The preferences of one conversation in processing order: equal, negate, different. */
  function Questions(c: Conversation, negate: Option<Record>): (prefs: seq<Option<Record>>)
    ensures |prefs| == 3 && prefs[0] == Some(c.equal) && prefs[1] == negate && prefs[2] == Some(c.different)
  {
    [Some(c.equal), negate, Some(c.different)]
  }

  /**
   * One preference: what is recorded for it, the carried tool name, and the
   * collection afterwards. `cardinality` is the detail-category-to-type
   * lookup, which is not part of this model.
   */
  function Step(rows: seq<Record>, classifier: Classifier, cardinality: string -> string, user: string,
                pref: Option<Record>, perform: bool, carried: Carried)
    : (r: (Result<(Evaluation, Carried)>, seq<Record>))
    ensures pref.None? ==> r.0.Ok? && r.1 == rows
    ensures !perform ==> r.1 == rows
    ensures r.0.Ok? ==> r.0.value.1 == Bound(r.0.value.0.functionCall)
  {
    match pref
    case None => (Ok((Evaluation(None, None), Bound(None))), rows)
    case Some(p) =>
      var existing := Bucket(rows, user, p.mainCategory, p.subcategory, p.detailCategory);
      if |existing| == 0 then
        var c := if perform then Bound(Some(InsertPreference)) else carried;
        (if c.Unbound? then Err(UnboundLocalError("tool_call")) else Ok((Evaluation(Some(0), c.call), c)),
         if perform then rows + [p] else rows)
      else if cardinality(p.detailCategory) == "MP" || cardinality(p.detailCategory) == "MNP" then
        var kind := if cardinality(p.detailCategory) == "MP" then MP else MNP;
        var choice := Choose(classifier, kind, ProjectIncoming(p), ProjectExisting(existing[|existing| - 1]));
        var effect := FilterEffect(rows, choice, p, existing, perform);
        (if effect.0.Err? then Err(effect.0.error)
         else Ok((Evaluation(Some(|existing|), Some(effect.0.value.1)), Bound(Some(effect.0.value.1)))),
         effect.1)
      else (Err(ValueError(UnknownCardinality)), rows)
  }

  /** A step over one preference, as a function value. */
  type StepFn = (seq<Record>, Option<Record>, Carried) -> (Result<(Evaluation, Carried)>, seq<Record>)

  function StepOf(classifier: Classifier, cardinality: string -> string, user: string, perform: bool): StepFn {
    (rows: seq<Record>, pref: Option<Record>, carried: Carried) => Step(rows, classifier, cardinality, user, pref, perform, carried)
  }

  /** The preferences in order, each seeing the collection and the carried name the previous one left. */
  function Run(step: StepFn, rows: seq<Record>, prefs: seq<Option<Record>>, carried: Carried)
    : (r: (Result<(seq<Evaluation>, Carried)>, seq<Record>))
    ensures r.0.Ok? ==> |r.0.value.0| == |prefs|
    ensures |prefs| == 0 ==> r == (Ok(([], carried)), rows)
    decreases |prefs|
  {
    if |prefs| == 0 then (Ok(([], carried)), rows)
    else
      var first := step(rows, prefs[0], carried);
      if first.0.Err? then (Err(first.0.error), first.1)
      else
        var rest := Run(step, first.1, prefs[1..], first.0.value.1);
        (if rest.0.Err? then rest.0 else Ok(([first.0.value.0] + rest.0.value.0, rest.0.value.1)), rest.1)
  }

  /** The run of `Step` over the preferences. */
  function Steps(rows: seq<Record>, classifier: Classifier, cardinality: string -> string, user: string,
                 prefs: seq<Option<Record>>, perform: bool, carried: Carried)
    : (Result<(seq<Evaluation>, Carried)>, seq<Record>)
  {
    Run(StepOf(classifier, cardinality, user, perform), rows, prefs, carried)
  }

  // ---------------------------------------------------------- properties

  /** An empty incoming preference makes no query and records no tool. */
  lemma {:induction false} EmptyPreferenceRecordsNone(rows: seq<Record>, classifier: Classifier, cardinality: string -> string, user: string,
                                   perform: bool, carried: Carried)
    ensures Step(rows, classifier, cardinality, user, None, perform, carried) == (Ok((Evaluation(None, None), Bound(None))), rows)
  {
  }

  /**
   * An empty bucket makes no classifier call: the preference is inserted
   * exactly when `perform` is set, and only then is the tool name set to
   * `insert_preference`; otherwise the previous name is carried over, and
   * if there is none yet the driver fails.
   */
  lemma {:induction false} EmptyBucketInserts(rows: seq<Record>, classifier: Classifier, cardinality: string -> string, user: string,
                           p: Record, perform: bool, carried: Carried)
    requires |Bucket(rows, user, p.mainCategory, p.subcategory, p.detailCategory)| == 0
    ensures var s := Step(rows, classifier, cardinality, user, Some(p), perform, carried);
      && s.1 == (if perform then rows + [p] else rows)
      && (perform ==> s.0 == Ok((Evaluation(Some(0), Some(InsertPreference)), Bound(Some(InsertPreference)))))
      && (!perform && carried.Bound? ==> s.0 == Ok((Evaluation(Some(0), carried.call), carried)))
      && (!perform && carried.Unbound? ==> s.0 == Err(UnboundLocalError("tool_call")))
  {
  }

  /**
   * A non-empty bucket goes to the classifier of the detail category's
   * cardinality, shown the last stored record of the bucket; a cardinality
   * other than MP and MNP fails and leaves the collection alone.
   */
  lemma {:induction false} NonEmptyBucketDispatch(rows: seq<Record>, classifier: Classifier, cardinality: string -> string, user: string,
                               p: Record, perform: bool, carried: Carried)
    requires |Bucket(rows, user, p.mainCategory, p.subcategory, p.detailCategory)| > 0
    ensures var existing := Bucket(rows, user, p.mainCategory, p.subcategory, p.detailCategory);
      var s := Step(rows, classifier, cardinality, user, Some(p), perform, carried);
      && (cardinality(p.detailCategory) != "MP" && cardinality(p.detailCategory) != "MNP" ==>
            s == (Err(ValueError(UnknownCardinality)), rows))
      && (cardinality(p.detailCategory) == "MP" ==>
            var choice := Choose(classifier, MP, ProjectIncoming(p), ProjectExisting(existing[|existing| - 1]));
            Dispatched(s, FilterEffect(rows, choice, p, existing, perform), |existing|))
      && (cardinality(p.detailCategory) == "MNP" ==>
            var choice := Choose(classifier, MNP, ProjectIncoming(p), ProjectExisting(existing[|existing| - 1]));
            Dispatched(s, FilterEffect(rows, choice, p, existing, perform), |existing|))
      && (s.0.Ok? ==> s.0.value.0.numberExisting == Some(|existing|) && s.0.value.1 == Bound(s.0.value.0.functionCall))
  {
    var kind := cardinality(p.detailCategory);
    if kind == "MP" {
      FilterStep(rows, classifier, cardinality, user, p, perform, carried, MP);
    } else if kind == "MNP" {
      FilterStep(rows, classifier, cardinality, user, p, perform, carried, MNP);
    }
  }

  /** A non-empty bucket whose detail category has the filter's cardinality is handed to that filter. */
  lemma {:induction false} FilterStep(rows: seq<Record>, classifier: Classifier, cardinality: string -> string, user: string,
                                      p: Record, perform: bool, carried: Carried, kind: Cardinality)
    requires |Bucket(rows, user, p.mainCategory, p.subcategory, p.detailCategory)| > 0
    requires cardinality(p.detailCategory) == if kind == MP then "MP" else "MNP"
    ensures var existing := Bucket(rows, user, p.mainCategory, p.subcategory, p.detailCategory);
      var choice := Choose(classifier, kind, ProjectIncoming(p), ProjectExisting(existing[|existing| - 1]));
      Dispatched(Step(rows, classifier, cardinality, user, Some(p), perform, carried),
                 FilterEffect(rows, choice, p, existing, perform), |existing|)
  {
  }

  /**
   * A step handed to a filter: the collection is the one the filter
   * leaves, the step fails exactly when the filter does (an unreadable
   * reply or a failing tool), and otherwise it records the bucket size and
   * the tool's name, which is also carried on.
   */
  predicate Dispatched(s: (Result<(Evaluation, Carried)>, seq<Record>), effect: (Result<(string, string)>, seq<Record>), size: nat) {
    && s.1 == effect.1
    && (s.0.Err? <==> effect.0.Err?)
    && (effect.0.Err? ==> s.0.error == effect.0.error)
    && (effect.0.Ok? ==> s.0 == Ok((Evaluation(Some(size), Some(effect.0.value.1)), Bound(Some(effect.0.value.1)))))
  }

  /** A successful run over the preferences records one evaluation per preference, in order. */
  lemma {:induction false} StepsOnePerPreference(rows: seq<Record>, classifier: Classifier, cardinality: string -> string,
                              user: string, prefs: seq<Option<Record>>, perform: bool, carried: Carried)
    requires Steps(rows, classifier, cardinality, user, prefs, perform, carried).0.Ok?
    ensures var evals := Steps(rows, classifier, cardinality, user, prefs, perform, carried).0.value.0;
      && |evals| == |prefs|
      && forall i :: 0 <= i < |prefs| ==> (prefs[i].None? <==> evals[i] == Evaluation(None, None))
  {
    var step := StepOf(classifier, cardinality, user, perform);
    forall rows': seq<Record>, carried': Carried
      ensures step(rows', None, carried').0 == Ok((Evaluation(None, None), Bound(None)))
      ensures step(rows', None, carried').1 == rows'
    {
    }
    forall rows': seq<Record>, p: Record, carried': Carried | step(rows', Some(p), carried').0.Ok?
      ensures step(rows', Some(p), carried').0.value.0 != Evaluation(None, None)
    {
      StepRecordsExisting(rows', classifier, cardinality, user, p, perform, carried');
    }
    RunOnePerPreference(step, rows, prefs, carried);
  }

  /**
   * A run of a step function that records the empty evaluation exactly for
   * an empty preference records one evaluation per preference, in order.
   */
  lemma {:induction false} RunOnePerPreference(step: StepFn, rows: seq<Record>, prefs: seq<Option<Record>>, carried: Carried)
    requires forall r, c :: step(r, None, c).0 == Ok((Evaluation(None, None), Bound(None)))
    requires forall r, p, c :: step(r, Some(p), c).0.Ok? ==> step(r, Some(p), c).0.value.0 != Evaluation(None, None)
    requires Run(step, rows, prefs, carried).0.Ok?
    ensures var evals := Run(step, rows, prefs, carried).0.value.0;
      && |evals| == |prefs|
      && forall i :: 0 <= i < |prefs| ==> (prefs[i].None? <==> evals[i] == Evaluation(None, None))
    decreases |prefs|
  {
    if |prefs| > 0 {
      var first := step(rows, prefs[0], carried);
      RunOnePerPreference(step, first.1, prefs[1..], first.0.value.1);
      var rest := Run(step, first.1, prefs[1..], first.0.value.1);
      var evals := [first.0.value.0] + rest.0.value.0;
      forall i | 1 <= i < |prefs| ensures prefs[i].None? <==> evals[i] == Evaluation(None, None) {
        assert prefs[i] == prefs[1..][i - 1] && evals[i] == rest.0.value.0[i - 1];
      }
    }
  }

  // --------------------------------------------------------- the driver

  /** Processes one preference, as `Step` says. */
  method EvaluatePreference(store: Store, engine: Maintenance, cardinality: string -> string, user: string,
                            pref: Option<Record>, perform: bool, carried: Carried)
    returns (r: Result<(Evaluation, Carried)>)
    modifies store, engine
    ensures (r, store.rows) == Step(old(store.rows), engine.classifier, cardinality, user, pref, perform, carried)
  {
    if pref.None? {
      return Ok((Evaluation(None, None), Bound(None)));
    }
    var p := pref.value;
    var existing := Bucket(store.rows, user, p.mainCategory, p.subcategory, p.detailCategory);
    var number: nat := |existing|;
    var c := carried;
    if number == 0 {
      if perform {
        store.Insert(p);
        c := Bound(Some(InsertPreference));
      }
    } else {
      var kind: Cardinality;
      if cardinality(p.detailCategory) == "MP" {
        kind := MP;
      } else if cardinality(p.detailCategory) == "MNP" {
        kind := MNP;
      } else {
        return Err(ValueError(UnknownCardinality));
      }
      var result := engine.Filter(store, kind, p, existing, perform);
      if result.Err? {
        return Err(result.error);
      }
      c := Bound(Some(result.value.1));
    }
    if c.Unbound? {
      return Err(UnboundLocalError("tool_call"));
    }
    r := Ok((Evaluation(Some(number), c.call), c));
  }

  /** Processes the preferences in order, as `Steps` says. */
  method EvaluateQuestions(store: Store, engine: Maintenance, cardinality: string -> string, user: string,
                           prefs: seq<Option<Record>>, perform: bool, carried: Carried)
    returns (r: Result<(seq<Evaluation>, Carried)>)
    modifies store, engine
    ensures (r, store.rows) == Steps(old(store.rows), engine.classifier, cardinality, user, prefs, perform, carried)
  {
    var evals: seq<Evaluation> := [];
    var c := carried;
    ghost var step := StepOf(engine.classifier, cardinality, user, perform);
    RunFromStart(step, store.rows, prefs, carried);
    for i := 0 to |prefs|
      invariant RunFrom(step, old(store.rows), prefs, carried, i, evals, c, store.rows)
    {
      var before := store.rows;
      var one := EvaluatePreference(store, engine, cardinality, user, prefs[i], perform, c);
      RunExtend(step, old(store.rows), prefs, carried, i, evals, c, before, store.rows, one);
      if one.Err? {
        return Err(one.error);
      }
      evals := evals + [one.value.0];
      c := one.value.1;
    }
    RunFromDone(step, old(store.rows), prefs, carried, evals, c, store.rows);
    r := Ok((evals, c));
  }

  /**
   * After the first `i` preferences succeeded with evaluations `evals`,
   * carried name `c` and collection `now`, the whole run is what the rest
   * of the run from there gives, with `evals` put in front.
   */
  ghost predicate RunFrom(step: StepFn, rows: seq<Record>, prefs: seq<Option<Record>>, carried: Carried,
                          i: nat, evals: seq<Evaluation>, c: Carried, now: seq<Record>)
  {
    && i <= |prefs| && |evals| == i
    && var rest := Run(step, now, prefs[i..], c);
       Run(step, rows, prefs, carried) == (if rest.0.Err? then rest.0 else Ok((evals + rest.0.value.0, rest.0.value.1)), rest.1)
  }

  lemma {:induction false} RunFromStart(step: StepFn, rows: seq<Record>, prefs: seq<Option<Record>>, carried: Carried)
    ensures RunFrom(step, rows, prefs, carried, 0, [], carried, rows)
  {
    assert prefs[0..] == prefs;
    var rest := Run(step, rows, prefs, carried);
    if rest.0.Ok? {
      assert [] + rest.0.value.0 == rest.0.value.0;
    }
  }

  /** One more step either ends the run with its error or moves the position one preference on. */
  lemma {:induction false} RunExtend(step: StepFn, rows: seq<Record>, prefs: seq<Option<Record>>, carried: Carried,
                  i: nat, evals: seq<Evaluation>, c: Carried, now: seq<Record>, after: seq<Record>,
                  one: Result<(Evaluation, Carried)>)
    requires i < |prefs|
    requires RunFrom(step, rows, prefs, carried, i, evals, c, now)
    requires (one, after) == step(now, prefs[i], c)
    ensures one.Err? ==> (Err(one.error), after) == Run(step, rows, prefs, carried)
    ensures one.Ok? ==> RunFrom(step, rows, prefs, carried, i + 1, evals + [one.value.0], one.value.1, after)
  {
    assert prefs[i..][0] == prefs[i] && prefs[i..][1..] == prefs[i + 1..];
    if one.Ok? {
      var rest := Run(step, after, prefs[i + 1..], one.value.1);
      if rest.0.Ok? {
        assert evals + ([one.value.0] + rest.0.value.0) == (evals + [one.value.0]) + rest.0.value.0;
      }
    }
  }

  lemma {:induction false} RunFromDone(step: StepFn, rows: seq<Record>, prefs: seq<Option<Record>>, carried: Carried,
                    evals: seq<Evaluation>, c: Carried, now: seq<Record>)
    requires RunFrom(step, rows, prefs, carried, |prefs|, evals, c, now)
    ensures (Ok((evals, c)), now) == Run(step, rows, prefs, carried)
  {
    assert prefs[|prefs|..] == [];
    assert evals + [] == evals;
  }

  /** A successful step over a preference records how many stored preferences its bucket held. */
  lemma {:induction false} StepRecordsExisting(rows: seq<Record>, classifier: Classifier, cardinality: string -> string, user: string,
                            p: Record, perform: bool, carried: Carried)
    requires Step(rows, classifier, cardinality, user, Some(p), perform, carried).0.Ok?
    ensures Step(rows, classifier, cardinality, user, Some(p), perform, carried).0.value.0.numberExisting.Some?
  {
  }

  // ------------------------------------------------ conversations and lines

  /** One conversation: select the negate preference, then process the three preferences. */
  function ConversationStep(rows: seq<Record>, classifier: Classifier, cardinality: string -> string,
                            c: Conversation, perform: bool, carried: Carried)
    : (Result<(Conversation, Carried)>, seq<Record>)
  {
    match SelectNegate(c.negate, c.groundTruthLabels)
    case Err(e) => (Err(e), rows)
    case Ok(negate) =>
      var s := Steps(rows, classifier, cardinality, c.userUuid, Questions(c, negate), perform, carried);
      (if s.0.Err? then Err(s.0.error) else Ok((c.(evaluations := Some(s.0.value.0)), s.0.value.1)), s.1)
  }

  /** What processing one conversation does, as a value the line-level definitions take. */
  type ConversationRun = (seq<Record>, Conversation, Carried) -> (Result<(Conversation, Carried)>, seq<Record>)

  function RunOf(classifier: Classifier, cardinality: string -> string, perform: bool): ConversationRun {
    (rows: seq<Record>, c: Conversation, carried: Carried) => ConversationStep(rows, classifier, cardinality, c, perform, carried)
  }

  /** The conversations of a line in order, each seeing what the previous one left. */
  function LineSteps(run: ConversationRun, rows: seq<Record>, convs: seq<Conversation>, carried: Carried)
    : (Result<(seq<Conversation>, Carried)>, seq<Record>)
    decreases |convs|
  {
    if |convs| == 0 then (Ok(([], carried)), rows)
    else
      var first := run(rows, convs[0], carried);
      if first.0.Err? then (Err(first.0.error), first.1)
      else
        var rest := LineSteps(run, first.1, convs[1..], first.0.value.1);
        (if rest.0.Err? then rest.0 else Ok(([first.0.value.0] + rest.0.value.0, rest.0.value.1)), rest.1)
  }

  /** The conversations written out: those whose equal preference received an evaluation. */
  function Written(convs: seq<Conversation>): (r: seq<Conversation>)
    ensures |r| <= |convs|
    ensures forall x :: x in r <==> x in convs && x.evaluations.Some? && |x.evaluations.value| > 0
  {
    if |convs| == 0 then []
    else if convs[0].evaluations.Some? && |convs[0].evaluations.value| > 0 then [convs[0]] + Written(convs[1..])
    else Written(convs[1..])
  }

  /** A successful conversation keeps its data and receives one evaluation per preference. */
  lemma {:induction false} ConversationEvaluated(rows: seq<Record>, classifier: Classifier, cardinality: string -> string,
                              c: Conversation, perform: bool, carried: Carried)
    requires ConversationStep(rows, classifier, cardinality, c, perform, carried).0.Ok?
    ensures var d := ConversationStep(rows, classifier, cardinality, c, perform, carried).0.value.0;
      d.(evaluations := c.evaluations) == c && d.evaluations.Some? && |d.evaluations.value| == 3
  {
    var negate := SelectNegate(c.negate, c.groundTruthLabels).value;
    StepsOnePerPreference(rows, classifier, cardinality, c.userUuid, Questions(c, negate), perform, carried);
  }

  /** A successful line evaluates every conversation, in order, so the written filter drops none. */
  lemma {:induction false} LineAllWritten(classifier: Classifier, cardinality: string -> string, perform: bool,
                       rows: seq<Record>, convs: seq<Conversation>, carried: Carried)
    requires LineSteps(RunOf(classifier, cardinality, perform), rows, convs, carried).0.Ok?
    ensures var out := LineSteps(RunOf(classifier, cardinality, perform), rows, convs, carried).0.value.0;
      && |out| == |convs|
      && (forall i :: 0 <= i < |convs| ==> out[i].(evaluations := convs[i].evaluations) == convs[i])
      && Written(out) == out
  {
    var run := RunOf(classifier, cardinality, perform);
    forall rows': seq<Record>, c: Conversation, carried': Carried | run(rows', c, carried').0.Ok?
      ensures Evaluated(c, run(rows', c, carried').0.value.0)
    {
      ConversationEvaluated(rows', classifier, cardinality, c, perform, carried');
    }
    LineEvaluatesEach(run, rows, convs, carried);
  }

  /** `d` is conversation `c` with three evaluations attached. */
  predicate Evaluated(c: Conversation, d: Conversation) {
    d.(evaluations := c.evaluations) == c && d.evaluations.Some? && |d.evaluations.value| == 3
  }

  lemma {:induction false} LineEvaluatesEach(run: ConversationRun, rows: seq<Record>, convs: seq<Conversation>, carried: Carried)
    requires forall rows': seq<Record>, c: Conversation, carried': Carried ::
      run(rows', c, carried').0.Ok? ==> Evaluated(c, run(rows', c, carried').0.value.0)
    requires LineSteps(run, rows, convs, carried).0.Ok?
    ensures var out := LineSteps(run, rows, convs, carried).0.value.0;
      && |out| == |convs|
      && (forall i :: 0 <= i < |convs| ==> out[i].(evaluations := convs[i].evaluations) == convs[i])
      && Written(out) == out
    decreases |convs|
  {
    if |convs| > 0 {
      var first := run(rows, convs[0], carried);
      LineEvaluatesEach(run, first.1, convs[1..], first.0.value.1);
      var rest := LineSteps(run, first.1, convs[1..], first.0.value.1);
      var out := [first.0.value.0] + rest.0.value.0;
      assert out[1..] == rest.0.value.0;
      assert Evaluated(convs[0], first.0.value.0);
      forall i | 1 <= i < |convs| ensures out[i].(evaluations := convs[i].evaluations) == convs[i] {
        assert out[i] == rest.0.value.0[i - 1] && convs[i] == convs[1..][i - 1];
      }
    }
  }

  /** Processes one conversation, as `ConversationStep` says. */
  method EvaluateConversation(store: Store, engine: Maintenance, cardinality: string -> string,
                              c: Conversation, perform: bool, carried: Carried)
    returns (r: Result<(Conversation, Carried)>)
    modifies store, engine
    ensures (r, store.rows) == ConversationStep(old(store.rows), engine.classifier, cardinality, c, perform, carried)
  {
    var negate := SelectNegate(c.negate, c.groundTruthLabels);
    if negate.Err? {
      return Err(negate.error);
    }
    var evals := EvaluateQuestions(store, engine, cardinality, c.userUuid, Questions(c, negate.value), perform, carried);
    if evals.Err? {
      return Err(evals.error);
    }
    r := Ok((c.(evaluations := Some(evals.value.0)), evals.value.1));
  }

  /**
   * Processes the conversations of one input line in order and returns
   * those to be written, with the tool name carried on to the next line.
   */
  method EvaluateLine(store: Store, engine: Maintenance, cardinality: string -> string,
                      convs: seq<Conversation>, perform: bool, carried: Carried)
    returns (r: Result<(seq<Conversation>, Carried)>)
    modifies store, engine
    ensures var spec := LineSteps(RunOf(engine.classifier, cardinality, perform), old(store.rows), convs, carried);
      && store.rows == spec.1
      && (r.Err? <==> spec.0.Err?)
      && (r.Err? ==> r == spec.0)
      && (r.Ok? ==> r == Ok((Written(spec.0.value.0), spec.0.value.1)))
  {
    var run := RunOf(engine.classifier, cardinality, perform);
    var out: seq<Conversation> := [];
    var c := carried;
    LineFromStart(run, store.rows, convs, carried);
    for i := 0 to |convs|
      invariant LineFrom(run, old(store.rows), convs, carried, i, out, c, store.rows)
    {
      var before := store.rows;
      var one := EvaluateConversation(store, engine, cardinality, convs[i], perform, c);
      assert (one, store.rows) == run(before, convs[i], c);
      LineExtend(run, old(store.rows), convs, carried, i, out, c, before, store.rows, one);
      if one.Err? {
        return Err(one.error);
      }
      out := out + [one.value.0];
      c := one.value.1;
    }
    LineFromDone(run, old(store.rows), convs, carried, out, c, store.rows);
    r := Ok((Written(out), c));
  }

  /** The line-level counterpart of `RunFrom`. */
  ghost predicate LineFrom(run: ConversationRun, rows: seq<Record>, convs: seq<Conversation>, carried: Carried,
                           i: nat, out: seq<Conversation>, c: Carried, now: seq<Record>)
  {
    && i <= |convs| && |out| == i
    && var whole := LineSteps(run, rows, convs, carried);
       var rest := LineSteps(run, now, convs[i..], c);
       whole == (if rest.0.Err? then rest.0 else Ok((out + rest.0.value.0, rest.0.value.1)), rest.1)
  }

  lemma {:induction false} LineFromStart(run: ConversationRun, rows: seq<Record>, convs: seq<Conversation>, carried: Carried)
    ensures LineFrom(run, rows, convs, carried, 0, [], carried, rows)
  {
    assert convs[0..] == convs;
    var rest := LineSteps(run, rows, convs, carried);
    if rest.0.Ok? {
      assert [] + rest.0.value.0 == rest.0.value.0;
    }
  }

  lemma {:induction false} LineExtend(run: ConversationRun, rows: seq<Record>, convs: seq<Conversation>, carried: Carried,
                   i: nat, out: seq<Conversation>, c: Carried, now: seq<Record>, after: seq<Record>,
                   one: Result<(Conversation, Carried)>)
    requires i < |convs|
    requires LineFrom(run, rows, convs, carried, i, out, c, now)
    requires (one, after) == run(now, convs[i], c)
    ensures one.Err? ==> (Err(one.error), after) == LineSteps(run, rows, convs, carried)
    ensures one.Ok? ==> LineFrom(run, rows, convs, carried, i + 1, out + [one.value.0], one.value.1, after)
  {
    assert convs[i..][0] == convs[i] && convs[i..][1..] == convs[i + 1..];
    if one.Ok? {
      var rest := LineSteps(run, after, convs[i + 1..], one.value.1);
      if rest.0.Ok? {
        assert out + ([one.value.0] + rest.0.value.0) == (out + [one.value.0]) + rest.0.value.0;
      }
    }
  }

  lemma {:induction false} LineFromDone(run: ConversationRun, rows: seq<Record>, convs: seq<Conversation>, carried: Carried,
                     out: seq<Conversation>, c: Carried, now: seq<Record>)
    requires LineFrom(run, rows, convs, carried, |convs|, out, c, now)
    ensures (Ok((out, c)), now) == LineSteps(run, rows, convs, carried)
  {
    assert convs[|convs|..] == [];
    assert out + [] == out;
  }
}
