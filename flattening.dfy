/**
 * Flattening of an accepted extraction: the arguments of the extractor's
 * function call nest main category -> subcategory -> detail category ->
 * list of preferences, and every preference of the list becomes one
 * numbered record carrying its path, the sentence that revealed it, the
 * preference itself, the user name and the category labels of its path.
 * Subcategories and detail categories named `no_or_other_preferences` are
 * skipped. The same loops, and the same bookkeeping of `valid_at_try`,
 * appear in the evaluation extraction and in the extraction of the negate
 * maintenance question.
 */
module ExtractionFlattening {
  import opened Wrappers
  import opened Json
  import CategoryLabels
  import opened Taxonomy
  import PM = PreferenceMemory
  const RevealedKey := "user_sentence_preference_revealed"
  const PreferenceKey := "user_preference"

  /** One flattened preference; its number is its position in the emitted sequence. */
  datatype Extracted = Extracted(
    main: string, sub: string, detail: string,
    text: Json, attribute: Json, userName: string,
    labels: seq<int>)

  /** The category part of a record, in the key order the labels are computed in. */
  function CategoryItems(main: string, sub: string, detail: string): (items: seq<(string, string)>)
    ensures |items| == 3
    ensures items[0] == ("main_category", main) && items[1] == ("subcategory", sub)
    ensures items[2] == ("detail_category", detail)
  {
    [("main_category", main), ("subcategory", sub), ("detail_category", detail)]
  }

  /**
   * The record of one preference element: its two fields are read first,
   * then the labels of its path are computed; the first of these to fail
   * raises.
   */
  function Leaf(main: string, sub: string, detail: string, userName: string, preference: Json): (r: Result<Extracted>)
    ensures r.Ok? <==>
      Subscript(preference, RevealedKey).Ok? && Subscript(preference, PreferenceKey).Ok? &&
      CategoryLabels.ConvertPreferenceToLabels(CategoryItems(main, sub, detail)).Ok?
    ensures r.Ok? ==>
      && r.value.main == main && r.value.sub == sub && r.value.detail == detail
      && r.value.userName == userName
      && Ok(r.value.text) == Subscript(preference, RevealedKey)
      && Ok(r.value.attribute) == Subscript(preference, PreferenceKey)
      && Ok(r.value.labels) == CategoryLabels.ConvertPreferenceToLabels(CategoryItems(main, sub, detail))
    ensures Subscript(preference, RevealedKey).Err? ==> r == Err(Subscript(preference, RevealedKey).error)
  {
    match Subscript(preference, RevealedKey)
    case Err(e) => Err(e)
    case Ok(text) =>
      match Subscript(preference, PreferenceKey)
      case Err(e) => Err(e)
      case Ok(attribute) =>
        match CategoryLabels.ConvertPreferenceToLabels(CategoryItems(main, sub, detail))
        case Err(e) => Err(e)
        case Ok(labels) => Ok(Extracted(main, sub, detail, text, attribute, userName, labels))
  }

  /** The record of each element of a detail category's list. */
  function LeafAt(main: string, sub: string, detail: string, userName: string): Json -> Result<Extracted> {
    (preference: Json) => Leaf(main, sub, detail, userName, preference)
  }

  /** The records under one detail category entry; the skipped key yields none. */
  function DetailStep(main: string, sub: string, userName: string): ((string, Json)) -> Result<seq<Extracted>> {
    (entry: (string, Json)) =>
      if entry.0 == NoOrOther then Ok([])
      else
        match Iterate(entry.1)
        case Err(e) => Err(e)
        case Ok(preferences) => MapResult(preferences, LeafAt(main, sub, entry.0, userName))
  }

  /** The records under one subcategory entry, whose value must be a mapping unless skipped. */
  function SubStep(main: string, userName: string): ((string, Json)) -> Result<seq<Extracted>> {
    (entry: (string, Json)) =>
      if entry.0 == NoOrOther then Ok([])
      else if entry.1.Obj? then FlatMap(entry.1.members, DetailStep(main, entry.0, userName))
      else Err(AttributeError("items"))
  }

  /** The records under one main category entry, whose value must be a mapping. */
  function MainStep(userName: string): ((string, Json)) -> Result<seq<Extracted>> {
    (entry: (string, Json)) =>
      if entry.1.Obj? then FlatMap(entry.1.members, SubStep(entry.0, userName))
      else Err(AttributeError("items"))
  }

  /**
   * All records of an extraction, in iteration order. Nothing is flattened
   * when the extraction is empty or no try was valid; otherwise the
   * extraction must be a mapping.
   */
  function Flatten(extraction: Json, validAtTry: Option<nat>, userName: string): (r: Result<seq<Extracted>>)
    ensures IsFalsy(extraction) || validAtTry.None? ==> r == Ok([])
  {
    if IsFalsy(extraction) || validAtTry.None? then Ok([])
    else if extraction.Obj? then FlatMap(extraction.members, MainStep(userName))
    else Err(AttributeError("items"))
  }

  // -------------------------------------------------------------- the loops

  /** The innermost loop over one detail category's preferences. */
  method FlattenDetail(main: string, sub: string, userName: string, entry: (string, Json))
    returns (r: Result<seq<Extracted>>)
    ensures r == DetailStep(main, sub, userName)(entry)
  {
    if entry.0 == NoOrOther {
      return Ok([]);
    }
    var preferences := Iterate(entry.1);
    if preferences.Err? {
      return Err(preferences.error);
    }
    r := MapEach(preferences.value, LeafAt(main, sub, entry.0, userName));
  }

  /** The loop over one subcategory's detail categories. */
  method FlattenSub(main: string, userName: string, entry: (string, Json))
    returns (r: Result<seq<Extracted>>)
    ensures r == SubStep(main, userName)(entry)
  {
    if entry.0 == NoOrOther {
      return Ok([]);
    }
    if !entry.1.Obj? {
      return Err(AttributeError("items"));
    }
    var details := entry.1.members;
    var step := DetailStep(main, entry.0, userName);
    var records: seq<Extracted> := [];
    for i := 0 to |details|
      invariant FlatMap(details[..i], step) == Ok(records)
    {
      var more := FlattenDetail(main, entry.0, userName, details[i]);
      FlatMapExtend(details, step, i, records);
      if more.Err? {
        FlatMapFailsEarly(details, step, i + 1);
        return Err(more.error);
      }
      records := records + more.value;
    }
    assert details[..|details|] == details;
    r := Ok(records);
  }

  /** The loop over one main category's subcategories. */
  method FlattenMain(userName: string, entry: (string, Json)) returns (r: Result<seq<Extracted>>)
    ensures r == MainStep(userName)(entry)
  {
    if !entry.1.Obj? {
      return Err(AttributeError("items"));
    }
    var subs := entry.1.members;
    var step := SubStep(entry.0, userName);
    var records: seq<Extracted> := [];
    for i := 0 to |subs|
      invariant FlatMap(subs[..i], step) == Ok(records)
    {
      var more := FlattenSub(entry.0, userName, subs[i]);
      FlatMapExtend(subs, step, i, records);
      if more.Err? {
        FlatMapFailsEarly(subs, step, i + 1);
        return Err(more.error);
      }
      records := records + more.value;
    }
    assert subs[..|subs|] == subs;
    r := Ok(records);
  }

  /**
   * The flattening loop with its running counter: on success the records
   * are numbered 0 to `count - 1` by position and `count` is their number.
   */
  method FlattenExtraction(extraction: Json, validAtTry: Option<nat>, userName: string)
    returns (r: Result<seq<Extracted>>, count: nat)
    ensures r == Flatten(extraction, validAtTry, userName)
    ensures r.Ok? ==> count == |r.value|
  {
    count := 0;
    if IsFalsy(extraction) || validAtTry.None? {
      return Ok([]), count;
    }
    if !extraction.Obj? {
      return Err(AttributeError("items")), count;
    }
    var mains := extraction.members;
    var step := MainStep(userName);
    var records: seq<Extracted> := [];
    for i := 0 to |mains|
      invariant FlatMap(mains[..i], step) == Ok(records)
      invariant count == |records|
    {
      var more := FlattenMain(userName, mains[i]);
      FlatMapExtend(mains, step, i, records);
      if more.Err? {
        FlatMapFailsEarly(mains, step, i + 1);
        return Err(more.error), count;
      }
      records := records + more.value;
      count := count + |more.value|;
    }
    assert mains[..|mains|] == mains;
    r := Ok(records);
  }

  // ------------------------------------------------------ what is emitted

  /** The number of preference elements under non-skipped keys, counted without building records. */
  function LeafCount(extraction: Json): nat {
    if extraction.Obj? then Sum(extraction.members, MainLeaves) else 0
  }

  function MainLeaves(entry: (string, Json)): nat {
    if entry.1.Obj? then Sum(entry.1.members, SubLeaves) else 0
  }

  function SubLeaves(entry: (string, Json)): nat {
    if entry.0 == NoOrOther || !entry.1.Obj? then 0 else Sum(entry.1.members, DetailLeaves)
  }

  function DetailLeaves(entry: (string, Json)): nat {
    if entry.0 == NoOrOther then 0
    else match Iterate(entry.1) case Ok(preferences) => |preferences| case Err(_) => 0
  }

  /** A record sits under a preference element of a detail entry. */
  ghost predicate FromDetail(x: Extracted, entry: (string, Json)) {
    && entry.0 == x.detail && x.detail != NoOrOther
    && Iterate(entry.1).Ok?
    && exists p :: p in Iterate(entry.1).value && Leaf(x.main, x.sub, x.detail, x.userName, p) == Ok(x)
  }

  /** A record sits under a detail entry of a subcategory entry. */
  ghost predicate FromSub(x: Extracted, entry: (string, Json)) {
    && entry.0 == x.sub && x.sub != NoOrOther
    && entry.1.Obj?
    && exists d :: d in entry.1.members && FromDetail(x, d)
  }

  /** A record sits under a subcategory entry of a main category entry. */
  ghost predicate FromMain(x: Extracted, entry: (string, Json)) {
    && entry.0 == x.main
    && entry.1.Obj?
    && exists s :: s in entry.1.members && FromSub(x, s)
  }

  lemma {:induction false} DetailRecords(main: string, sub: string, userName: string, entry: (string, Json))
    requires DetailStep(main, sub, userName)(entry).Ok?
    ensures |DetailStep(main, sub, userName)(entry).value| == DetailLeaves(entry)
    ensures forall x :: x in DetailStep(main, sub, userName)(entry).value ==>
      x.main == main && x.sub == sub && x.userName == userName && FromDetail(x, entry)
  {
    var records := DetailStep(main, sub, userName)(entry).value;
    if entry.0 != NoOrOther {
      var preferences := Iterate(entry.1).value;
      assert MapResult(preferences, LeafAt(main, sub, entry.0, userName)) == Ok(records);
      forall x: Extracted | x in records
        ensures x.main == main && x.sub == sub && x.userName == userName && FromDetail(x, entry)
      {
        var k :| 0 <= k < |records| && records[k] == x;
        assert LeafAt(main, sub, entry.0, userName)(preferences[k]) == Ok(x);
        assert preferences[k] in Iterate(entry.1).value;
      }
    }
  }

  lemma {:induction false} SubRecords(main: string, userName: string, entry: (string, Json))
    requires SubStep(main, userName)(entry).Ok?
    ensures |SubStep(main, userName)(entry).value| == SubLeaves(entry)
    ensures forall x :: x in SubStep(main, userName)(entry).value ==>
      x.main == main && x.userName == userName && FromSub(x, entry)
  {
    if entry.0 != NoOrOther {
      var details := entry.1.members;
      var step := DetailStep(main, entry.0, userName);
      forall i | 0 <= i < |details| && step(details[i]).Ok?
        ensures |step(details[i]).value| == DetailLeaves(details[i])
      {
        DetailRecords(main, entry.0, userName, details[i]);
      }
      FlatMapLength(details, step, DetailLeaves);
      forall x: Extracted | x in FlatMap(details, step).value
        ensures x.main == main && x.userName == userName && FromSub(x, entry)
      {
        FlatMapMember(details, step, x);
        var i :| 0 <= i < |details| && step(details[i]).Ok? && x in step(details[i]).value;
        DetailRecords(main, entry.0, userName, details[i]);
        assert details[i] in entry.1.members;
      }
    }
  }

  lemma {:induction false} MainRecords(userName: string, entry: (string, Json))
    requires MainStep(userName)(entry).Ok?
    ensures |MainStep(userName)(entry).value| == MainLeaves(entry)
    ensures forall x :: x in MainStep(userName)(entry).value ==> x.userName == userName && FromMain(x, entry)
  {
    var subs := entry.1.members;
    var step := SubStep(entry.0, userName);
    forall i | 0 <= i < |subs| && step(subs[i]).Ok?
      ensures |step(subs[i]).value| == SubLeaves(subs[i])
    {
      SubRecords(entry.0, userName, subs[i]);
    }
    FlatMapLength(subs, step, SubLeaves);
    forall x: Extracted | x in FlatMap(subs, step).value
      ensures x.userName == userName && FromMain(x, entry)
    {
      FlatMapMember(subs, step, x);
      var i :| 0 <= i < |subs| && step(subs[i]).Ok? && x in step(subs[i]).value;
      SubRecords(entry.0, userName, subs[i]);
      assert subs[i] in entry.1.members;
    }
  }

  /** A record under a main category entry skips no key and carries the labels of its path. */
  lemma {:induction false} PathFacts(x: Extracted, entry: (string, Json))
    requires FromMain(x, entry)
    ensures x.sub != NoOrOther && x.detail != NoOrOther
    ensures Ok(x.labels) == CategoryLabels.ConvertPreferenceToLabels(CategoryItems(x.main, x.sub, x.detail))
  {
    var s :| s in entry.1.members && FromSub(x, s);
    var d :| d in s.1.members && FromDetail(x, d);
    var p :| p in Iterate(d.1).value && Leaf(x.main, x.sub, x.detail, x.userName, p) == Ok(x);
  }

  /**
   * A successful flattening of a non-empty extraction with a valid try
   * emits exactly one record per preference element under non-skipped
   * keys, and every record is the record of such an element, carrying the
   * main, sub and detail keys of its path (none of them skipped) and the
   * labels of that path.
   */
  lemma {:induction false} FlattenRecords(extraction: Json, validAtTry: Option<nat>, userName: string)
    requires Flatten(extraction, validAtTry, userName).Ok?
    ensures var records := Flatten(extraction, validAtTry, userName).value;
      && |records| == (if IsFalsy(extraction) || validAtTry.None? then 0 else LeafCount(extraction))
      && forall x :: x in records ==>
           && x.userName == userName
           && x.sub != NoOrOther && x.detail != NoOrOther
           && Ok(x.labels) == CategoryLabels.ConvertPreferenceToLabels(CategoryItems(x.main, x.sub, x.detail))
           && exists m :: m in extraction.members && FromMain(x, m)
  {
    if !(IsFalsy(extraction) || validAtTry.None?) {
      var mains := extraction.members;
      var step := MainStep(userName);
      forall i | 0 <= i < |mains| && step(mains[i]).Ok?
        ensures |step(mains[i]).value| == MainLeaves(mains[i])
      {
        MainRecords(userName, mains[i]);
      }
      FlatMapLength(mains, step, MainLeaves);
      forall x: Extracted | x in FlatMap(mains, step).value
        ensures && x.userName == userName
                && x.sub != NoOrOther && x.detail != NoOrOther
                && Ok(x.labels) == CategoryLabels.ConvertPreferenceToLabels(CategoryItems(x.main, x.sub, x.detail))
                && exists m :: m in extraction.members && FromMain(x, m)
      {
        FlatMapMember(mains, step, x);
        var i :| 0 <= i < |mains| && step(mains[i]).Ok? && x in step(mains[i]).value;
        MainRecords(userName, mains[i]);
        assert mains[i] in extraction.members;
        PathFacts(x, mains[i]);
      }
    }
  }

  // ------------------------------------------------ valid_at_try bookkeeping

  /**
   * What is recorded about one extraction: `valid_at_try`, the outputs that
   * failed validation, and the numbered records with their count.
   */
  datatype Attempt = Attempt(
    validAtTry: Option<nat>,
    failedExtraction1: Option<Json>,
    failedExtraction2: Option<Json>,
    records: seq<Extracted>,
    numberExtracted: nat)

  /**
   * The record once the extractor has answered and been validated: the
   * outputs that failed are kept, and the output in use is flattened.
   */
  function Outcome(first: PM.Output, retried: Result<(PM.Output, Option<nat>)>, userName: string): Result<Attempt> {
    match retried
    case Err(e) => Err(e)
    case Ok((out, valid)) =>
      var used := if valid.None? then first else out;
      var failed1 := if valid == Some(1) then None else Some(first.arguments);
      var failed2 := if valid.None? then Some(out.arguments) else None;
      match Flatten(used.arguments, valid, userName)
      case Err(e) => Err(e)
      case Ok(records) => Ok(Attempt(valid, failed1, failed2, records, |records|))
  }

  /**
   * How `valid_at_try` shapes the record: a first output that failed
   * validation is kept as `failed_extraction_1`, a retry that failed too as
   * `failed_extraction_2`, nothing is flattened when both failed, and the
   * count is the number of records. On a valid try the records are those
   * of the accepted output, which holds no `None`.
   */
  lemma {:induction false} OutcomeShape(first: PM.Output, check: PM.SchemaCheck, template: string, extractor: PM.Extractor,
                     input: PM.Input, userName: string)
    requires Outcome(first, PM.ValidateAndRetry(first, check, template, extractor, input), userName).Ok?
    ensures var r := PM.ValidateAndRetry(first, check, template, extractor, input);
      var a := Outcome(first, r, userName).value;
      && r.Ok? && a.validAtTry == r.value.1
      && (a.validAtTry == Some(1) || a.validAtTry == Some(2) || a.validAtTry == None)
      && (a.failedExtraction1.Some? <==> a.validAtTry != Some(1))
      && (a.failedExtraction1.Some? ==> a.failedExtraction1.value == first.arguments)
      && (a.failedExtraction2.Some? <==> a.validAtTry.None?)
      && (a.validAtTry.None? ==> a.records == [])
      && (a.validAtTry.Some? ==> Ok(a.records) == Flatten(r.value.0.arguments, a.validAtTry, userName)
                                 && NullFree(r.value.0.arguments))
      && a.numberExtracted == |a.records|
  {
    PM.ValidAtTry(first, check, template, extractor, input);
    PM.ValidOutputIsFiltered(first, check, template, extractor, input);
  }

  /**
   * Validation with at most one retry on the chain, then the counting
   * flattening loop over the output in use; the chain's template is put
   * back.
   */
  method RecordAttempt(first: PM.Output, check: PM.SchemaCheck, chain: PM.Chain, input: PM.Input, userName: string)
    returns (r: Result<Attempt>)
    modifies chain
    ensures r == Outcome(first, PM.ValidateAndRetry(first, check, old(chain.template), chain.extractor, input), userName)
    ensures chain.template == old(chain.template)
  {
    var retried := PM.ValidateOutputAndRetry(first, check, chain, input);
    if retried.Err? {
      return Err(retried.error);
    }
    var (out, valid) := retried.value;
    var used := if valid.None? then first else out;
    var records, count := FlattenExtraction(used.arguments, valid, userName);
    if records.Err? {
      return Err(records.error);
    }
    var failed1 := if valid == Some(1) then None else Some(first.arguments);
    var failed2 := if valid.None? then Some(out.arguments) else None;
    r := Ok(Attempt(valid, failed1, failed2, records.value, count));
  }
}
