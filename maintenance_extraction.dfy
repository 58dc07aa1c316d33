/**
 * The extraction of the maintenance questions: for every conversation
 * whose own extraction was exactly right, the equal and the different
 * questions get a record built from the ground truth (no extractor is
 * asked), and the negate question, addressed to the user, is extracted,
 * validated, retried and flattened. One chain serves the whole line, and
 * its template is back to the original after every conversation.
 */
module MaintenanceExtraction {
  import opened Wrappers
  import opened Json
  import opened PreferenceString
  import CategoryLabels
  import PydCategory
  import PM = PreferenceMemory
  import opened ExtractionFlattening
  import ExtractionForEval

  type Hex32 = ExtractionForEval.Hex32

  /** The maintenance questions of a conversation and the attribute the different question names. */
  datatype Questions = Questions(equal: string, negate: string, different: string, differentAttribute: string)

  /**
   * A conversation of a user line: its ground-truth string, the detail
   * accuracy of its earlier extraction (`None` when that extraction is
   * missing) and its maintenance questions.
   */
  datatype Conversation = Conversation(userPreference: string, detailAccuracy: Option<real>, questions: Questions)

  /** A written conversation with its three extraction entries. */
  datatype Entry = Entry(conversation: Conversation, equal: Extracted, negate: Attempt, different: Extracted)

  /** The negate question as the extractor reads it: addressed by the user. */
  function NegateQuestion(userName: string, question: string): (q: string)
    ensures |q| == |userName| + |question| + 7
    ensures q[..5] == "user " && q[|q| - |question|..] == question
  {
    "user " + userName + ": " + question
  }

  /**
   * A record made without the extractor: the ground-truth categories as
   * field keys, the given text and attribute, the user id as user name,
   * and the labels of the field keys.
   */
  function ArtificialRecord(gt: GroundTruth, text: string, attribute: string, userId: string): (r: Result<Extracted>)
    ensures r.Ok? <==>
      PydCategory.CategoryToPyd(gt.main, CategoryLabels.MainKind).Ok? &&
      PydCategory.CategoryToPyd(gt.sub, CategoryLabels.SubKind).Ok? &&
      PydCategory.CategoryToPyd(gt.detail, CategoryLabels.DetailKind).Ok? &&
      CategoryLabels.ConvertPreferenceToLabels(CategoryItems(
        PydCategory.CategoryToPyd(gt.main, CategoryLabels.MainKind).value,
        PydCategory.CategoryToPyd(gt.sub, CategoryLabels.SubKind).value,
        PydCategory.CategoryToPyd(gt.detail, CategoryLabels.DetailKind).value)).Ok?
  {
    match PydCategory.CategoryToPyd(gt.main, CategoryLabels.MainKind)
    case Err(e) => Err(e)
    case Ok(main) =>
      match PydCategory.CategoryToPyd(gt.sub, CategoryLabels.SubKind)
      case Err(e) => Err(e)
      case Ok(sub) =>
        match PydCategory.CategoryToPyd(gt.detail, CategoryLabels.DetailKind)
        case Err(e) => Err(e)
        case Ok(detail) =>
          match CategoryLabels.ConvertPreferenceToLabels(CategoryItems(main, sub, detail))
          case Err(e) => Err(e)
          case Ok(labels) => Ok(Extracted(main, sub, detail, Str(text), Str(attribute), userId, labels))
  }

  /**
   * An artificial record carries exactly the labels of the ground truth:
   * translating the category names to field keys keeps every label.
   */
  lemma {:induction false} ArtificialLabels(gt: GroundTruth, text: string, attribute: string, userId: string)
    requires ArtificialRecord(gt, text, attribute, userId).Ok?
    ensures Ok(ArtificialRecord(gt, text, attribute, userId).value.labels)
      == CategoryLabels.ConvertPreferenceToLabels(CategoryItems(gt.main, gt.sub, gt.detail))
  {
    var main := PydCategory.CategoryToPyd(gt.main, CategoryLabels.MainKind).value;
    var sub := PydCategory.CategoryToPyd(gt.sub, CategoryLabels.SubKind).value;
    var detail := PydCategory.CategoryToPyd(gt.detail, CategoryLabels.DetailKind).value;
    PydCategory.PydKeepsLabel(gt.main, CategoryLabels.MainKind);
    PydCategory.PydKeepsLabel(gt.sub, CategoryLabels.SubKind);
    PydCategory.PydKeepsLabel(gt.detail, CategoryLabels.DetailKind);
    var keys := CategoryItems(main, sub, detail);
    var names := CategoryItems(gt.main, gt.sub, gt.detail);
    assert forall i :: 0 <= i < 3 ==>
      CategoryLabels.StringToNumber(keys[i].1, keys[i].0) == CategoryLabels.StringToNumber(names[i].1, names[i].0);
    var a := CategoryLabels.ConvertPreferenceToLabels(keys);
    var b := CategoryLabels.ConvertPreferenceToLabels(names);
    assert a.Ok? && b.Ok?;
    assert a.value == b.value;
  }

  /**
   * The different record is the equal record with the different question
   * as text and the different attribute: same categories, same user, same
   * labels.
   */
  lemma {:induction false} DifferentIsEqualRetold(gt: GroundTruth, c: Conversation, userId: string)
    requires ArtificialRecord(gt, c.questions.equal, gt.attribute, userId).Ok?
    ensures var equal := ArtificialRecord(gt, c.questions.equal, gt.attribute, userId).value;
      ArtificialRecord(gt, c.questions.different, c.questions.differentAttribute, userId)
        == Ok(equal.(text := Str(c.questions.different), attribute := Str(c.questions.differentAttribute)))
  {
  }

  /** Everything done for one conversation whose earlier extraction was exactly right. */
  function MaintainConversation(hex: Hex32, check: PM.SchemaCheck, template: string, extractor: PM.Extractor,
                                c: Conversation): (r: Result<Entry>)
    ensures r.Ok? ==> r.value.conversation == c && ParseGroundTruth(c.userPreference).Ok?
    ensures r.Ok? ==> var gt := ParseGroundTruth(c.userPreference).value;
      var userId := ExtractionForEval.UuidText(hex);
      && Ok(r.value.equal) == ArtificialRecord(gt, c.questions.equal, gt.attribute, userId)
      && Ok(r.value.different) == ArtificialRecord(gt, c.questions.different, c.questions.differentAttribute, userId)
  {
    var userName := ExtractionForEval.UserName(hex);
    var userId := ExtractionForEval.UuidText(hex);
    match ParseGroundTruth(c.userPreference)
    case Err(e) => Err(e)
    case Ok(gt) =>
      match ArtificialRecord(gt, c.questions.equal, gt.attribute, userId)
      case Err(e) => Err(e)
      case Ok(equal) =>
        match ArtificialRecord(gt, c.questions.different, c.questions.differentAttribute, userId)
        case Err(e) => Err(e)
        case Ok(different) =>
          var input := PM.Input(userName, NegateQuestion(userName, c.questions.negate));
          var first := extractor(template, input);
          match Outcome(first, PM.ValidateAndRetry(first, check, template, extractor, input), userId)
          case Err(e) => Err(e)
          case Ok(negate) => Ok(Entry(c, equal, negate, different))
  }

  /** A conversation is written only when its earlier detail accuracy is exactly 1. */
  predicate Perfect(c: Conversation) {
    c.detailAccuracy == Some(1.0)
  }

  /** The step of the conversation loop for the given model of a written conversation. */
  function MaintainFor(hex: Hex32, check: PM.SchemaCheck, template: string, extractor: PM.Extractor)
    : Conversation -> Result<Entry>
  {
    (c: Conversation) => MaintainConversation(hex, check, template, extractor, c)
  }

  /** The entries a conversation contributes: none when it is skipped. */
  function KeepPerfect(maintain: Conversation -> Result<Entry>): Conversation -> Result<seq<Entry>> {
    (c: Conversation) =>
      if !Perfect(c) then Ok([])
      else
        match maintain(c)
        case Err(e) => Err(e)
        case Ok(entry) => Ok([entry])
  }

  /** The position of the first conversation without an earlier extraction, or the length. */
  function FirstMissing(cs: seq<Conversation>): (k: nat)
    ensures k <= |cs|
    ensures forall i :: 0 <= i < k ==> cs[i].detailAccuracy.Some?
    ensures k < |cs| ==> cs[k].detailAccuracy.None?
  {
    if |cs| == 0 then 0
    else if cs[0].detailAccuracy.None? then 0
    else 1 + FirstMissing(cs[1..])
  }

  /**
   * The written conversations of a user line: processing stops at the
   * first conversation without an earlier extraction, and of the ones
   * before it exactly the perfect ones are kept, in order.
   */
  function MaintainLine(hex: Hex32, check: PM.SchemaCheck, template: string, extractor: PM.Extractor,
                        cs: seq<Conversation>): Result<seq<Entry>>
  {
    FlatMap(cs[..FirstMissing(cs)], KeepPerfect(MaintainFor(hex, check, template, extractor)))
  }

  /** One perfect conversation, with the negate question sent through the shared chain. */
  method MaintainOne(hex: Hex32, check: PM.SchemaCheck, chain: PM.Chain, c: Conversation) returns (r: Result<Entry>)
    modifies chain
    ensures r == MaintainConversation(hex, check, old(chain.template), chain.extractor, c)
    ensures chain.template == old(chain.template)
  {
    var userName := ExtractionForEval.UserName(hex);
    var userId := ExtractionForEval.UuidText(hex);
    var parsed := ParseGroundTruth(c.userPreference);
    if parsed.Err? {
      return Err(parsed.error);
    }
    var gt := parsed.value;
    var equal := ArtificialRecord(gt, c.questions.equal, gt.attribute, userId);
    if equal.Err? {
      return Err(equal.error);
    }
    var different := ArtificialRecord(gt, c.questions.different, c.questions.differentAttribute, userId);
    var input := PM.Input(userName, NegateQuestion(userName, c.questions.negate));
    var first := chain.Invoke(input);
    var negate := RecordAttempt(first, check, chain, input, userId);
    if negate.Err? {
      return Err(negate.error);
    }
    r := Ok(Entry(c, equal.value, negate.value, different.value));
  }

  /**
   * The conversation loop with the shared chain: `continue` past an
   * imperfect conversation, `break` at a missing extraction; the template
   * is the original again afterwards.
   */
  method ExtractMaintenanceLine(hex: Hex32, check: PM.SchemaCheck, chain: PM.Chain, cs: seq<Conversation>)
    returns (r: Result<seq<Entry>>)
    modifies chain
    ensures r == MaintainLine(hex, check, old(chain.template), chain.extractor, cs)
    ensures chain.template == old(chain.template)
  {
    var template := chain.template;
    var maintain := MaintainFor(hex, check, template, chain.extractor);
    var step := KeepPerfect(maintain);
    var stop := FirstMissing(cs);
    var entries: seq<Entry> := [];
    var i := 0;
    while i < |cs| && cs[i].detailAccuracy.Some?
      invariant i <= stop
      invariant chain.template == template
      invariant FlatMap(cs[..stop][..i], step) == Ok(entries)
    {
      assert i < stop && cs[..stop][i] == cs[i];
      ExtendStep(maintain, cs[..stop], i, entries);
      if !Perfect(cs[i]) {
        i := i + 1;
        continue;
      }
      var entry := MaintainOne(hex, check, chain, cs[i]);
      if entry.Err? {
        return Err(entry.error);
      }
      entries := entries + [entry.value];
      i := i + 1;
    }
    assert i == stop;
    assert cs[..stop][..i] == cs[..stop];
    r := Ok(entries);
  }

  /** The written entries of a prefix, one conversation further. */
  lemma {:induction false} ExtendStep(maintain: Conversation -> Result<Entry>, cs: seq<Conversation>, i: nat, entries: seq<Entry>)
    requires i < |cs| && FlatMap(cs[..i], KeepPerfect(maintain)) == Ok(entries)
    ensures var step := KeepPerfect(maintain);
      && (!Perfect(cs[i]) ==> FlatMap(cs[..i + 1], step) == Ok(entries))
      && (Perfect(cs[i]) && maintain(cs[i]).Ok? ==> FlatMap(cs[..i + 1], step) == Ok(entries + [maintain(cs[i]).value]))
      && (Perfect(cs[i]) && maintain(cs[i]).Err? ==> FlatMap(cs, step) == Err(maintain(cs[i]).error))
  {
    var step := KeepPerfect(maintain);
    FlatMapExtend(cs, step, i, entries);
    assert entries + [] == entries;
    if Perfect(cs[i]) && maintain(cs[i]).Err? {
      FlatMapFailsEarly(cs, step, i + 1);
    }
  }

  /**
   * A written line holds exactly the perfect conversations before the
   * first one without an earlier extraction, in their order, each with
   * records whose labels are those of its ground truth.
   */
  lemma {:induction false} WrittenConversations(hex: Hex32, check: PM.SchemaCheck, template: string, extractor: PM.Extractor,
                             cs: seq<Conversation>)
    requires MaintainLine(hex, check, template, extractor, cs).Ok?
    ensures var written := MaintainLine(hex, check, template, extractor, cs).value;
      var before := cs[..FirstMissing(cs)];
      && |written| == |Perfects(before)|
      && (forall k :: 0 <= k < |written| ==> written[k].conversation == Perfects(before)[k])
      && (forall e :: e in written ==>
            && ParseGroundTruth(e.conversation.userPreference).Ok?
            && var gt := ParseGroundTruth(e.conversation.userPreference).value;
               && Ok(e.equal.labels) == CategoryLabels.ConvertPreferenceToLabels(CategoryItems(gt.main, gt.sub, gt.detail))
               && e.different.labels == e.equal.labels)
  {
    var before := cs[..FirstMissing(cs)];
    var maintain := MaintainFor(hex, check, template, extractor);
    var step := KeepPerfect(maintain);
    forall c | maintain(c).Ok?
      ensures maintain(c).value.conversation == c
    {
      assert maintain(c) == MaintainConversation(hex, check, template, extractor, c);
    }
    PerfectsOfStep(maintain, before);
    forall e | e in FlatMap(before, step).value {
      WrittenEntryLabels(hex, check, template, extractor, before, e);
    }
  }

  /** Each written entry carries the labels of its conversation's ground truth. */
  lemma {:induction false} WrittenEntryLabels(hex: Hex32, check: PM.SchemaCheck, template: string, extractor: PM.Extractor,
                           before: seq<Conversation>, e: Entry)
    requires FlatMap(before, KeepPerfect(MaintainFor(hex, check, template, extractor))).Ok?
    requires e in FlatMap(before, KeepPerfect(MaintainFor(hex, check, template, extractor))).value
    ensures ParseGroundTruth(e.conversation.userPreference).Ok?
    ensures var gt := ParseGroundTruth(e.conversation.userPreference).value;
      && Ok(e.equal.labels) == CategoryLabels.ConvertPreferenceToLabels(CategoryItems(gt.main, gt.sub, gt.detail))
      && e.different.labels == e.equal.labels
  {
    var maintain := MaintainFor(hex, check, template, extractor);
    var step := KeepPerfect(maintain);
    FlatMapMember(before, step, e);
    var i :| 0 <= i < |before| && step(before[i]).Ok? && e in step(before[i]).value;
    StepShape(maintain, before[i]);
    assert maintain(before[i]) == MaintainConversation(hex, check, template, extractor, before[i]);
    EntryLabels(hex, check, template, extractor, before[i]);
  }

  /** A conversation contributes its own entry when perfect and nothing otherwise. */
  lemma {:induction false} StepShape(maintain: Conversation -> Result<Entry>, c: Conversation)
    requires KeepPerfect(maintain)(c).Ok?
    ensures var written := KeepPerfect(maintain)(c).value;
      && |written| == (if Perfect(c) then 1 else 0)
      && (Perfect(c) ==> written == [maintain(c).value])
  {
  }

  /** Both artificial records of an entry carry the labels of its ground truth. */
  lemma {:induction false} EntryLabels(hex: Hex32, check: PM.SchemaCheck, template: string, extractor: PM.Extractor, c: Conversation)
    requires MaintainConversation(hex, check, template, extractor, c).Ok?
    ensures var e := MaintainConversation(hex, check, template, extractor, c).value;
      var gt := ParseGroundTruth(c.userPreference).value;
      && Ok(e.equal.labels) == CategoryLabels.ConvertPreferenceToLabels(CategoryItems(gt.main, gt.sub, gt.detail))
      && e.different.labels == e.equal.labels
  {
    var gt := ParseGroundTruth(c.userPreference).value;
    var userId := ExtractionForEval.UuidText(hex);
    ArtificialLabels(gt, c.questions.equal, gt.attribute, userId);
    ArtificialLabels(gt, c.questions.different, c.questions.differentAttribute, userId);
  }

  /** The perfect conversations of a sequence, in order. */
  function Perfects(cs: seq<Conversation>): (r: seq<Conversation>)
    ensures forall c :: c in r ==> c in cs && Perfect(c)
  {
    if |cs| == 0 then []
    else Perfects(cs[..|cs| - 1]) + (if Perfect(cs[|cs| - 1]) then [cs[|cs| - 1]] else [])
  }

  lemma {:induction false} PerfectsOfStep(maintain: Conversation -> Result<Entry>, cs: seq<Conversation>)
    requires forall c :: maintain(c).Ok? ==> maintain(c).value.conversation == c
    requires FlatMap(cs, KeepPerfect(maintain)).Ok?
    ensures var written := FlatMap(cs, KeepPerfect(maintain)).value;
      && |written| == |Perfects(cs)|
      && forall k :: 0 <= k < |written| ==> written[k].conversation == Perfects(cs)[k]
    decreases |cs|
  {
    if |cs| > 0 {
      var init := cs[..|cs| - 1];
      var last := cs[|cs| - 1];
      PerfectsOfStep(maintain, init);
      StepShape(maintain, last);
    }
  }

  // ------------------------------------------------------------- the run

  /** A user line: the user id and its conversations. */
  datatype UserLine = UserLine(hex: Hex32, data: seq<Conversation>)

  /** Every input line except the last, which holds the overall results. */
  function UserLines(lines: seq<UserLine>): (r: seq<UserLine>)
    ensures |r| == if |lines| == 0 then 0 else |lines| - 1
    ensures r <= lines
  {
    if |lines| == 0 then [] else lines[..|lines| - 1]
  }

  function LineFor(check: PM.SchemaCheck, template: string, extractor: PM.Extractor): UserLine -> Result<seq<Entry>> {
    (line: UserLine) => MaintainLine(line.hex, check, template, extractor, line.data)
  }

  /** The written lines of a run: each user line with its written conversations. */
  function MaintainRun(check: PM.SchemaCheck, template: string, extractor: PM.Extractor, lines: seq<UserLine>)
    : (r: Result<seq<seq<Entry>>>)
    ensures r.Ok? ==> |r.value| == if |lines| == 0 then 0 else |lines| - 1
    ensures r.Ok? <==> forall i :: 0 <= i < |lines| - 1 ==>
      MaintainLine(lines[i].hex, check, template, extractor, lines[i].data).Ok?
    ensures r.Ok? ==> forall i :: 0 <= i < |lines| - 1 ==>
      r.value[i] == MaintainLine(lines[i].hex, check, template, extractor, lines[i].data).value
  {
    MapResult(UserLines(lines), LineFor(check, template, extractor))
  }

  /** The loop over the user lines, all served by one chain. */
  method ExtractMaintenanceRun(check: PM.SchemaCheck, chain: PM.Chain, lines: seq<UserLine>)
    returns (r: Result<seq<seq<Entry>>>)
    modifies chain
    ensures r == MaintainRun(check, old(chain.template), chain.extractor, lines)
    ensures chain.template == old(chain.template)
  {
    var users := UserLines(lines);
    var step := LineFor(check, chain.template, chain.extractor);
    var written: seq<seq<Entry>> := [];
    for i := 0 to |users|
      invariant chain.template == old(chain.template)
      invariant MapResult(users[..i], step) == Ok(written)
    {
      var entries := ExtractMaintenanceLine(users[i].hex, check, chain, users[i].data);
      MapResultExtend(users, step, i, written);
      if entries.Err? {
        MapResultFailsEarly(users, step, i + 1);
        return Err(entries.error);
      }
      written := written + [entries.value];
    }
    assert users[..|users|] == users;
    r := Ok(written);
  }
}
