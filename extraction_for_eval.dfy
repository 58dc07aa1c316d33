/**
 * The evaluation extraction run: for every conversation of a user line,
 * the ground-truth preference string is decoded, a narrowed schema is
 * built for it, the conversation is turned into extractor messages, the
 * extractor's output is validated and retried, and the accepted output is
 * flattened into numbered records.
 *
 * The language model is a parameter: the validation the schema performs
 * and the extractor built for a schema. The user id is given as its 32
 * hexadecimal digits; parsing it from text is not part of this model.
 */
module ExtractionForEval {
  import opened Wrappers
  import opened Strings
  import opened Json
  import opened PreferenceString
  import Transcript
  import CategoryLabels
  import PydCategory
  import PydanticSchema
  import PM = PreferenceMemory
  import opened ExtractionFlattening

  const InSchema := "in_schema"
  const OutOfSchema := "out_of_schema"
  const UnsupportedExperiment := "Experiment type not supported, either in_schema or out_of_schema"

  /** The number of input lines the run evaluates. */
  const EvaluatedLines := 50

  // ------------------------------------------------------------- user ids

  /** A user id: the 32 hexadecimal digits of its UUID. */
  type Hex32 = s: string | |s| == 32 witness "00000000000000000000000000000000"

  /** `str(uuid)`: the digits in groups of 8, 4, 4, 4 and 12, joined by hyphens. */
  function UuidText(hex: Hex32): (t: string)
    ensures |t| == 36
  {
    hex[..8] + "-" + hex[8..12] + "-" + hex[12..16] + "-" + hex[16..20] + "-" + hex[20..]
  }

  /** The user name the extractor is told: "john-" and the first four digits of the id. */
  function UserName(hex: Hex32): string {
    "john-" + hex[..4]
  }

  /**
   * The user name is "john-" followed by the first four characters of the
   * id's text, and is never the id text itself.
   */
  lemma {:induction false} UserNameOfUuid(hex: Hex32)
    ensures UserName(hex) == "john-" + UuidText(hex)[..4]
    ensures |UserName(hex)| == 9 && UserName(hex) != UuidText(hex)
  {
    assert UuidText(hex)[..4] == hex[..4];
  }

  // ------------------------------------------------------------- messages

  type Turn = Transcript.Turn

  /** An extractor message together with the user id recorded in its metadata. */
  datatype EvalMessage = EvalMessage(message: Transcript.Message, userId: Option<string>)

  /**
   * A turn becomes a message from its first key and first value: the key
   * "USER" makes a user message named after the user and carrying the
   * user id, any other key an assistant message without either. A turn
   * without keys fails.
   */
  function ConvertTurn(turn: Turn, userName: string, userId: string): (r: Result<EvalMessage>)
    ensures r.Err? <==> |turn| == 0
    ensures r.Err? ==> r.error == IndexError(0)
    ensures r.Ok? ==> r.value.message.content == Text(turn[0].1)
    ensures r.Ok? ==> (r.value.message.role == "User" <==> turn[0].0 == "USER")
    ensures r.Ok? ==> (r.value.message.name.Some? <==> turn[0].0 == "USER")
    ensures r.Ok? ==> (r.value.userId.Some? <==> turn[0].0 == "USER")
  {
    if |turn| == 0 then Err(IndexError(0))
    else if turn[0].0 == "USER" then
      Ok(EvalMessage(Transcript.Message("User", Some(userName), Text(turn[0].1)), Some(userId)))
    else
      Ok(EvalMessage(Transcript.Message("Voice Assistant", None, Text(turn[0].1)), None))
  }

  function ConvertTurnFor(userName: string, userId: string): Turn -> Result<EvalMessage> {
    (turn: Turn) => ConvertTurn(turn, userName, userId)
  }

  /** The message list: one message per turn, in order. */
  function ConvertMessages(turns: seq<Turn>, userName: string, userId: string): Result<seq<EvalMessage>> {
    MapResult(turns, ConvertTurnFor(userName, userId))
  }

  function Messages(ms: seq<EvalMessage>): (r: seq<Transcript.Message>)
    ensures |r| == |ms| && forall i :: 0 <= i < |ms| ==> r[i] == ms[i].message
  {
    seq(|ms|, i requires 0 <= i < |ms| => ms[i].message)
  }

  /**
   * In the transcript the extractor reads, a user turn shows as
   * "User <user name>: <text>" and every other turn as
   * "Voice Assistant: <text>".
   */
  lemma {:induction false} ConvertedLine(turn: Turn, userName: string, userId: string)
    requires |turn| > 0
    ensures Transcript.Line(ConvertTurn(turn, userName, userId).value.message) ==
      if turn[0].0 == "USER" then "User " + userName + ": " + Text(turn[0].1)
      else "Voice Assistant: " + Text(turn[0].1)
  {
  }

  // -------------------------------------------------------------- schemas

  /** The schema names of a ground truth, as the class and field-key tables give them. */
  datatype PydNames = PydNames(mainClass: string, mainVar: string, subClass: string, subVar: string, detailVar: string)

  /** The five table lookups, in source order; the first unknown name raises. */
  function PydNamesOf(gt: GroundTruth): (r: Result<PydNames>)
    ensures r.Ok? ==>
      && Ok(r.value.mainVar) == PydCategory.CategoryToPyd(gt.main, CategoryLabels.MainKind)
      && Ok(r.value.subClass) == PydCategory.CategoryToPydSubExtra(gt.sub, CategoryLabels.SubKind)
      && Ok(r.value.subVar) == PydCategory.CategoryToPyd(gt.sub, CategoryLabels.SubKind)
      && Ok(r.value.detailVar) == PydCategory.CategoryToPydSubExtra(gt.detail, CategoryLabels.DetailKind)
    ensures r.Err? ==> r.error.ValueError?
  {
    match PydCategory.CategoryToPydSubExtra(gt.main, CategoryLabels.MainKind)
    case Err(e) => Err(e)
    case Ok(mainClass) =>
      match PydCategory.CategoryToPyd(gt.main, CategoryLabels.MainKind)
      case Err(e) => Err(e)
      case Ok(mainVar) =>
        match PydCategory.CategoryToPydSubExtra(gt.sub, CategoryLabels.SubKind)
        case Err(e) => Err(e)
        case Ok(subClass) =>
          match PydCategory.CategoryToPyd(gt.sub, CategoryLabels.SubKind)
          case Err(e) => Err(e)
          case Ok(subVar) =>
            match PydCategory.CategoryToPydSubExtra(gt.detail, CategoryLabels.DetailKind)
            case Err(e) => Err(e)
            case Ok(detailVar) => Ok(PydNames(mainClass, mainVar, subClass, subVar, detailVar))
  }

  /**
   * The schema the extractor is given: with the ground-truth attribute
   * removed from its examples, or without the ground-truth subcategory.
   */
  function ExperimentSchema(experiment: string, gt: GroundTruth, names: PydNames): (r: Result<PydanticSchema.Schema>)
    ensures experiment != InSchema && experiment != OutOfSchema ==> r == Err(ValueError(UnsupportedExperiment))
  {
    if experiment == InSchema then PydanticSchema.ReturnSchema(names.detailVar, gt.attribute)
    else if experiment == OutOfSchema then
      PydanticSchema.ReturnSchemaWithoutCategory(names.mainVar, names.subVar, names.subClass, names.detailVar)
    else Err(ValueError(UnsupportedExperiment))
  }

  // ---------------------------------------------------- one conversation

  /** What stands in for the language model: schema validation, and the extractor built for a schema. */
  datatype Oracle = Oracle(
    validator: PydanticSchema.Schema -> PM.SchemaCheck,
    extractorFor: PydanticSchema.Schema -> PM.Extractor,
    template: string)

  /** One conversation of a user line: its ground-truth string and its turns. */
  datatype Datapoint = Datapoint(userPreference: string, conversation: seq<Turn>)

  /** The `conversation_extracted_preferences` entry of a conversation. */
  datatype ConversationExtraction = ConversationExtraction(
    groundTruth: GroundTruth,
    groundTruthLabels: seq<int>,
    attempt: Attempt)

  /** The transcript input of the extractor for a conversation. */
  function InputOf(hex: Hex32, messages: seq<EvalMessage>): PM.Input {
    PM.Input(UserName(hex), Join(Transcript.Lines(Messages(messages)), "\n"))
  }

  /** Everything the run does for one conversation, up to the first failure. */
  function ExtractConversation(experiment: string, hex: Hex32, oracle: Oracle, datapoint: Datapoint)
    : Result<ConversationExtraction>
  {
    match ParseGroundTruth(datapoint.userPreference)
    case Err(e) => Err(e)
    case Ok(gt) =>
      match PydNamesOf(gt)
      case Err(e) => Err(e)
      case Ok(names) =>
        match ExperimentSchema(experiment, gt, names)
        case Err(e) => Err(e)
        case Ok(schema) =>
          match CategoryLabels.ConvertPreferenceToLabels(CategoryItems(gt.main, gt.sub, gt.detail))
          case Err(e) => Err(e)
          case Ok(gtLabels) =>
            match ConvertMessages(datapoint.conversation, UserName(hex), UuidText(hex))
            case Err(e) => Err(e)
            case Ok(messages) =>
              var input := InputOf(hex, messages);
              var extractor := oracle.extractorFor(schema);
              var first := extractor(oracle.template, input);
              match Outcome(first, PM.ValidateAndRetry(first, oracle.validator(schema), oracle.template, extractor, input),
                            UserName(hex))
              case Err(e) => Err(e)
              case Ok(attempt) => Ok(ConversationExtraction(gt, gtLabels, attempt))
  }

  /**
   * The whole conversation step with the imperative chain: a fresh chain
   * for the conversation's schema, one invocation, validation with at most
   * one retry, and the counting flattening loop.
   */
  method ExtractDatapoint(experiment: string, hex: Hex32, oracle: Oracle, datapoint: Datapoint)
    returns (r: Result<ConversationExtraction>)
    ensures r == ExtractConversation(experiment, hex, oracle, datapoint)
  {
    var parsed := ParseGroundTruth(datapoint.userPreference);
    if parsed.Err? {
      return Err(parsed.error);
    }
    var gt := parsed.value;
    var names := PydNamesOf(gt);
    if names.Err? {
      return Err(names.error);
    }
    var schema := ExperimentSchema(experiment, gt, names.value);
    if schema.Err? {
      return Err(schema.error);
    }
    var chain := new PM.Chain(oracle.template, oracle.extractorFor(schema.value));
    var gtLabels := CategoryLabels.ConvertPreferenceToLabels(CategoryItems(gt.main, gt.sub, gt.detail));
    if gtLabels.Err? {
      return Err(gtLabels.error);
    }
    var messages := MapEach(datapoint.conversation, ConvertTurnFor(UserName(hex), UuidText(hex)));
    if messages.Err? {
      return Err(messages.error);
    }
    var input := InputOf(hex, messages.value);
    var first := chain.Invoke(input);
    var attempt := RecordAttempt(first, oracle.validator(schema.value), chain, input, UserName(hex));
    if attempt.Err? {
      return Err(attempt.error);
    }
    r := Ok(ConversationExtraction(gt, gtLabels.value, attempt.value));
  }

  // ------------------------------------------------------------- the run

  function ExtractAt(experiment: string, hex: Hex32, oracle: Oracle): Datapoint -> Result<ConversationExtraction> {
    (datapoint: Datapoint) => ExtractConversation(experiment, hex, oracle, datapoint)
  }

  /** The loop over one user line's conversations; a failure ends the run. */
  method ExtractLine(experiment: string, hex: Hex32, oracle: Oracle, data: seq<Datapoint>)
    returns (r: Result<seq<ConversationExtraction>>)
    ensures r == MapResult(data, ExtractAt(experiment, hex, oracle))
  {
    var step := ExtractAt(experiment, hex, oracle);
    var entries: seq<ConversationExtraction> := [];
    for i := 0 to |data|
      invariant MapResult(data[..i], step) == Ok(entries)
    {
      var entry := ExtractDatapoint(experiment, hex, oracle, data[i]);
      MapResultExtend(data, step, i, entries);
      if entry.Err? {
        MapResultFailsEarly(data, step, i + 1);
        return Err(entry.error);
      }
      entries := entries + [entry.value];
    }
    assert data[..|data|] == data;
    r := Ok(entries);
  }

  /** A user line: the user id and the conversations. */
  datatype UserLine = UserLine(hex: Hex32, data: seq<Datapoint>)

  function LineAt(experiment: string, oracle: Oracle): UserLine -> Result<seq<ConversationExtraction>> {
    (line: UserLine) => MapResult(line.data, ExtractAt(experiment, line.hex, oracle))
  }

  /**
   * The run: the experiment type is checked before anything else, and the
   * first 50 lines are processed, every conversation of a line receiving
   * its entry.
   */
  function ExtractRun(experiment: string, oracle: Oracle, lines: seq<UserLine>): (r: Result<seq<seq<ConversationExtraction>>>)
    ensures experiment != InSchema && experiment != OutOfSchema ==> r == Err(ValueError(UnsupportedExperiment))
    ensures r.Ok? ==> |r.value| == if |lines| < EvaluatedLines then |lines| else EvaluatedLines
    ensures r.Ok? ==> forall i :: 0 <= i < |r.value| ==> |r.value[i]| == |lines[i].data|
  {
    if experiment != InSchema && experiment != OutOfSchema then Err(ValueError(UnsupportedExperiment))
    else
      var evaluated := if |lines| < EvaluatedLines then lines else lines[..EvaluatedLines];
      MapResult(evaluated, LineAt(experiment, oracle))
  }
}
