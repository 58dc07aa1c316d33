/**
 * The conversation generator's prompt inputs: the dynamic pieces drawn
 * per user (age, proficiency, style, city, proactivity, preference
 * strength, conversation length and reveal position), the topic and
 * attribute cut from the preference string, the override rule of the
 * no-preference variant and the metadata recorded next to each generated
 * conversation. The random draws, the city table, the few-shot file and
 * the language model are parameters.
 */
module ExtractionConversations {
  import opened Wrappers
  import opened Strings
  import opened Json
  import PreferenceString

  const Proficiencies: seq<string> := ["low", "middle", "high"]

  const ConversationStyles: seq<string> := [
    "Keyword only: direct, to-the-point.",
    "Commanding: straightforward, imperative sentences.",
    "Questioning: seeking information, clarification.",
    "Conversational: casual, human-like manner."
  ]

  const ProactivityLevels: seq<string> := ["medium", "high", "very high - no questions"]

  const StrengthModulations: seq<string> := ["subtly hinted at", "clearly stated", "strongly emphasized"]

  // --------------------------------------------------------------- draws

  /** The values `range(start, stop, step)` runs through, for a positive step. */
  function Steps(start: int, stop: int, step: nat): (r: seq<int>)
    requires step > 0
    ensures start < stop ==> |r| > 0 && r[0] == start
    decreases stop - start
  {
    if start >= stop then [] else [start] + Steps(start + step, stop, step)
  }

  /** Every value of the range lies in [start, stop). */
  lemma {:induction false} StepsBounds(start: int, stop: int, step: nat)
    requires step > 0
    ensures forall v :: v in Steps(start, stop, step) ==> start <= v < stop
    decreases stop - start
  {
    if start < stop {
      StepsBounds(start + step, stop, step);
    }
  }

  /** A raw draw selects one of the options (CPython draws an index below their number). */
  function Pick<T>(options: seq<T>, draw: nat): (r: T)
    requires |options| > 0
    ensures r in options
  {
    options[draw % |options|]
  }

  /** How many values `range(start, stop, step)` has, by CPython's formula for a positive step. */
  function RangeCount(start: int, stop: int, step: nat): (n: nat)
    requires step > 0
    ensures start < stop ==> n > 0 && step * (n - 1) < stop - start <= step * n
  {
    if start >= stop then 0
    else
      var a := stop - start + step - 1;
      assert a == step * (a / step) + a % step;
      a / step
  }

  /**
   * `random.randrange(start, stop, step)`: the start plus the step times
   * an index drawn below the number of values.
   */
  function RandRange(start: int, stop: int, step: nat, draw: nat): (r: int)
    requires step > 0 && start < stop
    ensures start <= r < stop
  {
    var n := RangeCount(start, stop, step);
    var k := draw % n;
    MulMonotone(step, 0, k);
    MulMonotone(step, k, n - 1);
    start + step * k
  }

  lemma {:induction false} MulMonotone(c: nat, a: int, b: int)
    requires a <= b
    ensures c * a <= c * b
  {
    assert c * b - c * a == c * (b - a);
  }

  /** The i-th value of a range is the start plus i steps. */
  lemma {:induction false} StepsAt(start: int, stop: int, step: nat, i: nat)
    requires step > 0 && i < |Steps(start, stop, step)|
    ensures Steps(start, stop, step)[i] == start + step * i
    decreases stop - start
  {
    if i > 0 {
      StepsAt(start + step, stop, step, i - 1);
      assert step * i == step + step * (i - 1);
    }
  }

  /** A range has as many values as CPython's formula counts. */
  lemma {:induction false} StepsCount(start: int, stop: int, step: nat)
    requires step > 0
    ensures |Steps(start, stop, step)| == RangeCount(start, stop, step)
    decreases stop - start
  {
    if start < stop {
      StepsCount(start + step, stop, step);
      var n, m := RangeCount(start, stop, step), RangeCount(start + step, stop, step);
      assert step * m == step * (m + 1) - step;
      if m + 1 < n {
        MulMonotone(step, m + 1, n - 1);
      } else if n < m + 1 {
        MulMonotone(step, n, m);
      }
    }
  }

  /** The draw selects the value of the range at the drawn index: randrange picks from `range`. */
  lemma {:induction false} RandRangeInSteps(start: int, stop: int, step: nat, draw: nat)
    requires step > 0 && start < stop
    ensures RandRange(start, stop, step, draw) == Pick(Steps(start, stop, step), draw)
  {
    StepsCount(start, stop, step);
    StepsAt(start, stop, step, draw % RangeCount(start, stop, step));
  }

  /** `random.choice(options)`. */
  function Choice(options: seq<string>, draw: nat): (r: string)
    requires |options| > 0
    ensures r in options
  {
    Pick(options, draw)
  }

  /** The raw draws behind one call of `sample_dynamic_prompt_inputs`, in call order. */
  datatype Draws = Draws(age: nat, proficiency: nat, style: nat, proactivity: nat, strength: nat, length: nat, position: nat)

  /** The dynamic pieces the chain holds after sampling. */
  datatype Dynamic = Dynamic(
    age: int, proficiency: string, style: string, city: string,
    proactivity: string, strength: string, length: int, position: int)

  /**
   * What a sampling can produce: an age among 20, 30, ..., 80, each text
   * piece one of its listed options, an even length from 2 to 8 and an
   * odd reveal position before the end of the conversation.
   */
  predicate WellSampled(s: Dynamic) {
    NumbersSampled(s) && OptionsSampled(s)
  }

  predicate NumbersSampled(s: Dynamic) {
    && s.age in {20, 30, 40, 50, 60, 70, 80}
    && s.length in {2, 4, 6, 8}
    && s.position % 2 == 1 && 1 <= s.position < s.length
  }

  predicate OptionsSampled(s: Dynamic) {
    && s.proficiency in Proficiencies
    && s.style in ConversationStyles
    && s.proactivity in ProactivityLevels
    && s.strength in StrengthModulations
  }

  /** The ages `randrange(20, 90, 10)` runs through. */
  lemma {:induction false} AgeSteps()
    ensures Steps(20, 90, 10) == [20, 30, 40, 50, 60, 70, 80]
  {
    assert Steps(80, 90, 10) == [80];
  }

  /** The lengths `randrange(2, 10, 2)` runs through. */
  lemma {:induction false} LengthSteps()
    ensures Steps(2, 10, 2) == [2, 4, 6, 8]
  {
    assert Steps(8, 10, 2) == [8];
  }

  /** An age draw gives 20, 30, ..., 80. */
  lemma {:induction false} AgeDrawn(draw: nat)
    ensures RandRange(20, 90, 10, draw) in {20, 30, 40, 50, 60, 70, 80}
  {
    RandRangeInSteps(20, 90, 10, draw);
    AgeSteps();
  }

  /** A length draw gives 2, 4, 6 or 8. */
  lemma {:induction false} LengthDrawn(draw: nat)
    ensures RandRange(2, 10, 2, draw) in {2, 4, 6, 8}
  {
    RandRangeInSteps(2, 10, 2, draw);
    LengthSteps();
  }

  /** A position draw gives an odd number below the length. */
  lemma {:induction false} PositionDrawn(length: int, draw: nat)
    requires length in {2, 4, 6, 8}
    ensures var p := RandRange(1, length, 2, draw); p % 2 == 1 && 1 <= p < length
  {
    var k := draw % RangeCount(1, length, 2);
    assert RandRange(1, length, 2, draw) == 1 + 2 * k;
  }

  /** The pieces one set of draws and one sampled city produce. */
  function Sample(d: Draws, city: string): (s: Dynamic)
    ensures WellSampled(s) && s.city == city
  {
    var age := RandRange(20, 90, 10, d.age);
    var length := RandRange(2, 10, 2, d.length);
    var position := RandRange(1, length, 2, d.position);
    AgeDrawn(d.age);
    LengthDrawn(d.length);
    PositionDrawn(length, d.position);
    Dynamic(
      age, Choice(Proficiencies, d.proficiency), Choice(ConversationStyles, d.style), city,
      Choice(ProactivityLevels, d.proactivity), Choice(StrengthModulations, d.strength), length, position)
  }

  /** The draw `i` selects the `i`-th option. */
  lemma {:induction false} PickAt<T>(options: seq<T>, i: nat)
    requires i < |options|
    ensures Pick(options, i) == options[i]
  {
  }

  /** An index below the number of values draws the value that many steps from the start. */
  lemma {:induction false} RandRangeAt(start: int, stop: int, step: nat, k: nat)
    requires step > 0 && start < stop && k < RangeCount(start, stop, step)
    ensures RandRange(start, stop, step, k) == start + step * k
  {
    var n := RangeCount(start, stop, step);
    assert k % n == k by {
      assert k / n == 0;
    }
  }

  /** Each age is drawn by the number of steps from 20. */
  lemma {:induction false} AgeHit(age: int)
    requires age in {20, 30, 40, 50, 60, 70, 80}
    ensures RandRange(20, 90, 10, (age - 20) / 10) == age
  {
    RandRangeAt(20, 90, 10, (age - 20) / 10);
  }

  /** Each length is drawn by the number of steps from 2. */
  lemma {:induction false} LengthHit(length: int)
    requires length in {2, 4, 6, 8}
    ensures RandRange(2, 10, 2, (length - 2) / 2) == length
  {
    RandRangeAt(2, 10, 2, (length - 2) / 2);
  }

  /** Each odd position below the length is drawn by the number of steps from 1. */
  lemma {:induction false} PositionHit(length: int, position: int)
    requires length in {2, 4, 6, 8} && position % 2 == 1 && 1 <= position < length
    ensures RandRange(1, length, 2, (position - 1) / 2) == position
  {
    assert RangeCount(1, length, 2) == length / 2;
    RandRangeAt(1, length, 2, (position - 1) / 2);
  }

  /** Each listed option is drawn by its own index. */
  lemma {:induction false} ChoiceHit(options: seq<string>, x: string)
    requires x in options
    ensures Choice(options, IndexOf(options, x)) == x
  {
    PickAt(options, IndexOf(options, x));
  }

  /** Every well-sampled combination is produced by some draws: the bounds are exact. */
  lemma {:induction false} SampleCovers(s: Dynamic)
    requires WellSampled(s)
    ensures exists d: Draws :: Sample(d, s.city) == s
  {
    var age, length, position := NumbersHit(s);
    var proficiency, style, proactivity, strength := OptionsHit(s);
    var d := Draws(age, proficiency, style, proactivity, strength, length, position);
    SampleFields(d, s);
  }

  /** The draws that select the sampled age, length and position. */
  lemma {:induction false} NumbersHit(s: Dynamic) returns (age: nat, length: nat, position: nat)
    requires NumbersSampled(s)
    ensures RandRange(20, 90, 10, age) == s.age
    ensures 1 < s.length && RandRange(2, 10, 2, length) == s.length
    ensures RandRange(1, s.length, 2, position) == s.position
  {
    age, length, position := (s.age - 20) / 10, (s.length - 2) / 2, (s.position - 1) / 2;
    assert RandRange(20, 90, 10, age) == s.age by { AgeHit(s.age); }
    assert RandRange(2, 10, 2, length) == s.length by { LengthHit(s.length); }
    assert RandRange(1, s.length, 2, position) == s.position by { PositionHit(s.length, s.position); }
  }

  /** The draws that select each sampled text piece. */
  lemma {:induction false} OptionsHit(s: Dynamic) returns (proficiency: nat, style: nat, proactivity: nat, strength: nat)
    requires OptionsSampled(s)
    ensures Choice(Proficiencies, proficiency) == s.proficiency
    ensures Choice(ConversationStyles, style) == s.style
    ensures Choice(ProactivityLevels, proactivity) == s.proactivity
    ensures Choice(StrengthModulations, strength) == s.strength
  {
    proficiency, style := IndexOf(Proficiencies, s.proficiency), IndexOf(ConversationStyles, s.style);
    proactivity, strength := IndexOf(ProactivityLevels, s.proactivity), IndexOf(StrengthModulations, s.strength);
    ChoiceHit(Proficiencies, s.proficiency);
    ChoiceHit(ConversationStyles, s.style);
    ChoiceHit(ProactivityLevels, s.proactivity);
    ChoiceHit(StrengthModulations, s.strength);
  }

  /** Sampling is field by field. */
  lemma {:induction false} SampleFields(d: Draws, s: Dynamic)
    requires RandRange(20, 90, 10, d.age) == s.age
    requires RandRange(2, 10, 2, d.length) == s.length && 1 < s.length
    requires RandRange(1, s.length, 2, d.position) == s.position
    requires Choice(Proficiencies, d.proficiency) == s.proficiency
    requires Choice(ConversationStyles, d.style) == s.style
    requires Choice(ProactivityLevels, d.proactivity) == s.proactivity
    requires Choice(StrengthModulations, d.strength) == s.strength
    ensures Sample(d, s.city) == s
  {
  }

  // -------------------------------------------------------------- prompts

  /** The prompt inputs, each as `str` renders it, and the metadata beside a conversation. */
  datatype PromptValues = PromptValues(
    topic: string, attribute: string, userPreference: string, userProfile: string,
    style: string, city: string, proactivity: string, strength: string,
    length: string, position: string, fewShot: string)

  /** The values a prompt is built from, as the Python objects they are. */
  datatype Pieces = Pieces(
    userProfile: Json, style: Json, city: Json, proactivity: Json,
    strength: Json, length: Json, position: Json, fewShot: Json)

  /** The `user_profile` dict. */
  function ProfileJson(age: int, proficiency: string): Json {
    Obj([("Age", Num(age)), ("Technological_Proficiency", Str(proficiency))])
  }

  /** The chain's own pieces after sampling and picking a few-shot example. */
  function OwnPieces(s: Dynamic, fewShot: Json): Pieces {
    Pieces(
      ProfileJson(s.age, s.proficiency), Str(s.style), Str(s.city), Str(s.proactivity),
      Str(s.strength), Num(s.length), Num(s.position), fewShot)
  }

  /** Python's `override or own`. */
  function Or(override: Json, own: Json): Json {
    if IsFalsy(override) then own else override
  }

  /** Every override argument replaces the chain's own piece when it is truthy. */
  function Overridden(o: Pieces, own: Pieces): Pieces {
    Pieces(
      Or(o.userProfile, own.userProfile), Or(o.style, own.style), Or(o.city, own.city),
      Or(o.proactivity, own.proactivity), Or(o.strength, own.strength), Or(o.length, own.length),
      Or(o.position, own.position), Or(o.fewShot, own.fewShot))
  }

  /** The arguments of the no-preference variant when none is given. */
  const NoOverrides: Pieces := Pieces(Null, Null, Null, Null, Null, Null, Null, Null)

  /** `str` of a list of strings. */
  function ListText(xs: seq<string>): string {
    Repr(Arr(seq(|xs|, i requires 0 <= i < |xs| => Str(xs[i]))))
  }

  /** Python's `xs[:-k]` for a positive `k`: all but the last `k` elements, or none when there are fewer. */
  function DropLast(xs: seq<string>, k: nat): (r: seq<string>)
    requires k > 0
    ensures |r| == if |xs| >= k then |xs| - k else 0
    ensures r == xs[..|r|]
  {
    if |xs| >= k then xs[..|xs| - k] else []
  }

  /** The last piece of a `"; "`-split. */
  function LastOf(pieces: seq<string>): string
    requires |pieces| > 0
  {
    pieces[|pieces| - 1]
  }

  /**
   * The prompt inputs over some pieces: the topic is the `"; "`-pieces of
   * the preference without the last `dropped` ones, the attribute the
   * last piece, and every other input the `str` of its piece.
   */
  function Prompt(userPreference: string, dropped: nat, p: Pieces): PromptValues
    requires dropped > 0
  {
    var pieces := Split(userPreference, "; ");
    PromptValues(
      ListText(DropLast(pieces, dropped)), LastOf(pieces), userPreference, Text(p.userProfile),
      Text(p.style), Text(p.city), Text(p.proactivity), Text(p.strength),
      Text(p.length), Text(p.position), Text(p.fewShot))
  }

  /** The few-shot category: the topic's last `"; "`-piece. */
  function FewShotCategory(topic: string): string {
    LastOf(Split(topic, "; "))
  }

  /**
   * `generate_one_conversation` over sampled pieces: the few-shot example
   * of the topic's category (the lookup can fail), the model's reply to
   * the prompt and the metadata, which is the prompt with the raw topic.
   */
  function OneConversation(
    topic: string, userPreference: string, s: Dynamic,
    examples: string -> Result<Json>, llm: PromptValues -> Json): Result<(Json, PromptValues)>
  {
    match examples(FewShotCategory(topic))
    case Err(e) => Err(e)
    case Ok(example) =>
      var prompt := Prompt(userPreference, 1, OwnPieces(s, example));
      Ok((llm(prompt), prompt.(topic := topic)))
  }

  /**
   * `generate_one_conversation_no_preference`: the topic drops the last two
   * pieces and each truthy override replaces the sampled piece.
   */
  function NoPreferenceConversation(
    topic: string, userPreference: string, s: Dynamic, o: Pieces,
    examples: string -> Result<Json>, llm: PromptValues -> Json): Result<(Json, PromptValues)>
  {
    match examples(FewShotCategory(topic))
    case Err(e) => Err(e)
    case Ok(example) =>
      var prompt := Prompt(userPreference, 2, Overridden(o, OwnPieces(s, example)));
      Ok((llm(prompt), prompt.(topic := topic)))
  }

  // ---------------------------------------------------------------- chain

  /** The generator: the dynamic pieces of the last sampling and the last few-shot example. */
  class ExtractionConversationChain {
    var age: int
    var proficiency: string
    var style: string
    var city: string
    var proactivity: string
    var strength: string
    var conversationLength: int
    var position: int
    var fewShotExample: Json

    constructor ()
    {
      fewShotExample := Null;
    }

    /** The pieces the chain currently holds. */
    function Current(): Dynamic
      reads this
    {
      Dynamic(age, proficiency, style, city, proactivity, strength, conversationLength, position)
    }

    /** Draws every dynamic piece anew. */
    method SampleDynamicPromptInputs(d: Draws, sampledCity: string)
      modifies this
      ensures Current() == Sample(d, sampledCity)
      ensures fewShotExample == old(fewShotExample)
    {
      // The draws, in call order, are those of `Sample`.
      var s := Sample(d, sampledCity);
      age, proficiency, style, city, proactivity, strength, conversationLength, position :=
        s.age, s.proficiency, s.style, s.city, s.proactivity, s.strength, s.length, s.position;
    }

    /** Samples, picks the few-shot example and asks the model for one conversation. */
    method GenerateOneConversation(
      topic: string, userPreference: string, d: Draws, sampledCity: string,
      examples: string -> Result<Json>, llm: PromptValues -> Json)
      returns (r: Result<(Json, PromptValues)>)
      modifies this
      ensures Current() == Sample(d, sampledCity)
      ensures r == OneConversation(topic, userPreference, Sample(d, sampledCity), examples, llm)
      ensures r.Ok? ==> fewShotExample == examples(FewShotCategory(topic)).value
    {
      SampleDynamicPromptInputs(d, sampledCity);
      var example := examples(FewShotCategory(topic));
      if example.Err? {
        return Err(example.error);
      }
      fewShotExample := example.value;
      var prompt := Prompt(userPreference, 1, OwnPieces(Current(), fewShotExample));
      r := Ok((llm(prompt), prompt.(topic := topic)));
    }

    /** The no-preference variant, with its override arguments. */
    method GenerateOneConversationNoPreference(
      topic: string, userPreference: string, d: Draws, sampledCity: string, o: Pieces,
      examples: string -> Result<Json>, llm: PromptValues -> Json)
      returns (r: Result<(Json, PromptValues)>)
      modifies this
      ensures Current() == Sample(d, sampledCity)
      ensures r == NoPreferenceConversation(topic, userPreference, Sample(d, sampledCity), o, examples, llm)
      ensures r.Ok? ==> fewShotExample == examples(FewShotCategory(topic)).value
    {
      SampleDynamicPromptInputs(d, sampledCity);
      var example := examples(FewShotCategory(topic));
      if example.Err? {
        return Err(example.error);
      }
      fewShotExample := example.value;
      var prompt := Prompt(userPreference, 2, Overridden(o, OwnPieces(Current(), fewShotExample)));
      r := Ok((llm(prompt), prompt.(topic := topic)));
    }
  }

  // --------------------------------------------------------------- lemmas

  /** The encoding "Main; Sub; Detail; Attributes" is the `"; "`-join of its fields. */
  lemma {:induction false} EncodingIsJoin(main: string, sub: string, detail: string, attributes: string)
    ensures PreferenceString.UserPreference(main, sub, detail, attributes) == Join([main, sub, detail, attributes], "; ")
  {
    var parts := [main, sub, detail, attributes];
    assert parts[1..][1..][1..] == [attributes];
    assert Join(parts[1..][1..], "; ") == detail + "; " + attributes;
    assert Join(parts[1..], "; ") == sub + "; " + (detail + "; " + attributes);
  }

  /**
   * For an encoded preference whose fields hold no ";", the prompt's topic
   * is the list of its first three fields (first two in the no-preference
   * variant) and the attribute is the last field.
   */
  lemma {:induction false} PromptOfEncoding(main: string, sub: string, detail: string, attributes: string, p: Pieces)
    requires ';' !in main && ';' !in sub && ';' !in detail && ';' !in attributes
    ensures var pref := PreferenceString.UserPreference(main, sub, detail, attributes);
      && Prompt(pref, 1, p).topic == ListText([main, sub, detail])
      && Prompt(pref, 2, p).topic == ListText([main, sub])
      && Prompt(pref, 1, p).attribute == attributes
      && Prompt(pref, 2, p).attribute == attributes
  {
    EncodingIsJoin(main, sub, detail, attributes);
    SplitJoin([main, sub, detail, attributes], "; ");
    var pieces := [main, sub, detail, attributes];
    assert DropLast(pieces, 1) == [main, sub, detail];
    assert DropLast(pieces, 2) == [main, sub];
  }

  /**
   * A generated conversation is the model's reply to a prompt whose every
   * input the metadata mirrors, except that the metadata's topic is the
   * raw topic; the numeric inputs are the sampled length and position.
   */
  lemma {:induction false} MetadataMirrorsPrompt(
    topic: string, userPreference: string, s: Dynamic,
    examples: string -> Result<Json>, llm: PromptValues -> Json)
    requires WellSampled(s)
    requires OneConversation(topic, userPreference, s, examples, llm).Ok?
    ensures var (conversation, metadata) := OneConversation(topic, userPreference, s, examples, llm).value;
      && conversation == llm(metadata.(topic := Prompt(userPreference, 1, OwnPieces(s, Null)).topic))
      && metadata.topic == topic && metadata.userPreference == userPreference
      && metadata.length in {"2", "4", "6", "8"}
      && metadata.style == s.style && metadata.city == s.city
  {
    var (_, metadata) := OneConversation(topic, userPreference, s, examples, llm).value;
    assert metadata.length == Text(Num(s.length));
    assert s.length == 2 || s.length == 4 || s.length == 6 || s.length == 8;
    DigitReprSingle(s.length);
  }

  /**
   * In the no-preference variant each prompt input is the override when it
   * is truthy and the chain's own piece otherwise.
   */
  lemma {:induction false} OverridesWhenTruthy(
    topic: string, userPreference: string, s: Dynamic, o: Pieces,
    examples: string -> Result<Json>, llm: PromptValues -> Json)
    requires NoPreferenceConversation(topic, userPreference, s, o, examples, llm).Ok?
    ensures var metadata := NoPreferenceConversation(topic, userPreference, s, o, examples, llm).value.1;
      && metadata.style == (if IsFalsy(o.style) then s.style else Text(o.style))
      && metadata.city == (if IsFalsy(o.city) then s.city else Text(o.city))
      && metadata.proactivity == (if IsFalsy(o.proactivity) then s.proactivity else Text(o.proactivity))
      && metadata.strength == (if IsFalsy(o.strength) then s.strength else Text(o.strength))
      && metadata.length == (if IsFalsy(o.length) then IntRepr(s.length) else Text(o.length))
      && metadata.position == (if IsFalsy(o.position) then IntRepr(s.position) else Text(o.position))
      && metadata.userProfile == Text(if IsFalsy(o.userProfile) then ProfileJson(s.age, s.proficiency) else o.userProfile)
  {
  }

  /**
   * Without overrides the no-preference variant prompts with the same
   * pieces as the plain generator; only the topic loses one more piece.
   */
  lemma {:induction false} NoOverridesMatchPlain(
    topic: string, userPreference: string, s: Dynamic,
    examples: string -> Result<Json>, llm: PromptValues -> Json, llmNoPreference: PromptValues -> Json)
    requires OneConversation(topic, userPreference, s, examples, llm).Ok?
    ensures NoPreferenceConversation(topic, userPreference, s, NoOverrides, examples, llmNoPreference).Ok?
    ensures OneConversation(topic, userPreference, s, examples, llm).value.1
         == NoPreferenceConversation(topic, userPreference, s, NoOverrides, examples, llmNoPreference).value.1
  {
  }
}
