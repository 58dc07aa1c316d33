/**
 * The dataset generator's per-user loop: every row of a user profile is
 * encoded as a topic and a preference string, a conversation is generated
 * for it (with the dynamic prompt pieces seeded by the user's index), the
 * next-conversation question is asked, the turns are flattened, and one
 * datapoint per row is collected; each user then gets one line holding
 * the metadata of the last generated conversation. The language models,
 * the few-shot file and the city table are parameters; uuids, timestamps
 * and file output are not modelled.
 */
module DatasetCreation {
  import opened Wrappers
  import opened Json
  import opened PreferenceString
  import EC = ExtractionConversations

  /** One row of a user profile: the four taxonomy columns. */
  datatype Row = Row(main: string, sub: string, detail: string, attributes: string)

  datatype Profile = Profile(userId: string, rows: seq<Row>)

  /** The conversation-level metadata a datapoint keeps. */
  datatype Meta = Meta(proactivity: string, strength: string, length: string, position: string, fewShot: string)

  /** One generated conversation as the dataset stores it. */
  datatype Datapoint = Datapoint(userUuid: string, userPreference: string, conversation: Json, question: Json, meta: Meta)

  /** One output line: the user's pieces, the profile rows and the datapoints. */
  datatype UserLine = UserLine(
    userUuid: string, userProfile: string, style: string, city: string,
    preferences: seq<Row>, data: seq<Datapoint>)

  /**
   * What the run consults: the draws and the city the seed `idx` yields,
   * the few-shot examples under that seed, the conversation model, and
   * the question model (topic, preference, conversation and style to the
   * decoded reply).
   */
  datatype Env = Env(
    draws: nat -> EC.Draws, city: nat -> string, examples: nat -> string -> Result<Json>,
    llm: EC.PromptValues -> Json, ask: (string, string, Json, string) -> Json)

  // ------------------------------------------------------------- turns

  /** `turn.items()`: only a dict has items. */
  function Items(turn: Json): (r: Result<seq<(string, Json)>>)
    ensures r.Ok? <==> turn.Obj?
    ensures r.Ok? ==> r.value == turn.members
  {
    if turn.Obj? then Ok(turn.members) else Err(AttributeError("items"))
  }

  /** `flattened_data`: one (speaker, text) pair per key of each turn, turn after turn. */
  function Flattened(conversation: Json): Result<seq<(string, Json)>> {
    match Iterate(conversation)
    case Err(e) => Err(e)
    case Ok(turns) => FlatMap(turns, Items)
  }

  /** A label-studio message: the speaker as role, the text as content. */
  datatype LabelMessage = LabelMessage(role: string, content: Json)

  /**
   * The nested comprehension building `flattened_data`, and the messages
   * read back from its rows.
   */
  method FlattenConversation(conversation: Json) returns (r: Result<seq<(string, Json)>>, messages: seq<LabelMessage>)
    ensures r == Flattened(conversation)
    ensures r.Ok? ==> |messages| == |r.value|
    ensures r.Ok? ==> forall i :: 0 <= i < |messages| ==> messages[i] == LabelMessage(r.value[i].0, r.value[i].1)
  {
    messages := [];
    var turns := Iterate(conversation);
    if turns.Err? {
      return Err(turns.error), [];
    }
    var ts := turns.value;
    var out: seq<(string, Json)> := [];
    for i := 0 to |ts|
      invariant FlatMap(ts[..i], Items) == Ok(out)
    {
      FlatMapExtend(ts, Items, i, out);
      if !ts[i].Obj? {
        FlatMapFailsEarly(ts, Items, i + 1);
        return Err(AttributeError("items")), [];
      }
      var ms := ts[i].members;
      ghost var before := out;
      for k := 0 to |ms|
        invariant out == before + ms[..k]
      {
        out := out + [(ms[k].0, ms[k].1)];
        assert ms[..k + 1] == ms[..k] + [ms[k]];
      }
      assert ms[..|ms|] == ms;
    }
    assert ts[..|ts|] == ts;
    r := Ok(out);
    for i := 0 to |out|
      invariant |messages| == i
      invariant forall j :: 0 <= j < i ==> messages[j] == LabelMessage(out[j].0, out[j].1)
    {
      messages := messages + [LabelMessage(out[i].0, out[i].1)];
    }
  }

  /** The number of keys of a turn (none for a turn that is not a dict). */
  function TurnSize(turn: Json): nat {
    if turn.Obj? then |turn.members| else 0
  }

  /**
   * A list of turns flattens into as many pairs as its turns have keys,
   * and every pair is a key and its text from one of the turns.
   */
  lemma {:induction false} FlattenedTurns(turns: seq<Json>, pair: (string, Json))
    requires Flattened(Arr(turns)).Ok?
    ensures |Flattened(Arr(turns)).value| == Sum(turns, TurnSize)
    ensures pair in Flattened(Arr(turns)).value ==> exists i :: 0 <= i < |turns| && turns[i].Obj? && pair in turns[i].members
  {
    FlatMapLength(turns, Items, TurnSize);
    if pair in Flattened(Arr(turns)).value {
      FlatMapMember(turns, Items, pair);
    }
  }

  /** A conversation that is not a list of dicts does not flatten, unless it iterates nothing. */
  lemma {:induction false} FlattenedNeedsDicts(turns: seq<Json>, i: nat)
    requires i < |turns| && !turns[i].Obj?
    ensures Flattened(Arr(turns)).Err?
  {
    assert FlatMap(turns[..i + 1], Items).Err? by {
      assert turns[..i + 1][..i] == turns[..i];
      assert turns[..i + 1][i] == turns[i];
    }
    FlatMapFailsEarly(turns, Items, i + 1);
  }

  // --------------------------------------------------------- datapoints

  /** The generator's topic for a row. */
  function RowTopic(row: Row): string {
    Topic(row.main, row.sub)
  }

  /** The generator's preference string for a row. */
  function RowPreference(row: Row): string {
    UserPreference(row.main, row.sub, row.detail, row.attributes)
  }

  /** The dynamic pieces the seed `idx` yields. */
  function Seeded(env: Env, idx: nat): EC.Dynamic {
    EC.Sample(env.draws(idx), env.city(idx))
  }

  /**
   * One row of user `idx`: the conversation generated for its topic and
   * preference string, its "conversation" entry, the question asked about
   * it, its flattening (which may fail), and the datapoint built from the
   * metadata; the metadata comes back too.
   */
  function RowStep(p: Profile, idx: nat, env: Env, row: Row): Result<(Datapoint, EC.PromptValues)> {
    var topic, pref := RowTopic(row), RowPreference(row);
    match EC.OneConversation(topic, pref, Seeded(env, idx), env.examples(idx), env.llm)
    case Err(e) => Err(e)
    case Ok((reply, metadata)) =>
      match Subscript(reply, "conversation")
      case Err(e) => Err(e)
      case Ok(conversation) =>
        var questions := env.ask(topic, pref, conversation, metadata.style);
        match Flattened(conversation)
        case Err(e) => Err(e)
        case Ok(_) =>
          match Subscript(questions, "next_conversation_question_user")
          case Err(e) => Err(e)
          case Ok(question) =>
            var meta := Meta(metadata.proactivity, metadata.strength, metadata.length, metadata.position, metadata.fewShot);
            Ok((Datapoint(p.userId, metadata.userPreference, conversation, question, meta), metadata))
  }

  function RowFor(p: Profile, idx: nat, env: Env): Row -> Result<(Datapoint, EC.PromptValues)> {
    row => RowStep(p, idx, env, row)
  }

  /** The datapoints of the generated rows. */
  function Points(steps: seq<(Datapoint, EC.PromptValues)>): (r: seq<Datapoint>)
    ensures |r| == |steps| && forall i :: 0 <= i < |steps| ==> r[i] == steps[i].0
  {
    seq(|steps|, i requires 0 <= i < |steps| => steps[i].0)
  }

  /**
   * One user: a datapoint per row; the user line takes the profile, style
   * and city of the last generated conversation's metadata, which is the
   * previous user's when this profile has no rows, and unbound (UnboundLocalError)
   * when no conversation was generated yet.
   */
  function UserStep(p: Profile, rowStep: Row -> Result<(Datapoint, EC.PromptValues)>, last: Option<EC.PromptValues>)
    : Result<(UserLine, Option<EC.PromptValues>)>
  {
    match MapResult(p.rows, rowStep)
    case Err(e) => Err(e)
    case Ok(steps) => LineOf(p, steps, last)
  }

  /** The user line once every row of the profile has been generated. */
  function LineOf(p: Profile, steps: seq<(Datapoint, EC.PromptValues)>, last: Option<EC.PromptValues>): Result<(UserLine, Option<EC.PromptValues>)> {
    var metadata := if |steps| > 0 then Some(steps[|steps| - 1].1) else last;
    if metadata.None? then Err(UnboundLocalError("metadata_prompt"))
    else
      var m := metadata.value;
      Ok((UserLine(p.userId, m.userProfile, m.style, m.city, p.rows, Points(steps)), metadata))
  }

  /** The run over the first `|ps|` users, carrying the last metadata forward. */
  function Run(ps: seq<Profile>, env: Env): Result<(seq<UserLine>, Option<EC.PromptValues>)> {
    if |ps| == 0 then Ok(([], None))
    else
      match Run(ps[..|ps| - 1], env)
      case Err(e) => Err(e)
      case Ok((lines, last)) =>
        match UserStep(ps[|ps| - 1], RowFor(ps[|ps| - 1], |ps| - 1, env), last)
        case Err(e) => Err(e)
        case Ok((line, next)) => Ok((lines + [line], next))
  }

  /** One pass of the row loop for user `idx`, then the user line. */
  method GenerateUser(p: Profile, rowStep: Row -> Result<(Datapoint, EC.PromptValues)>, last: Option<EC.PromptValues>)
    returns (r: Result<(UserLine, Option<EC.PromptValues>)>)
    ensures r == UserStep(p, rowStep, last)
  {
    var data := MapEach(p.rows, rowStep);
    if data.Err? {
      return Err(data.error);
    }
    var steps := data.value;
    var metadata := last;
    if |steps| > 0 {
      metadata := Some(steps[|steps| - 1].1);
    }
    if metadata.None? {
      return Err(UnboundLocalError("metadata_prompt"));
    }
    var points := [];
    for i := 0 to |steps|
      invariant points == Points(steps[..i])
    {
      points := points + [steps[i].0];
    }
    assert steps[..|steps|] == steps;
    r := Ok((UserLine(p.userId, metadata.value.userProfile, metadata.value.style, metadata.value.city, p.rows, points), metadata));
  }

  /** The script's main loop with the dataset switch on: one line per user. */
  method CreateDataset(ps: seq<Profile>, env: Env) returns (r: Result<seq<UserLine>>)
    ensures Run(ps, env).Ok? <==> r.Ok?
    ensures r.Ok? ==> r.value == Run(ps, env).value.0
  {
    var lines: seq<UserLine> := [];
    var last: Option<EC.PromptValues> := None;
    for idx := 0 to |ps|
      invariant Run(ps[..idx], env) == Ok((lines, last))
    {
      assert ps[..idx + 1][..idx] == ps[..idx];
      var step := GenerateUser(ps[idx], RowFor(ps[idx], idx, env), last);
      if step.Err? {
        RunFailsEarly(ps, env, idx + 1);
        return Err(step.error);
      }
      lines := lines + [step.value.0];
      last := step.value.1;
    }
    assert ps[..|ps|] == ps;
    r := Ok(lines);
  }

  /** A failure on the first users is the failure of the run. */
  lemma {:induction false} RunFailsEarly(ps: seq<Profile>, env: Env, i: nat)
    requires i <= |ps| && Run(ps[..i], env).Err?
    ensures Run(ps, env).Err?
    decreases |ps|
  {
    if i < |ps| {
      var init := ps[..|ps| - 1];
      assert init[..i] == ps[..i];
      RunFailsEarly(init, env, i);
    } else {
      assert ps[..i] == ps;
    }
  }

  /**
   * A successful run writes one line per profile, in order; each line
   * carries its user's id and rows and one datapoint per row, the
   * datapoint of row `i` being the one generated for that row.
   */
  lemma {:induction false} OneLinePerProfile(ps: seq<Profile>, env: Env, u: nat, i: nat)
    requires Run(ps, env).Ok? && u < |ps|
    ensures var lines := Run(ps, env).value.0;
      && |lines| == |ps|
      && lines[u].userUuid == ps[u].userId && lines[u].preferences == ps[u].rows
      && |lines[u].data| == |ps[u].rows|
      && (i < |ps[u].rows| ==>
            RowStep(ps[u], u, env, ps[u].rows[i]).Ok? && lines[u].data[i] == RowStep(ps[u], u, env, ps[u].rows[i]).value.0)
    decreases |ps|
  {
    var init := ps[..|ps| - 1];
    var lines := Run(init, env).value.0;
    if u < |ps| - 1 {
      assert init[u] == ps[u];
      OneLinePerProfile(init, env, u, i);
    } else if |ps| > 1 {
      OneLinePerProfile(init, env, 0, 0);
    }
  }

  /** A generated row's datapoint is read off the metadata of its conversation. */
  lemma {:induction false} RowStepFields(p: Profile, idx: nat, env: Env, row: Row)
    requires RowStep(p, idx, env, row).Ok?
    ensures var g := EC.OneConversation(RowTopic(row), RowPreference(row), Seeded(env, idx), env.examples(idx), env.llm);
      var (d, m) := RowStep(p, idx, env, row).value;
      && g.Ok? && m == g.value.1
      && d.userUuid == p.userId && d.userPreference == m.userPreference
      && d.meta == Meta(m.proactivity, m.strength, m.length, m.position, m.fewShot)
  {
  }

  /** The metadata of a generated conversation carries its preference string and the sampled pieces. */
  lemma {:induction false} GeneratedMetadata(topic: string, pref: string, s: EC.Dynamic, examples: string -> Result<Json>, llm: EC.PromptValues -> Json)
    requires EC.OneConversation(topic, pref, s, examples, llm).Ok?
    ensures var m := EC.OneConversation(topic, pref, s, examples, llm).value.1;
      && m.userPreference == pref && m.proactivity == s.proactivity && m.strength == s.strength
      && m.length == IntRepr(s.length) && m.position == IntRepr(s.position)
  {
  }

  /**
   * Every datapoint of a row carries the row's preference string, which
   * the ground-truth parse reads back into the row's four columns when
   * they are clean.
   */
  lemma {:induction false} DatapointPreference(p: Profile, idx: nat, env: Env, row: Row)
    requires RowStep(p, idx, env, row).Ok?
    requires Clean(row.main) && Clean(row.sub) && Clean(row.detail) && Clean(row.attributes)
    ensures var d := RowStep(p, idx, env, row).value.0;
      && d.userUuid == p.userId
      && d.userPreference == RowPreference(row)
      && ParseGroundTruth(d.userPreference) == Ok(GroundTruth(row.main, row.sub, row.detail, row.attributes))
  {
    RowStepFields(p, idx, env, row);
    GeneratedMetadata(RowTopic(row), RowPreference(row), Seeded(env, idx), env.examples(idx), env.llm);
    ParseCleanUserPreference(row.main, row.sub, row.detail, row.attributes);
  }

  /**
   * All conversations of one user are generated under the same seed: two
   * rows of a user get the same proactivity, strength, length and reveal
   * position, and the length is 2, 4, 6 or 8.
   */
  lemma {:induction false} SameDynamicPiecesPerUser(p: Profile, idx: nat, env: Env, a: Row, b: Row)
    requires RowStep(p, idx, env, a).Ok? && RowStep(p, idx, env, b).Ok?
    ensures var (da, db) := (RowStep(p, idx, env, a).value.0, RowStep(p, idx, env, b).value.0);
      && da.meta.proactivity == db.meta.proactivity && da.meta.strength == db.meta.strength
      && da.meta.length == db.meta.length && da.meta.position == db.meta.position
      && da.meta.length in {"2", "4", "6", "8"}
  {
    var s := Seeded(env, idx);
    RowStepFields(p, idx, env, a);
    RowStepFields(p, idx, env, b);
    GeneratedMetadata(RowTopic(a), RowPreference(a), s, env.examples(idx), env.llm);
    GeneratedMetadata(RowTopic(b), RowPreference(b), s, env.examples(idx), env.llm);
    EC.MetadataMirrorsPrompt(RowTopic(a), RowPreference(a), s, env.examples(idx), env.llm);
  }

  /**
   * A profile without rows writes a line with no datapoints whose user
   * pieces are those of the previous user's last conversation; as the
   * first user it fails with the metadata unbound.
   */
  lemma {:induction false} EmptyProfileTakesStalePieces(p: Profile, idx: nat, env: Env, last: Option<EC.PromptValues>)
    requires p.rows == []
    ensures last.None? ==> UserStep(p, RowFor(p, idx, env), last) == Err(UnboundLocalError("metadata_prompt"))
    ensures last.Some? ==>
      UserStep(p, RowFor(p, idx, env), last) == Ok((UserLine(p.userId, last.value.userProfile, last.value.style, last.value.city, [], []), last))
  {
    assert MapResult(p.rows, RowFor(p, idx, env)) == Ok([]);
  }

  // ------------------------------------------------------------ headers

  /**
   * The pretty printout's "=== NEW USER ===" header: a counter that moves
   * only when the header is written, compared with the user's index at
   * every conversation. The header comes with a user's first conversation,
   * once, provided every earlier profile had a row; after a profile with
   * no rows the counter lags behind and no header is written again.
   */
  method NewUserHeaders(ps: seq<Profile>) returns (headers: seq<seq<bool>>)
    ensures |headers| == |ps|
    ensures forall u :: 0 <= u < |ps| ==> |headers[u]| == |ps[u].rows|
    ensures forall u, j :: 0 <= u < |ps| && 0 <= j < |ps[u].rows| ==>
      (headers[u][j] <==> j == 0 && forall v :: 0 <= v < u ==> |ps[v].rows| > 0)
  {
    var counter := 0;
    headers := [];
    for idx := 0 to |ps|
      invariant |headers| == idx && counter <= idx
      invariant counter == idx <==> forall v :: 0 <= v < idx ==> |ps[v].rows| > 0
      invariant forall u :: 0 <= u < idx ==> |headers[u]| == |ps[u].rows|
      invariant forall u, j :: 0 <= u < idx && 0 <= j < |ps[u].rows| ==>
        (headers[u][j] <==> j == 0 && forall v :: 0 <= v < u ==> |ps[v].rows| > 0)
    {
      var flags: seq<bool> := [];
      ghost var start := counter;
      ghost var wasEqual := counter == idx;
      for j := 0 to |ps[idx].rows|
        invariant |flags| == j
        invariant j == 0 ==> counter == start
        invariant j > 0 ==> counter == (if wasEqual then idx + 1 else start)
        invariant forall k :: 0 <= k < j ==> (flags[k] <==> k == 0 && wasEqual)
      {
        if idx == counter {
          flags := flags + [true];
          counter := counter + 1;
        } else {
          flags := flags + [false];
        }
      }
      headers := headers + [flags];
    }
  }
}
