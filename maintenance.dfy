/**
 * The maintenance engine: for one incoming preference and the stored
 * preferences of its bucket, ask a tool-calling classifier which tool to
 * run (retrying once when the reply calls no tool, then falling back to
 * pass), look up the stored record the reply names, and run the tool on
 * the collection. The classifier is a parameter: a function from what it
 * is shown to the tool calls of its reply, `None` standing for a reply
 * without a `tool_calls` entry.
 */
module MaintenanceEngine {
  import opened Wrappers
  import J = Json
  import opened PreferenceStore
  import opened FunctionLabel
  import opened MaintenanceTools

  /** Whether a detail category admits several preferences (MP) or one (MNP). */
  datatype Cardinality = MP | MNP

  /** The tools each classifier is bound to. */
  function BoundTools(kind: Cardinality): (names: seq<string>)
    ensures PassPreference in names && UpdatePreference in names
    ensures AppendPreference in names <==> kind == MP
    ensures InsertPreference !in names
  {
    match kind
    case MP => [AppendPreference, PassPreference, UpdatePreference]
    case MNP => [PassPreference, UpdatePreference]
  }

  /** What the classifier is shown of the incoming record. */
  datatype IncomingPrompt = IncomingPrompt(detailCategory: string, text: string, attribute: string)

  /** What the classifier is shown of a stored record. */
  datatype ExistingPrompt = ExistingPrompt(pk: string, detailCategory: string, text: string, attribute: string)

  function ProjectIncoming(x: Record): IncomingPrompt {
    IncomingPrompt(x.detailCategory, x.text, x.attribute)
  }

  function ProjectExisting(x: Record): ExistingPrompt {
    ExistingPrompt(x.pk, x.detailCategory, x.text, x.attribute)
  }

  /** One classifier call: which classifier, whether it is the retry prompt, and what it is shown. */
  datatype Invocation = Invocation(kind: Cardinality, retry: bool, incoming: IncomingPrompt, existing: ExistingPrompt)

  /**
   * One tool call of a reply: the tool name and its argument text as
   * `json.loads` reads it, `None` when the text is not JSON.
   */
  datatype ToolCall = ToolCall(name: string, arguments: Option<J.Json>)

  type Classifier = Invocation -> Option<seq<ToolCall>>

  /** The first tool call the classifier makes for `kind` names one of the tools bound to it. */
  ghost predicate BoundTo(classifier: Classifier, kind: Cardinality) {
    forall inv: Invocation :: inv.kind == kind && classifier(inv).Some? && |classifier(inv).value| > 0 ==>
      classifier(inv).value[0].name in BoundTools(kind)
  }

  /**
   * Reading a reply's tool calls: the name and decoded arguments of the
   * first. An empty list fails at `[0]` and argument text that is not JSON
   * fails in `json.loads`; neither is the `KeyError` the engine catches.
   */
  function Decode(calls: seq<ToolCall>): (r: Result<(string, J.Json)>)
    ensures r.Ok? <==> |calls| > 0 && calls[0].arguments.Some?
    ensures r.Ok? ==> r.value == (calls[0].name, calls[0].arguments.value)
    ensures |calls| == 0 ==> r == Err(IndexError(0))
    ensures |calls| > 0 && calls[0].arguments.None? ==> r == Err(JSONDecodeError)
  {
    if |calls| == 0 then Err(IndexError(0))
    else match calls[0].arguments
      case None => Err(JSONDecodeError)
      case Some(args) => Ok((calls[0].name, args))
  }

  // ------------------------------------------------------------ deciding

  /** The classifier calls made for one incoming preference: the first, and a retry only when the first called no tool. */
  function Invocations(classifier: Classifier, kind: Cardinality, incoming: IncomingPrompt, existing: ExistingPrompt)
    : (calls: seq<Invocation>)
    ensures 1 <= |calls| <= 2
    ensures calls[0] == Invocation(kind, false, incoming, existing)
    ensures |calls| == 2 <==> classifier(calls[0]).None?
    ensures |calls| == 2 ==> calls[1] == Invocation(kind, true, incoming, existing)
  {
    var first := Invocation(kind, false, incoming, existing);
    if classifier(first).Some? then [first] else [first, Invocation(kind, true, incoming, existing)]
  }

  /**
   * The tool name and arguments the engine goes on with: those read from
   * the last reply made, or `pass_preference` with `None` when neither
   * reply has tool calls. A reply that has tool calls but cannot be read
   * is an error, and no retry follows it.
   */
  function Choose(classifier: Classifier, kind: Cardinality, incoming: IncomingPrompt, existing: ExistingPrompt)
    : (choice: Result<(string, J.Json)>)
    ensures var calls := Invocations(classifier, kind, incoming, existing);
      if classifier(calls[|calls| - 1]).Some? then choice == Decode(classifier(calls[|calls| - 1]).value)
      else choice == Ok((PassPreference, J.Null))
  {
    var first := classifier(Invocation(kind, false, incoming, existing));
    if first.Some? then Decode(first.value)
    else
      var second := classifier(Invocation(kind, true, incoming, existing));
      if second.Some? then Decode(second.value)
      else Ok((PassPreference, J.Null))
  }

  /** A classifier bound to its tools makes the engine choose one of them, the fallback included. */
  lemma {:induction false} ChooseIsBound(classifier: Classifier, kind: Cardinality, incoming: IncomingPrompt, existing: ExistingPrompt)
    requires BoundTo(classifier, kind)
    ensures Choose(classifier, kind, incoming, existing).Ok? ==> Choose(classifier, kind, incoming, existing).value.0 in BoundTools(kind)
  {
    var first := Invocation(kind, false, incoming, existing);
    var second := Invocation(kind, true, incoming, existing);
    if classifier(first).Some? {
      if |classifier(first).value| > 0 {
        assert classifier(first).value[0].name in BoundTools(kind);
      }
    } else if classifier(second).Some? {
      if |classifier(second).value| > 0 {
        assert classifier(second).value[0].name in BoundTools(kind);
      }
    }
  }

  /**
   * A first reply whose tool calls cannot be read ends the choice with its
   * error: the retry prompt is not tried, since only a missing `tool_calls`
   * entry is caught.
   */
  lemma {:induction false} UnreadableReplyNotRetried(classifier: Classifier, kind: Cardinality, incoming: IncomingPrompt, existing: ExistingPrompt)
    requires var first := classifier(Invocation(kind, false, incoming, existing));
      first.Some? && (|first.value| == 0 || first.value[0].arguments.None?)
    ensures |Invocations(classifier, kind, incoming, existing)| == 1
    ensures var first := classifier(Invocation(kind, false, incoming, existing)).value;
      Choose(classifier, kind, incoming, existing) == Err(if |first| == 0 then IndexError(0) else JSONDecodeError)
  {
  }

  // ------------------------------------------------------------ run_tool

  /** A stored record's key equals a decoded argument only when the argument is that string. */
  predicate PkMatches(x: Record, v: J.Json) {
    v.Str? && x.pk == v.s
  }

  /** `existing[i]` is the first stored record whose key equals `v`. */
  predicate FirstAt(existing: seq<Record>, v: J.Json, i: int) {
    0 <= i < |existing| && PkMatches(existing[i], v) && forall j :: 0 <= j < i ==> !PkMatches(existing[j], v)
  }

  /** The first stored record whose key equals `v`, if any. */
  function FirstWithPk(existing: seq<Record>, v: J.Json): (r: Option<Record>)
    ensures r.None? <==> forall i :: 0 <= i < |existing| ==> !PkMatches(existing[i], v)
    ensures r.Some? ==> exists i :: FirstAt(existing, v, i) && existing[i] == r.value
  {
    if |existing| == 0 then None
    else if PkMatches(existing[0], v) then
      assert FirstAt(existing, v, 0);
      Some(existing[0])
    else
      var r := FirstWithPk(existing[1..], v);
      if r.Some? then
        var i :| FirstAt(existing[1..], v, i) && existing[1..][i] == r.value;
        assert FirstAt(existing, v, i + 1);
        r
      else r
  }

  /** The argument key under which each of pass and update names the stored record. */
  function PkArgument(name: string): string {
    if name == PassPreference then "pk_of_equal_existing_preference" else "pk_of_to_delete_existing_preference"
  }

  /**
   * What running a tool returns and what the collection holds afterwards,
   * given the collection, the tool name and arguments, the incoming record
   * and the stored records the classifier was shown.
   */
  function ToolEffect(rows: seq<Record>, name: string, args: J.Json, incoming: Record, existing: seq<Record>, perform: bool)
    : (Result<(string, string)>, seq<Record>)
  {
    if name == AppendPreference then
      (Ok((AppendedMessage(incoming), AppendPreference)), if perform then rows + [incoming] else rows)
    else if name == PassPreference || name == UpdatePreference then
      match J.Subscript(args, PkArgument(name))
      case Err(e) => (Err(e), rows)
      case Ok(v) => KeyedEffect(rows, name == PassPreference, v, incoming, existing, perform)
    else (Err(UnboundLocalError("run_tool_answer")), rows)
  }

  /** Pass (`isPass`) or update once the named key `v` has been read from the arguments. */
  function KeyedEffect(rows: seq<Record>, isPass: bool, v: J.Json, incoming: Record, existing: seq<Record>, perform: bool)
    : (Result<(string, string)>, seq<Record>)
  {
    match FirstWithPk(existing, v)
    case None => (Ok((PassedMessage(incoming), PassPreference)), rows)
    case Some(x) =>
      if isPass then
        (Ok((PassedMessage(incoming), PassPreference)),
         if perform && x.pk != "" then DropPk(rows, x.pk) + [Merged(incoming, x)] else rows)
      else
        (Ok((UpdatedMessage(x, incoming), UpdatePreference)), if perform then DropPk(rows, x.pk) + [incoming] else rows)
  }

  /** Without `perform` no tool changes the collection. */
  lemma {:induction false} SimulatedToolKeepsRows(rows: seq<Record>, name: string, args: J.Json, incoming: Record, existing: seq<Record>)
    ensures ToolEffect(rows, name, args, incoming, existing, false).1 == rows
  {
  }

  /** Any name other than the three tools fails, and the collection is untouched. */
  lemma {:induction false} UnknownToolFails(rows: seq<Record>, name: string, args: J.Json, incoming: Record, existing: seq<Record>, perform: bool)
    requires name != AppendPreference && name != PassPreference && name != UpdatePreference
    ensures ToolEffect(rows, name, args, incoming, existing, perform) == (Err(UnboundLocalError("run_tool_answer")), rows)
  {
  }

  /** Append ignores its arguments. */
  lemma {:induction false} AppendIgnoresArguments(rows: seq<Record>, a1: J.Json, a2: J.Json, incoming: Record, existing: seq<Record>, perform: bool)
    ensures ToolEffect(rows, AppendPreference, a1, incoming, existing, perform) == ToolEffect(rows, AppendPreference, a2, incoming, existing, perform)
    ensures ToolEffect(rows, AppendPreference, a1, incoming, existing, perform).0 == Ok((AppendedMessage(incoming), AppendPreference))
  {
  }

  /**
   * Pass or update naming a key that no shown record carries degrades to a
   * pass that leaves the collection untouched.
   */
  lemma {:induction false} AbsentKeyDegradesToPass(rows: seq<Record>, name: string, args: J.Json, incoming: Record, existing: seq<Record>, perform: bool)
    requires name == PassPreference || name == UpdatePreference
    requires J.Subscript(args, PkArgument(name)).Ok?
    requires forall i :: 0 <= i < |existing| ==> !PkMatches(existing[i], J.Get(args.members, PkArgument(name)))
    ensures ToolEffect(rows, name, args, incoming, existing, perform) == (Ok((PassedMessage(incoming), PassPreference)), rows)
  {
    var v := J.Subscript(args, PkArgument(name)).value;
    assert FirstWithPk(existing, v).None?;
  }

  /**
   * Update naming the key of a shown record deletes that key and inserts
   * the incoming record; the message names the first shown record with it.
   */
  lemma {:induction false} UpdateActsOnFirstMatch(rows: seq<Record>, args: J.Json, incoming: Record, existing: seq<Record>, perform: bool, i: nat)
    requires args.Obj? && PkArgument(UpdatePreference) in J.Keys(args.members)
    requires i < |existing| && PkMatches(existing[i], J.Get(args.members, PkArgument(UpdatePreference)))
    requires forall j :: 0 <= j < i ==> !PkMatches(existing[j], J.Get(args.members, PkArgument(UpdatePreference)))
    ensures ToolEffect(rows, UpdatePreference, args, incoming, existing, perform) ==
      (Ok((UpdatedMessage(existing[i], incoming), UpdatePreference)),
       if perform then DropPk(rows, existing[i].pk) + [incoming] else rows)
  {
    var v := J.Get(args.members, PkArgument(UpdatePreference));
    FirstMatchIsAt(existing, v, i);
  }

  /**
   * Pass naming the key of a shown record replaces every row with that key
   * by the merged record (when the key is non-empty).
   */
  lemma {:induction false} PassActsOnFirstMatch(rows: seq<Record>, args: J.Json, incoming: Record, existing: seq<Record>, perform: bool, i: nat)
    requires args.Obj? && PkArgument(PassPreference) in J.Keys(args.members)
    requires i < |existing| && PkMatches(existing[i], J.Get(args.members, PkArgument(PassPreference)))
    requires forall j :: 0 <= j < i ==> !PkMatches(existing[j], J.Get(args.members, PkArgument(PassPreference)))
    ensures ToolEffect(rows, PassPreference, args, incoming, existing, perform) ==
      (Ok((PassedMessage(incoming), PassPreference)),
       if perform && existing[i].pk != "" then DropPk(rows, existing[i].pk) + [Merged(incoming, existing[i])] else rows)
  {
    var v := J.Get(args.members, PkArgument(PassPreference));
    FirstMatchIsAt(existing, v, i);
  }

  /** The search finds the first record with the key. */
  lemma {:induction false} FirstMatchIsAt(existing: seq<Record>, v: J.Json, i: nat)
    requires i < |existing| && PkMatches(existing[i], v)
    requires forall j :: 0 <= j < i ==> !PkMatches(existing[j], v)
    ensures FirstWithPk(existing, v) == Some(existing[i])
  {
    var r := FirstWithPk(existing, v);
    var k :| FirstAt(existing, v, k) && existing[k] == r.value;
    if k < i {
    } else if i < k {
    }
  }

  /** The fallback after two replies without a tool call fails on its missing arguments. */
  lemma {:induction false} FallbackPassFails(rows: seq<Record>, incoming: Record, existing: seq<Record>, perform: bool)
    ensures ToolEffect(rows, PassPreference, J.Null, incoming, existing, perform).0.Err?
    ensures ToolEffect(rows, PassPreference, J.Null, incoming, existing, perform).0.error.TypeError?
    ensures ToolEffect(rows, PassPreference, J.Null, incoming, existing, perform).1 == rows
  {
  }

  /** A successful tool run reports the tool it ran: the chosen one, or pass when the key was not found. */
  lemma {:induction false} ToolEffectName(rows: seq<Record>, name: string, args: J.Json, incoming: Record, existing: seq<Record>, perform: bool)
    requires ToolEffect(rows, name, args, incoming, existing, perform).0.Ok?
    ensures var ran := ToolEffect(rows, name, args, incoming, existing, perform).0.value.1;
      ran == name || (ran == PassPreference && name == UpdatePreference)
  {
  }

  /**
   * What the filter returns and leaves once the choice is made: the choice's
   * error with the collection untouched, or the chosen tool's effect.
   */
  function FilterEffect(rows: seq<Record>, choice: Result<(string, J.Json)>, incoming: Record, existing: seq<Record>, perform: bool)
    : (Result<(string, string)>, seq<Record>)
  {
    match choice
    case Err(e) => (Err(e), rows)
    case Ok((name, args)) => ToolEffect(rows, name, args, incoming, existing, perform)
  }

  // -------------------------------------------------------------- engine

  /** The engine, holding the incoming record and the stored records of the latest request. */
  class Maintenance {
    var incoming: Record
    var existing: seq<Record>
    /** Every classifier call made so far, in order. */
    var invocations: seq<Invocation>
    const classifier: Classifier

    constructor (classifier: Classifier)
      ensures this.classifier == classifier && invocations == [] && existing == []
    {
      this.classifier := classifier;
      incoming := Record("", "", "", "", "", "", "");
      existing := [];
      invocations := [];
    }

    /** Runs the named tool on the collection for the current request. */
    method RunTool(store: Store, name: string, args: J.Json, perform: bool) returns (r: Result<(string, string)>)
      modifies store
      ensures (r, store.rows) == ToolEffect(old(store.rows), name, args, incoming, existing, perform)
    {
      if name == AppendPreference {
        var message, ran := RunAppend(store, incoming, perform);
        r := Ok((message, ran));
      } else if name == PassPreference || name == UpdatePreference {
        var v := J.Subscript(args, PkArgument(name));
        if v.Err? {
          return Err(v.error);
        }
        r := RunKeyed(store, name == PassPreference, v.value, perform);
      } else {
        r := Err(UnboundLocalError("run_tool_answer"));
      }
    }

    /** Runs pass or update once the named key has been read from the arguments. */
    method RunKeyed(store: Store, isPass: bool, v: J.Json, perform: bool) returns (r: Result<(string, string)>)
      modifies store
      ensures (r, store.rows) == KeyedEffect(old(store.rows), isPass, v, incoming, existing, perform)
    {
      var matching := FirstWithPk(existing, v);
      if matching.None? {
        var message, ran := RunPass(store, incoming, None, None, false);
        r := Ok((message, ran));
      } else if isPass {
        var message, ran := RunPass(store, incoming, Some(matching.value.pk), matching, perform);
        r := Ok((message, ran));
      } else {
        var message, ran := RunUpdate(store, incoming, matching.value.pk, matching.value, perform);
        r := Ok((message, ran));
      }
    }

    /**
     * Filters one incoming preference against the stored records of its
     * bucket with the classifier for `kind`. Only the last stored record is
     * shown to the classifier; with none, that name is unbound and the call
     * fails before any classifier call. A reply whose tool calls cannot be
     * read fails the call before any tool runs.
     */
    method Filter(store: Store, kind: Cardinality, incoming: Record, existing: seq<Record>, perform: bool)
      returns (r: Result<(string, string)>)
      modifies this, store
      ensures this.incoming == incoming && this.existing == existing
      ensures |existing| == 0 ==>
        && r == Err(UnboundLocalError("existing_preference_prompt_input"))
        && store.rows == old(store.rows) && invocations == old(invocations)
      ensures |existing| > 0 ==>
        var shownIn, shown := ProjectIncoming(incoming), ProjectExisting(existing[|existing| - 1]);
        var choice := Choose(classifier, kind, shownIn, shown);
        && invocations == old(invocations) + Invocations(classifier, kind, shownIn, shown)
        && (r, store.rows) == FilterEffect(old(store.rows), choice, incoming, existing, perform)
    {
      this.incoming := incoming;
      this.existing := existing;
      var shownIn := ProjectIncoming(incoming);
      var last: Option<ExistingPrompt> := None;
      for i := 0 to |existing|
        invariant last == if i == 0 then None else Some(ProjectExisting(existing[i - 1]))
      {
        last := Some(ProjectExisting(existing[i]));
      }
      if last.None? {
        return Err(UnboundLocalError("existing_preference_prompt_input"));
      }
      var first := Invocation(kind, false, shownIn, last.value);
      invocations := invocations + [first];
      var reply := classifier(first);
      var choice: Result<(string, J.Json)>;
      if reply.Some? {
        choice := Decode(reply.value);
      } else {
        var second := Invocation(kind, true, shownIn, last.value);
        invocations := invocations + [second];
        reply := classifier(second);
        if reply.Some? {
          choice := Decode(reply.value);
        } else {
          choice := Ok((PassPreference, J.Null));
        }
      }
      if choice.Err? {
        return Err(choice.error);
      }
      r := RunTool(store, choice.value.0, choice.value.1, perform);
    }
  }

  /**
   * With a classifier bound to its tools, a successful filter reports one
   * of the tools bound to its cardinality; in particular MNP never appends.
   */
  lemma {:induction false} FilterRunsBoundTool(classifier: Classifier, kind: Cardinality, rows: seq<Record>, incoming: Record, existing: seq<Record>, perform: bool)
    requires BoundTo(classifier, kind) && |existing| > 0
    ensures var choice := Choose(classifier, kind, ProjectIncoming(incoming), ProjectExisting(existing[|existing| - 1]));
      var result := FilterEffect(rows, choice, incoming, existing, perform).0;
      result.Ok? ==> result.value.1 in BoundTools(kind) && (kind == MNP ==> result.value.1 != AppendPreference)
  {
    var choice := Choose(classifier, kind, ProjectIncoming(incoming), ProjectExisting(existing[|existing| - 1]));
    ChooseIsBound(classifier, kind, ProjectIncoming(incoming), ProjectExisting(existing[|existing| - 1]));
    if choice.Ok? && ToolEffect(rows, choice.value.0, choice.value.1, incoming, existing, perform).0.Ok? {
      ToolEffectName(rows, choice.value.0, choice.value.1, incoming, existing, perform);
    }
  }
}
