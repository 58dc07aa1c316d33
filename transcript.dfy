/**
 * Turning a conversation into the transcript text the extractor reads,
 * and a chat memory into the history text.
 */
module Transcript {
  import opened Wrappers
  import opened Strings
  import opened Json

  /** A conversation turn as decoded: its speaker keys and texts, in order. */
  type Turn = seq<(string, Json)>

  /** One message handed to the extractor: its role, its speaker's name (or `None`) and its text. */
  datatype Message = Message(role: string, name: Option<string>, content: string)

  /** How a name renders inside an f-string: `None` prints as "None". */
  function NameText(name: Option<string>): string {
    if name.Some? then name.value else "None"
  }

  /** A user message names its speaker; any other role shows the role alone. */
  function Line(m: Message): (r: string)
    ensures |r| >= |m.role| + 2 + |m.content|
    ensures r[..|m.role|] == m.role && r[|r| - |m.content|..] == m.content
    ensures r[|r| - |m.content| - 2..|r| - |m.content|] == ": "
  {
    if m.role == "User" then m.role + " " + NameText(m.name) + ": " + m.content
    else m.role + ": " + m.content
  }

  function Lines(ms: seq<Message>): (r: seq<string>)
    ensures |r| == |ms| && forall i :: 0 <= i < |ms| ==> r[i] == Line(ms[i])
  {
    seq(|ms|, i requires 0 <= i < |ms| => Line(ms[i]))
  }

  /** `stringify_conversations`: the message lines in order, joined by line breaks. */
  method StringifyConversations(ms: seq<Message>) returns (s: string)
    ensures s == Join(Lines(ms), "\n")
  {
    var formatted: seq<string> := [];
    for i := 0 to |ms|
      invariant formatted == Lines(ms[..i])
    {
      if ms[i].role == "User" {
        formatted := formatted + [ms[i].role + " " + NameText(ms[i].name) + ": " + ms[i].content];
      } else {
        formatted := formatted + [ms[i].role + ": " + ms[i].content];
      }
    }
    assert ms[..|ms|] == ms;
    s := Join(formatted, "\n");
  }

  /** A message whose role, name and text hold no line break. */
  predicate SingleLine(m: Message) {
    '\n' !in m.role && '\n' !in m.content && (m.name.Some? ==> '\n' !in m.name.value)
  }

  lemma {:induction false} LineIsSingle(m: Message)
    requires SingleLine(m)
    ensures '\n' !in Line(m)
  {
    assert '\n' !in " " && '\n' !in ": " && '\n' !in "None";
  }

  /**
   * The transcript has exactly one line per message, in order, with no
   * trailing line break; no messages give the empty text.
   */
  lemma {:induction false} TranscriptLines(ms: seq<Message>)
    requires forall i :: 0 <= i < |ms| ==> SingleLine(ms[i])
    ensures |ms| == 0 ==> Join(Lines(ms), "\n") == ""
    ensures |ms| > 0 ==> Split(Join(Lines(ms), "\n"), "\n") == Lines(ms)
  {
    if |ms| > 0 {
      forall i | 0 <= i < |ms|
        ensures '\n' !in Lines(ms)[i]
      {
        LineIsSingle(ms[i]);
      }
      SplitJoin(Lines(ms), "\n");
    }
  }

  /** A user message's line is "User <name>: <text>"; any other is "<role>: <text>", whatever the name. */
  lemma {:induction false} LineShape(m: Message)
    ensures m.role == "User" ==> Line(m) == "User " + NameText(m.name) + ": " + m.content
    ensures m.role != "User" ==> forall n :: Line(m.(name := n)) == m.role + ": " + m.content
  {
  }

  // ------------------------------------------------------ load_chat_history

  /** One message of a chat memory: its type ("human" or another) and its text. */
  datatype ChatMessage = ChatMessage(kind: string, content: string)

  function HistoryLine(m: ChatMessage): string {
    (if m.kind == "human" then "Human: " else "AI: ") + m.content
  }

  /** The history text: one line per message, each ended by a line break. */
  function History(ms: seq<ChatMessage>): (r: string)
    ensures r == "" <==> |ms| == 0
    ensures |ms| > 0 ==> r[|r| - 1] == '\n'
    ensures |r| >= 5 * |ms|
  {
    if |ms| == 0 then ""
    else History(ms[..|ms| - 1]) + HistoryLine(ms[|ms| - 1]) + "\n"
  }

  /** `load_chat_history`. */
  method LoadChatHistory(ms: seq<ChatMessage>) returns (conversation: string)
    ensures conversation == History(ms)
  {
    conversation := "";
    for i := 0 to |ms|
      invariant conversation == History(ms[..i])
    {
      assert ms[..i + 1][..i] == ms[..i];
      if ms[i].kind == "human" {
        conversation := conversation + "Human: " + ms[i].content + "\n";
      } else {
        conversation := conversation + "AI: " + ms[i].content + "\n";
      }
    }
    assert ms[..|ms|] == ms;
  }

  function HistoryLines(ms: seq<ChatMessage>): (r: seq<string>)
    ensures |r| == |ms| && forall i :: 0 <= i < |ms| ==> r[i] == HistoryLine(ms[i])
  {
    seq(|ms|, i requires 0 <= i < |ms| => HistoryLine(ms[i]))
  }

  /** The history is the lines joined by line breaks with one more break at the end. */
  lemma {:induction false} HistoryIsJoin(ms: seq<ChatMessage>)
    ensures History(ms) == Join(HistoryLines(ms) + [""], "\n")
  {
    if |ms| > 0 {
      var init := ms[..|ms| - 1];
      HistoryIsJoin(init);
      JoinSnoc(HistoryLines(init), HistoryLine(ms[|ms| - 1]));
      assert HistoryLines(init) + [HistoryLine(ms[|ms| - 1])] == HistoryLines(ms);
    }
  }

  /** Joining with an empty last part, one part further. */
  lemma {:induction false} JoinSnoc(parts: seq<string>, x: string)
    ensures Join(parts + [x] + [""], "\n") == Join(parts + [""], "\n") + x + "\n"
    decreases |parts|
  {
    if |parts| == 0 {
      assert [x] + [""] == [x, ""];
      assert [x, ""][1..] == [""];
    } else {
      JoinSnoc(parts[1..], x);
      assert (parts + [x] + [""])[1..] == parts[1..] + [x] + [""];
      assert (parts + [""])[1..] == parts[1..] + [""];
    }
  }

  lemma {:induction false} HistoryLineSingle(m: ChatMessage)
    requires '\n' !in m.content
    ensures '\n' !in HistoryLine(m)
  {
    assert '\n' !in "Human: " && '\n' !in "AI: ";
  }

  /** Lines without breaks, joined with one more break at the end, split back into themselves. */
  lemma {:induction false} SplitTerminated(lines: seq<string>)
    requires forall i :: 0 <= i < |lines| ==> '\n' !in lines[i]
    ensures Split(Join(lines + [""], "\n"), "\n") == lines + [""]
  {
    var parts := lines + [""];
    assert forall i :: 0 <= i < |parts| ==> '\n' !in parts[i];
    SplitJoin(parts, "\n");
    assert ['\n'] == "\n";
  }

  /**
   * Splitting the history at line breaks gives one "Human: " or "AI: "
   * line per message, in order, and the empty text after the last break.
   */
  lemma {:induction false} HistoryLinesSplit(ms: seq<ChatMessage>)
    requires forall i :: 0 <= i < |ms| ==> '\n' !in ms[i].content
    ensures Split(History(ms), "\n") == HistoryLines(ms) + [""]
  {
    HistoryIsJoin(ms);
    forall i | 0 <= i < |ms|
      ensures '\n' !in HistoryLines(ms)[i]
    {
      HistoryLineSingle(ms[i]);
    }
    SplitTerminated(HistoryLines(ms));
  }
}
