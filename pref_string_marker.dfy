/**
 * Marking whether a conversation's preference string occurs in it: the
 * attribute (the last ";"-piece of the preference string, stripped) is
 * looked up, ignoring case, in the text of all turns joined by spaces and
 * in the text of the user's turns (every second turn from the first).
 */
module PreferenceStringMarker {
  import opened Wrappers
  import opened Strings
  import opened Json
  import PreferenceString

  /** One conversation of a dataset line, with the two flags once marked. */
  datatype ConversationData = ConversationData(
    userPreference: string, turns: seq<Json>,
    inConversation: Option<bool>, inUserSentences: Option<bool>)

  /** `str(list(turn.values())[0])`: the text under a turn's first key. */
  function FirstValue(turn: Json): (r: Result<string>)
    ensures r.Ok? <==> turn.Obj? && |turn.members| > 0
  {
    match turn
    case Obj(ms) => if |ms| == 0 then Err(IndexError(0)) else Ok(Text(Get(ms, ms[0].0)))
    case _ => Err(AttributeError("values"))
  }

  /** `turns[::2]`: the first turn and every second one after it. */
  function EveryOther(turns: seq<Json>): (r: seq<Json>)
    ensures |r| == (|turns| + 1) / 2
    ensures forall i :: 0 <= i < |r| ==> r[i] == turns[2 * i]
  {
    seq((|turns| + 1) / 2, i requires 0 <= i < (|turns| + 1) / 2 => turns[2 * i])
  }

  /** The first values of the turns joined by single spaces. */
  function Concatenated(turns: seq<Json>): Result<string> {
    match MapResult(turns, FirstValue)
    case Err(e) => Err(e)
    case Ok(texts) => Ok(Join(texts, " "))
  }

  /** The preference looked for: the last `;`-piece, stripped. */
  function Preference(c: ConversationData): string {
    PreferenceString.LastPiece(c.userPreference)
  }

  /** Python's `needle.lower() in haystack.lower()`. */
  predicate Mentions(text: string, needle: string) {
    Contains(Lower(text), Lower(needle))
  }

  /** One conversation marked: both flags set, everything else untouched. */
  function Marked(c: ConversationData): Result<ConversationData> {
    match Concatenated(c.turns)
    case Err(e) => Err(e)
    case Ok(full) =>
      match Concatenated(EveryOther(c.turns))
      case Err(e) => Err(e)
      case Ok(userOnly) =>
        Ok(c.(inConversation := Some(Mentions(full, Preference(c))),
              inUserSentences := Some(Mentions(userOnly, Preference(c)))))
  }

  /**
   * The marking loop over one line: each conversation gets both flags,
   * first False, then True when the preference occurs in its text; a turn
   * without a first value stops the script.
   */
  method MarkLine(data: seq<ConversationData>) returns (r: Result<seq<ConversationData>>)
    ensures r == MapResult(data, Marked)
  {
    var out: seq<ConversationData> := [];
    for i := 0 to |data|
      invariant MapResult(data[..i], Marked) == Ok(out)
    {
      MapResultExtend(data, Marked, i, out);
      var c := data[i];
      var full := Concatenated(c.turns);
      if full.Err? {
        MapResultFailsEarly(data, Marked, i + 1);
        return Err(full.error);
      }
      var userOnly := Concatenated(EveryOther(c.turns));
      if userOnly.Err? {
        MapResultFailsEarly(data, Marked, i + 1);
        return Err(userOnly.error);
      }
      var preference := PreferenceString.LastPiece(c.userPreference);
      c := c.(inConversation := Some(false), inUserSentences := Some(false));
      if Contains(Lower(full.value), Lower(preference)) {
        c := c.(inConversation := Some(true));
      }
      if Contains(Lower(userOnly.value), Lower(preference)) {
        c := c.(inUserSentences := Some(true));
      }
      out := out + [c];
    }
    assert data[..|data|] == data;
    r := Ok(out);
  }

  // --------------------------------------------------------------- lemmas

  /** Where part `i` sits inside the joined text. */
  lemma {:induction false} JoinOffset(parts: seq<string>, sep: string, i: nat) returns (o: nat)
    requires i < |parts|
    ensures OccursAt(Join(parts, sep), parts[i], o)
    decreases |parts|
  {
    if i == 0 {
      o := 0;
      assert Join(parts, sep)[..|parts[0]|] == parts[0];
    } else {
      var k := JoinOffset(parts[1..], sep, i - 1);
      o := |parts[0]| + |sep| + k;
      var rest := Join(parts[1..], sep);
      assert Join(parts, sep) == parts[0] + sep + rest;
      assert Join(parts, sep)[o..o + |parts[i]|] == rest[k..k + |parts[i]|];
    }
  }

  /** An occurrence survives lower-casing. */
  lemma {:induction false} LowerOccurs(s: string, t: string, o: nat)
    requires OccursAt(s, t, o)
    ensures OccursAt(Lower(s), Lower(t), o)
  {
    assert Lower(s)[o..o + |t|] == Lower(t) by {
      forall k | 0 <= k < |t| ensures Lower(s)[o..o + |t|][k] == Lower(t)[k] {
        assert s[o + k] == t[k];
      }
    }
  }

  /** A text mentioned by one part is mentioned by the joined text. */
  lemma {:induction false} MentionedInPart(parts: seq<string>, sep: string, i: nat, needle: string)
    requires i < |parts| && Mentions(parts[i], needle)
    ensures Mentions(Join(parts, sep), needle)
  {
    var o := JoinOffset(parts, sep, i);
    LowerOccurs(Join(parts, sep), parts[i], o);
    var k: nat :| k <= |Lower(parts[i])| && OccursAt(Lower(parts[i]), Lower(needle), k);
    var whole := Lower(Join(parts, sep));
    assert whole[o + k..o + k + |needle|] == Lower(needle) by {
      assert whole[o..o + |parts[i]|] == Lower(parts[i]);
      forall j | 0 <= j < |needle| ensures whole[o + k + j] == Lower(needle)[j] {
        assert whole[o + k + j] == whole[o..o + |parts[i]|][k + j];
      }
    }
    assert OccursAt(whole, Lower(needle), o + k);
  }

  /**
   * A preference mentioned in some turn raises the conversation flag; in
   * a user turn (an even index) it raises the user-sentence flag too.
   */
  lemma {:induction false} MentionRaisesFlags(c: ConversationData, i: nat)
    requires Marked(c).Ok? && i < |c.turns|
    requires FirstValue(c.turns[i]).Ok? && Mentions(FirstValue(c.turns[i]).value, Preference(c))
    ensures Marked(c).value.inConversation == Some(true)
    ensures i % 2 == 0 ==> Marked(c).value.inUserSentences == Some(true)
  {
    var texts := MapResult(c.turns, FirstValue).value;
    MentionedInPart(texts, " ", i, Preference(c));
    if i % 2 == 0 {
      var users := EveryOther(c.turns);
      var userTexts := MapResult(users, FirstValue).value;
      assert users[i / 2] == c.turns[i];
      MentionedInPart(userTexts, " ", i / 2, Preference(c));
    }
  }

  /** Marking keeps the preference string and the turns, and sets both flags. */
  lemma {:induction false} MarkedKeepsConversation(c: ConversationData)
    requires Marked(c).Ok?
    ensures var m := Marked(c).value;
      && m.userPreference == c.userPreference && m.turns == c.turns
      && m.inConversation.Some? && m.inUserSentences.Some?
  {
  }

  /** Marking fails exactly when some turn has no first value. */
  lemma {:induction false} MarkedFails(c: ConversationData)
    ensures Marked(c).Err? <==> exists i :: 0 <= i < |c.turns| && FirstValue(c.turns[i]).Err?
  {
    if MapResult(c.turns, FirstValue).Ok? {
      var users := EveryOther(c.turns);
      assert forall i :: 0 <= i < |users| ==> users[i] == c.turns[2 * i];
    }
  }

  /** Three turns: a user "a", an assistant "x", a user "b". */
  const SplitTurns: seq<Json> := [Obj([("u", Str("a"))]), Obj([("v", Str("x"))]), Obj([("u", Str("b"))])]

  lemma {:induction false} SplitTurnsTexts()
    ensures Concatenated(SplitTurns) == Ok("a x b")
    ensures Concatenated(EveryOther(SplitTurns)) == Ok("a b")
  {
    SplitTurnsAll();
    SplitTurnsUsers();
  }

  lemma {:induction false} SplitTurnsAll()
    ensures Concatenated(SplitTurns) == Ok("a x b")
  {
    var t := SplitTurns;
    assert FirstValue(t[0]) == Ok("a") && FirstValue(t[1]) == Ok("x") && FirstValue(t[2]) == Ok("b");
    assert t[..0] == [];
    MapResultExtend(t, FirstValue, 0, []);
    assert [] + ["a"] == ["a"];
    MapResultExtend(t, FirstValue, 1, ["a"]);
    assert ["a"] + ["x"] == ["a", "x"];
    MapResultExtend(t, FirstValue, 2, ["a", "x"]);
    assert ["a", "x"] + ["b"] == ["a", "x", "b"];
    assert t[..3] == t;
    assert Join(["a", "x", "b"], " ") == "a x b";
  }

  lemma {:induction false} SplitTurnsUsers()
    ensures Concatenated(EveryOther(SplitTurns)) == Ok("a b")
  {
    var t := SplitTurns;
    assert FirstValue(t[0]) == Ok("a") && FirstValue(t[2]) == Ok("b");
    var u := EveryOther(t);
    assert u == [t[0], t[2]];
    assert u[..0] == [];
    MapResultExtend(u, FirstValue, 0, []);
    assert u[0] == t[0] && u[1] == t[2];
    assert [] + ["a"] == ["a"];
    MapResultExtend(u, FirstValue, 1, ["a"]);
    assert ["a"] + ["b"] == ["a", "b"];
    assert u[..2] == u;
    assert Join(["a", "b"], " ") == "a b";
  }

  lemma {:induction false} SplitTurnsMentions()
    ensures Mentions("a b", "a b") && !Mentions("a x b", "a b")
  {
    assert Lower("a b") == "a b";
    assert Lower("a x b") == "a x b";
    assert OccursAt("a b", "a b", 0);
    forall i: nat | i <= 5 ensures !OccursAt("a x b", "a b", i) {
      if i == 0 || i == 2 {
        assert "a x b"[2] == 'x';
      } else if i == 1 {
        assert "a x b"[1] == ' ';
      }
    }
  }

  /**
   * The flags are not ordered: a preference spread over two user turns is
   * found in the user-only text, which joins them directly, but not in the
   * whole conversation, where an assistant turn separates them.
   */
  lemma {:induction false} UserFlagWithoutConversationFlag()
    ensures var c := ConversationData("a b", SplitTurns, None, None);
      Marked(c) == Ok(c.(inConversation := Some(false), inUserSentences := Some(true)))
  {
    var c := ConversationData("a b", SplitTurns, None, None);
    assert Preference(c) == "a b" by {
      SplitNoSeparator("a b", ";");
      StripTrimmed("a b");
    }
    SplitTurnsTexts();
    SplitTurnsMentions();
  }

  /** An empty preference (a preference string ending in ";") is found everywhere. */
  lemma {:induction false} EmptyPreferenceAlwaysFound(c: ConversationData)
    requires Marked(c).Ok? && Preference(c) == ""
    ensures Marked(c).value.inConversation == Some(true) && Marked(c).value.inUserSentences == Some(true)
  {
    var full := Concatenated(c.turns).value;
    var userOnly := Concatenated(EveryOther(c.turns)).value;
    assert OccursAt(Lower(full), Lower(""), 0);
    assert OccursAt(Lower(userOnly), Lower(""), 0);
  }
}
