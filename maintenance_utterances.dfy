/**
 * Choosing the "different" attribute for a maintenance utterance: another
 * attribute of the same detail category, taken from the category table,
 * and the preference string rewritten to carry it. The random choice is an
 * input index; the question generator is a parameter.
 */
module MaintenanceUtterances {
  import opened Wrappers
  import opened Strings
  import opened PreferenceString

  /** The one detail category whose table row lists a single attribute. */
  const HandicappedParking := "Need for Handicapped Accessible Parking"
  const HandicappedDefault := "No"
  const NotInList := "list.remove(x): x not in list"

  /** The category table's attribute cell of the first row with a given detail category. */
  type AttributeTable = string -> Option<string>

  /** A table cell split at "," with each option stripped. */
  function Options(cell: string): (r: seq<string>)
    ensures |r| == |Split(cell, ",")|
    ensures forall i :: 0 <= i < |r| ==> r[i] == Strip(Split(cell, ",")[i])
  {
    var p := Split(cell, ",");
    seq(|p|, i requires 0 <= i < |p| => Strip(p[i]))
  }

  /**
   * The attributes left to choose from: the detail category's options with
   * one occurrence of the preference's own attribute removed. A preference
   * string with fewer than three pieces, a detail category without a table
   * row, or an attribute missing from the options fail.
   */
  function Remaining(pref: string, table: AttributeTable): (r: Result<seq<string>>)
  {
    var p := Split(pref, ";");
    if |p| < 3 then Err(IndexError(|p|))
    else
      match table(Strip(p[2]))
      case None => Err(IndexError(0))
      case Some(cell) =>
        var attribute := LastPiece(pref);
        if attribute !in Options(cell) then Err(ValueError(NotInList))
        else Ok(RemoveFirst(Options(cell), attribute))
  }

  /** The different attribute: the `pick`-th remaining one, or "No" for the one single-option category. */
  function DifferentAttribute(pref: string, table: AttributeTable, pick: nat): Result<string> {
    match Remaining(pref, table)
    case Err(e) => Err(e)
    case Ok(rest) =>
      if |rest| > 0 then Ok(rest[pick % |rest|])
      else if Strip(Split(pref, ";")[2]) == HandicappedParking then Ok(HandicappedDefault)
      else Err(ValueError(""))
  }

  /**
   * The removal takes out exactly one occurrence of the own attribute and
   * fails exactly when the attribute is not an option.
   */
  lemma {:induction false} RemainingRemovesOne(pref: string, table: AttributeTable)
    requires |Split(pref, ";")| >= 3 && table(Strip(Split(pref, ";")[2])).Some?
    ensures var options := Options(table(Strip(Split(pref, ";")[2])).value);
      && (Remaining(pref, table).Err? <==> LastPiece(pref) !in options)
      && (Remaining(pref, table).Ok? ==>
            multiset(Remaining(pref, table).value) == multiset(options) - multiset{LastPiece(pref)})
  {
    var options := Options(table(Strip(Split(pref, ";")[2])).value);
    var attribute := LastPiece(pref);
    if attribute in options {
      assert Remaining(pref, table) == Ok(RemoveFirst(options, attribute));
    } else {
      assert Remaining(pref, table) == Err(ValueError(NotInList));
    }
  }

  /**
   * A chosen attribute is one of the remaining ones, or the fixed "No" of
   * the single-option category when nothing remains.
   */
  lemma {:induction false} DifferentIsRemaining(pref: string, table: AttributeTable, pick: nat)
    requires DifferentAttribute(pref, table, pick).Ok?
    ensures Remaining(pref, table).Ok?
    ensures var d, rest := DifferentAttribute(pref, table, pick).value, Remaining(pref, table).value;
      d in rest || (rest == [] && Strip(Split(pref, ";")[2]) == HandicappedParking && d == HandicappedDefault)
  {
  }

  /** Every remaining attribute is chosen by some pick. */
  lemma {:induction false} EveryRemainingIsPickable(pref: string, table: AttributeTable, x: string)
    requires Remaining(pref, table).Ok? && x in Remaining(pref, table).value
    ensures exists pick: nat :: DifferentAttribute(pref, table, pick) == Ok(x)
  {
    var rest := Remaining(pref, table).value;
    var i :| 0 <= i < |rest| && rest[i] == x;
    assert DifferentAttribute(pref, table, i) == Ok(rest[i % |rest|]);
    SmallRemainder(i, |rest|);
  }

  lemma {:induction false} SmallRemainder(i: nat, n: nat)
    requires i < n
    ensures i % n == i
  {
  }

  /**
   * When the own attribute occurs once among the options, a chosen
   * attribute differs from it.
   */
  lemma {:induction false} DifferentDiffers(pref: string, table: AttributeTable, pick: nat)
    requires DifferentAttribute(pref, table, pick).Ok?
    requires var options := Options(table(Strip(Split(pref, ";")[2])).value);
      multiset(options)[LastPiece(pref)] == 1
    requires Remaining(pref, table).Ok? && Remaining(pref, table).value != []
    ensures DifferentAttribute(pref, table, pick).value != LastPiece(pref)
  {
    var rest := Remaining(pref, table).value;
    RemainingRemovesOne(pref, table);
    assert multiset(rest)[LastPiece(pref)] == 0;
    assert rest[pick % |rest|] in multiset(rest);
  }

  /** A conversation of a dataset line, as far as this step reads and writes it. */
  datatype Conversation = Conversation(userPreference: string, differentAttribute: Option<string>)

  /** The conversation after this step: it gains its different attribute. */
  function Annotated(c: Conversation, table: AttributeTable, pick: nat): Result<Conversation> {
    match DifferentAttribute(c.userPreference, table, pick)
    case Err(e) => Err(e)
    case Ok(d) => Ok(c.(differentAttribute := Some(d)))
  }

  /** The conversations of a line after this step, up to the first failure. */
  function AnnotatedAll(cs: seq<Conversation>, table: AttributeTable, picks: seq<nat>): Result<seq<Conversation>>
    requires |picks| == |cs|
  {
    MapResult(Zip(cs, picks), AnnotateStep(table))
  }

  /** One conversation with its pick, annotated. */
  function AnnotateStep(table: AttributeTable): ((Conversation, nat)) -> Result<Conversation> {
    (p: (Conversation, nat)) => Annotated(p.0, table, p.1)
  }

  function Zip<A, B>(xs: seq<A>, ys: seq<B>): (r: seq<(A, B)>)
    requires |xs| == |ys|
    ensures |r| == |xs| && forall i :: 0 <= i < |xs| ==> r[i] == (xs[i], ys[i])
  {
    seq(|xs|, i requires 0 <= i < |xs| => (xs[i], ys[i]))
  }

  /**
   * The loop over one dataset line: every conversation keeps its
   * preference and gains the different attribute drawn with its own pick.
   */
  method AnnotateLine(cs: seq<Conversation>, table: AttributeTable, picks: seq<nat>)
    returns (r: Result<seq<Conversation>>)
    requires |picks| == |cs|
    ensures r == AnnotatedAll(cs, table, picks)
    ensures r.Ok? ==> |r.value| == |cs| && forall i :: 0 <= i < |cs| ==>
      && r.value[i].userPreference == cs[i].userPreference
      && DifferentAttribute(cs[i].userPreference, table, picks[i]).Ok?
      && r.value[i].differentAttribute == Some(DifferentAttribute(cs[i].userPreference, table, picks[i]).value)
  {
    r := MapEach(Zip(cs, picks), AnnotateStep(table));
  }
}
