/**
 * What both extraction evaluations read from a scored conversation: the
 * ground-truth category labels, the labels and texts of the extracted
 * preferences, the try at which the extraction validated, and the shared
 * bookkeeping (the song-to-genre relabelling, the first extracted
 * preference matching the ground truth, the `valid_at_try` counters, and
 * where the processing of a line stops).
 */
module ExtractionScores {
  import opened Wrappers
  import opened Json

  /** The three category levels. */
  datatype Level = Main | Sub | Detail

  /** A preference's main, sub and detail category labels. */
  datatype Labels = Labels(main: int, sub: int, detail: int) {
    function At(level: Level): int {
      match level
      case Main => main
      case Sub => sub
      case Detail => detail
    }
  }

  /** One extracted preference: its labels and the text it was extracted from. */
  datatype Extracted = Extracted(labels: Labels, text: string)

  /**
   * The `conversation_extracted_preferences` entry: ground-truth labels,
   * the extracted preferences in order (their number is
   * `number_preferences_extracted`), `valid_at_try`, and the optional
   * `number_other_extracted`.
   */
  datatype Extraction = Extraction(
    groundTruth: Labels, extracted: seq<Extracted>, validAtTry: Option<int>, numberOther: Option<int>)

  /** One conversation of an input line; `extraction` is None when the key is missing. */
  datatype Conversation = Conversation(extraction: Option<Extraction>, userPreference: string, turns: seq<Json>)

  /** The detail label of "song" and the one of "genre" it is folded into. */
  const SongLabel := 50
  const GenreLabel := 49

  /** The labels with every song label replaced by the genre label. */
  function Relabelled(labels: seq<int>): (r: seq<int>)
    ensures |r| == |labels|
    ensures forall i :: 0 <= i < |r| ==> r[i] == if labels[i] == SongLabel then GenreLabel else labels[i]
  {
    seq(|labels|, i requires 0 <= i < |labels| => if labels[i] == SongLabel then GenreLabel else labels[i])
  }

  /** The in-place loop replacing 50 by 49. */
  method RelabelSongAsGenre(labels: seq<int>) returns (r: seq<int>)
    ensures r == Relabelled(labels)
  {
    r := labels;
    for i := 0 to |r|
      invariant |r| == |labels|
      invariant forall j :: 0 <= j < i ==> r[j] == if labels[j] == SongLabel then GenreLabel else labels[j]
      invariant forall j :: i <= j < |r| ==> r[j] == labels[j]
    {
      if r[i] == SongLabel {
        r := r[i := GenreLabel];
      }
    }
  }

  /** After relabelling no song label is left, the other labels are kept, and relabelling again changes nothing. */
  lemma {:induction false} RelabelledProperties(labels: seq<int>)
    ensures SongLabel !in Relabelled(labels)
    ensures forall x :: x != SongLabel && x != GenreLabel ==> (x in labels <==> x in Relabelled(labels))
    ensures Relabelled(Relabelled(labels)) == Relabelled(labels)
  {
    var r := Relabelled(labels);
    forall x | x != SongLabel && x != GenreLabel && x in labels ensures x in r {
      var i :| 0 <= i < |labels| && labels[i] == x;
      assert r[i] == x;
    }
  }

  /** The labels of one level, one per extracted preference. */
  function Column(xs: seq<Extracted>, level: Level): (r: seq<int>)
    ensures |r| == |xs|
    ensures forall i :: 0 <= i < |r| ==> r[i] == xs[i].labels.At(level)
  {
    seq(|xs|, i requires 0 <= i < |xs| => xs[i].labels.At(level))
  }

  /** The predicted list of a level, relabelled at detail level when asked. */
  function Predicted(e: Extraction, level: Level, songIsGenre: bool): (r: seq<int>)
    ensures |r| == |e.extracted|
    ensures level != Detail || !songIsGenre ==> r == Column(e.extracted, level)
    ensures level == Detail && songIsGenre ==> SongLabel !in r
    ensures level == Detail && songIsGenre ==>
      forall i :: 0 <= i < |r| ==> r[i] == if e.extracted[i].labels.detail == SongLabel then GenreLabel else e.extracted[i].labels.detail
  {
    if level == Detail && songIsGenre then Relabelled(Column(e.extracted, Detail)) else Column(e.extracted, level)
  }

  /** The (ground truth, prediction) list pair of one level. */
  datatype LabelLists = LabelLists(truth: seq<seq<int>>, pred: seq<seq<int>>) {
    predicate Aligned(n: nat) {
      |truth| == n && |pred| == n
    }

    /** Every prediction holds exactly one label. */
    predicate Singles() {
      AllSingle(pred)
    }

    /** Every ground-truth entry is as long as its prediction and repeats one label. */
    predicate Repeats() {
      |truth| == |pred| && AllRepeat(truth, pred)
    }
  }

  /** Every entry holds exactly one label. */
  predicate AllSingle(pred: seq<seq<int>>) {
    |pred| == 0 || (AllSingle(pred[..|pred| - 1]) && |pred[|pred| - 1]| == 1)
  }

  /** A ground-truth entry as long as its prediction, repeating one label. */
  predicate RepeatsOne(truth: seq<int>, pred: seq<int>) {
    |truth| == |pred| && forall j :: 0 <= j < |truth| ==> truth[j] == truth[0]
  }

  /** Every ground-truth entry repeats one label as often as its prediction has labels. */
  predicate AllRepeat(truth: seq<seq<int>>, pred: seq<seq<int>>)
    requires |truth| == |pred|
  {
    |truth| == 0 || (AllRepeat(truth[..|truth| - 1], pred[..|pred| - 1]) && RepeatsOne(truth[|truth| - 1], pred[|pred| - 1]))
  }

  /** The pointwise reading of `AllSingle` and `AllRepeat`. */
  lemma {:induction false} AllSingleRepeatAt(truth: seq<seq<int>>, pred: seq<seq<int>>, i: nat)
    requires |truth| == |pred| && i < |pred|
    ensures AllSingle(pred) ==> |pred[i]| == 1
    ensures AllRepeat(truth, pred) ==> RepeatsOne(truth[i], pred[i])
    decreases |pred|
  {
    if i < |pred| - 1 {
      AllSingleRepeatAt(truth[..|truth| - 1], pred[..|pred| - 1], i);
    }
  }

  /** One list pair per level. */
  datatype Levels = Levels(main: LabelLists, sub: LabelLists, detail: LabelLists) {
    function At(level: Level): LabelLists {
      match level
      case Main => main
      case Sub => sub
      case Detail => detail
    }

    predicate Aligned(n: nat) {
      main.Aligned(n) && sub.Aligned(n) && detail.Aligned(n)
    }

    predicate Singles() {
      main.Singles() && sub.Singles() && detail.Singles()
    }

    predicate Repeats() {
      main.Repeats() && sub.Repeats() && detail.Repeats()
    }
  }

  const NoLists := LabelLists([], [])
  const NoLevels := Levels(NoLists, NoLists, NoLists)

  /** Empty lists are aligned at zero and hold only single predictions and repeated truths. */
  lemma EmptyLevels()
    ensures NoLevels.Aligned(0) && NoLevels.Singles() && NoLevels.Repeats()
  {
    assert NoLists.Aligned(0) && NoLists.Singles() && NoLists.Repeats();
  }

  /** The first position holding `x`, if any. */
  function FirstIndex(x: int, xs: seq<int>): (r: Option<nat>)
    ensures r.Some? <==> x in xs
    ensures r.Some? ==> r.value < |xs| && xs[r.value] == x && forall j :: 0 <= j < r.value ==> xs[j] != x
  {
    if |xs| == 0 then None
    else if xs[0] == x then Some(0)
    else
      match FirstIndex(x, xs[1..])
      case None => None
      case Some(k) => Some(k + 1)
  }

  /**
   * The search for the ground-truth detail label among the extracted ones:
   * the flag starts as membership, is cleared by every mismatch and set,
   * with the index, by the first match.
   */
  method FindGroundTruth(x: int, xs: seq<int>) returns (found: bool, index: Option<nat>)
    ensures found <==> x in xs
    ensures index == FirstIndex(x, xs)
  {
    found := x in xs;
    index := None;
    var idx := 0;
    while idx < |xs|
      invariant 0 <= idx <= |xs|
      invariant forall j :: 0 <= j < idx ==> xs[j] != x
      invariant idx == 0 ==> (found <==> x in xs)
      invariant idx > 0 ==> !found
      invariant index.None?
    {
      if xs[idx] == x {
        found := true;
        index := Some(idx);
        return;
      } else {
        found := false;
      }
      idx := idx + 1;
    }
  }

  /** The three `valid_at_try` counters. */
  datatype TryCounters = TryCounters(atTry1: nat, atTry2: nat, notValid: nat) {
    function Total(): nat {
      atTry1 + atTry2 + notValid
    }
  }

  /** One processed conversation counted by the try at which it validated. */
  function CountTry(c: TryCounters, validAtTry: Option<int>): (r: TryCounters)
    ensures r.Total() == c.Total() + 1
    ensures validAtTry == Some(1) ==> r == c.(atTry1 := c.atTry1 + 1)
    ensures validAtTry == Some(2) ==> r == c.(atTry2 := c.atTry2 + 1)
    ensures validAtTry != Some(1) && validAtTry != Some(2) ==> r == c.(notValid := c.notValid + 1)
  {
    if validAtTry == Some(1) then c.(atTry1 := c.atTry1 + 1)
    else if validAtTry == Some(2) then c.(atTry2 := c.atTry2 + 1)
    else c.(notValid := c.notValid + 1)
  }

  /** How many conversations of a line are scored: those before the first one without an extraction. */
  function Processed(convs: seq<Conversation>): (n: nat)
    ensures n <= |convs|
    ensures forall i :: 0 <= i < n ==> convs[i].extraction.Some?
    ensures n < |convs| ==> convs[n].extraction.None?
  {
    if |convs| == 0 || convs[0].extraction.None? then 0 else 1 + Processed(convs[1..])
  }

  /** A conversation with an extraction inside the processed prefix's reach extends it. */
  lemma {:induction false} ProcessedNext(convs: seq<Conversation>, i: nat)
    requires i <= Processed(convs) && i < |convs| && convs[i].extraction.Some?
    ensures i + 1 <= Processed(convs)
  {
  }
}
