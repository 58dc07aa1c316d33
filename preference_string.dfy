/**
 * The one-line encoding of a preference, "Main; Sub; Detail; Attribute",
 * that the dataset generator writes and every later stage decodes by
 * splitting at ";" and stripping the pieces.
 */
module PreferenceString {
  import opened Wrappers
  import opened Strings

  /** The four fields of a preference, as the ground-truth parse returns them. */
  datatype GroundTruth = GroundTruth(main: string, sub: string, detail: string, attribute: string)

  /** The generator's `user_preference` string. */
  function UserPreference(main: string, sub: string, detail: string, attributes: string): string {
    main + "; " + sub + "; " + detail + "; " + attributes
  }

  /** The generator's `topic` string. */
  function Topic(main: string, sub: string): string {
    main + "; " + sub
  }

  /**
   * The ground-truth parse: the first four `;`-pieces, each stripped; later
   * pieces are ignored, and fewer than four pieces fail at the first
   * missing index.
   */
  function ParseGroundTruth(s: string): (r: Result<GroundTruth>)
    ensures var p := Split(s, ";");
      && (r.Ok? <==> |p| >= 4)
      && (r.Err? ==> r.error == IndexError(|p|))
  {
    var p := Split(s, ";");
    if |p| < 4 then Err(IndexError(|p|))
    else Ok(GroundTruth(Strip(p[0]), Strip(p[1]), Strip(p[2]), Strip(p[3])))
  }

  /** The attribute read back from a preference string: its last `;`-piece, stripped. */
  function LastPiece(s: string): string {
    var p := Split(s, ";");
    Strip(p[|p| - 1])
  }

  /** The preference string with its last `;`-piece replaced by " " and the new attribute. */
  function WithAttribute(s: string, attribute: string): string {
    var p := Split(s, ";");
    Join(p[..|p| - 1] + [" " + attribute], ";")
  }

  /** A field the encoding carries unharmed: no `;`, no surrounding whitespace. */
  predicate Clean(x: string) {
    ';' !in x && (|x| > 0 ==> !IsSpace(x[0]) && !IsSpace(x[|x| - 1]))
  }

  /** A leading space never survives `strip`. */
  lemma {:induction false} StripSpaceFront(x: string)
    ensures Strip(" " + x) == Strip(x)
  {
    assert (" " + x)[1..] == x;
  }

  /** The encoding is the `;`-join of the fields, each but the first behind one space. */
  lemma {:induction false} UserPreferenceIsJoin(main: string, sub: string, detail: string, attributes: string)
    ensures UserPreference(main, sub, detail, attributes) == Join([main, " " + sub, " " + detail, " " + attributes], ";")
  {
    var parts := [main, " " + sub, " " + detail, " " + attributes];
    assert parts[1..][1..][1..] == [" " + attributes];
    assert Join(parts[1..][1..], ";") == " " + detail + ";" + " " + attributes;
    assert Join(parts[1..], ";") == " " + sub + ";" + (" " + detail + ";" + " " + attributes);
    assert Join(parts, ";") == main + ";" + (" " + sub + ";" + (" " + detail + ";" + " " + attributes));
  }

  /** Splitting an encoding at ";" gives its four fields back, three of them behind a space. */
  lemma {:induction false} SplitUserPreference(main: string, sub: string, detail: string, attributes: string)
    requires ';' !in main && ';' !in sub && ';' !in detail && ';' !in attributes
    ensures Split(UserPreference(main, sub, detail, attributes), ";") == [main, " " + sub, " " + detail, " " + attributes]
  {
    UserPreferenceIsJoin(main, sub, detail, attributes);
    SplitJoin([main, " " + sub, " " + detail, " " + attributes], ";");
  }

  /** Round trip: parsing an encoding gives back its fields, stripped. */
  lemma {:induction false} ParseUserPreference(main: string, sub: string, detail: string, attributes: string)
    requires ';' !in main && ';' !in sub && ';' !in detail && ';' !in attributes
    ensures ParseGroundTruth(UserPreference(main, sub, detail, attributes))
      == Ok(GroundTruth(Strip(main), Strip(sub), Strip(detail), Strip(attributes)))
  {
    var p := Split(UserPreference(main, sub, detail, attributes), ";");
    SplitUserPreference(main, sub, detail, attributes);
    assert p[1] == " " + sub && p[2] == " " + detail && p[3] == " " + attributes;
    StripSpaceFront(sub);
    StripSpaceFront(detail);
    StripSpaceFront(attributes);
    assert ParseGroundTruth(UserPreference(main, sub, detail, attributes))
      == Ok(GroundTruth(Strip(p[0]), Strip(p[1]), Strip(p[2]), Strip(p[3])));
  }

  /** Round trip: clean fields come back from the parse exactly. */
  lemma {:induction false} ParseCleanUserPreference(main: string, sub: string, detail: string, attributes: string)
    requires Clean(main) && Clean(sub) && Clean(detail) && Clean(attributes)
    ensures ParseGroundTruth(UserPreference(main, sub, detail, attributes)) == Ok(GroundTruth(main, sub, detail, attributes))
  {
    ParseUserPreference(main, sub, detail, attributes);
    StripTrimmed(main);
    StripTrimmed(sub);
    StripTrimmed(detail);
    StripTrimmed(attributes);
  }

  /** The attribute read back from an encoding is its last field, stripped. */
  lemma {:induction false} LastPieceOfUserPreference(main: string, sub: string, detail: string, attributes: string)
    requires ';' !in main && ';' !in sub && ';' !in detail && ';' !in attributes
    ensures LastPiece(UserPreference(main, sub, detail, attributes)) == Strip(attributes)
  {
    SplitUserPreference(main, sub, detail, attributes);
    StripSpaceFront(attributes);
  }

  /** The topic is the encoding's first two fields, and the encoding extends it. */
  lemma {:induction false} TopicIsPrefix(main: string, sub: string, detail: string, attributes: string)
    ensures UserPreference(main, sub, detail, attributes) == Topic(main, sub) + "; " + detail + "; " + attributes
  {
  }

  /**
   * Replacing the attribute of an encoding gives the encoding of the same
   * categories with the new attribute.
   */
  lemma {:induction false} WithAttributeEncodes(main: string, sub: string, detail: string, attributes: string, other: string)
    requires ';' !in main && ';' !in sub && ';' !in detail && ';' !in attributes
    ensures WithAttribute(UserPreference(main, sub, detail, attributes), other) == UserPreference(main, sub, detail, other)
  {
    SplitUserPreference(main, sub, detail, attributes);
    var p := [main, " " + sub, " " + detail, " " + attributes];
    assert p[..3] + [" " + other] == [main, " " + sub, " " + detail, " " + other];
    UserPreferenceIsJoin(main, sub, detail, other);
  }
}
