/**
 * The display-name-to-identifier codecs used when building schema
 * queries: `CategoryToPydSubExtra` gives the Pydantic class name of a main
 * category or subcategory (and the field key of a detail category),
 * `CategoryToPyd` gives the snake-case field key of all three. Only
 * display names are accepted; anything else, and any unknown category
 * kind, raises ValueError.
 */
module PydCategory {
  import opened Wrappers
  import opened Taxonomy
  import opened CategoryLabels

  /** The class-name table (`category_to_pyd_category_sub_extra`). */
  function CategoryToPydSubExtra(input: string, category: string): (r: Result<string>)
    ensures r.Err? ==> r.error == NoMapping(input)
    ensures r.Ok? ==> category == MainKind || category == SubKind || category == DetailKind
    ensures r.Ok? && category == MainKind ==> exists m: Main :: input == MainDisplay(m) && r.value == MainClass(m)
    ensures r.Ok? && category == SubKind ==> exists s: Sub :: input == SubDisplay(s) && r.value == SubClass(s)
    ensures r.Ok? && category == DetailKind ==>
      exists d: Detail :: input == DetailDisplay(d) && r.value == DetailKey(d)
  {
    if category == MainKind then
      match ParseMain(input)
      case Some(m) => if input == MainDisplay(m) then Ok(MainClass(m)) else Err(NoMapping(input))
      case None => Err(NoMapping(input))
    else if category == SubKind then
      match ParseSub(input)
      case Some(s) => if input == SubDisplay(s) then Ok(SubClass(s)) else Err(NoMapping(input))
      case None => Err(NoMapping(input))
    else if category == DetailKind then
      match ParseDetail(input)
      case Some(d) => if input == DetailDisplay(d) then Ok(DetailKey(d)) else Err(NoMapping(input))
      case None => Err(NoMapping(input))
    else
      Err(NoMapping(input))
  }

  /** The field-key table (`category_to_pyd_category`). */
  function CategoryToPyd(input: string, category: string): (r: Result<string>)
    ensures r.Err? ==> r.error == NoMapping(input)
    ensures r.Ok? ==> category == MainKind || category == SubKind || category == DetailKind
    ensures r.Ok? && category == MainKind ==> exists m: Main :: input == MainDisplay(m) && r.value == MainKey(m)
    ensures r.Ok? && category == SubKind ==> exists s: Sub :: input == SubDisplay(s) && r.value == SubKey(s)
    ensures r.Ok? && category == DetailKind ==>
      exists d: Detail :: input == DetailDisplay(d) && r.value == DetailKey(d)
  {
    if category == MainKind then
      match ParseMain(input)
      case Some(m) => if input == MainDisplay(m) then Ok(MainKey(m)) else Err(NoMapping(input))
      case None => Err(NoMapping(input))
    else if category == SubKind then
      SubToPyd(input)
    else if category == DetailKind then
      match ParseDetail(input)
      case Some(d) => if input == DetailDisplay(d) then Ok(DetailKey(d)) else Err(NoMapping(input))
      case None => Err(NoMapping(input))
    else
      Err(NoMapping(input))
  }

  /** The subcategory rows of the field-key table. */
  function SubToPyd(input: string): (r: Result<string>)
    ensures r.Err? ==> r.error == NoMapping(input)
    ensures r.Ok? ==> exists s: Sub :: input == SubDisplay(s) && r.value == SubKey(s)
  {
    match ParseSub(input)
    case Some(s) => if input == SubDisplay(s) then Ok(SubKey(s)) else Err(NoMapping(input))
    case None => Err(NoMapping(input))
  }

  /** The display names of the selected kind: exactly the strings both tables accept. */
  predicate IsDisplayName(input: string, category: string) {
    || (category == MainKind && exists m: Main :: input == MainDisplay(m))
    || (category == SubKind && exists s: Sub :: input == SubDisplay(s))
    || (category == DetailKind && exists d: Detail :: input == DetailDisplay(d))
  }

  /** Every main-category display name is mapped to that category's identifiers. */
  lemma {:induction false} PydOfMainDisplay(m: Main)
    ensures CategoryToPydSubExtra(MainDisplay(m), MainKind) == Ok(MainClass(m))
    ensures CategoryToPyd(MainDisplay(m), MainKind) == Ok(MainKey(m))
  {
    ParseMainNames(m);
  }

  /** Every subcategory display name is mapped to that subcategory's identifiers. */
  lemma {:induction false} PydOfSubDisplay(s: Sub)
    ensures CategoryToPydSubExtra(SubDisplay(s), SubKind) == Ok(SubClass(s))
    ensures CategoryToPyd(SubDisplay(s), SubKind) == Ok(SubKey(s))
    ensures SubToPyd(SubDisplay(s)) == Ok(SubKey(s))
  {
    ParseSubNames(s);
  }

  /** Every detail display name is mapped to that detail category's key by both tables. */
  lemma {:induction false} PydOfDetailDisplay(d: Detail)
    ensures CategoryToPydSubExtra(DetailDisplay(d), DetailKind) == Ok(DetailKey(d))
    ensures CategoryToPyd(DetailDisplay(d), DetailKind) == Ok(DetailKey(d))
  {
    assert DetailKind != MainKind && DetailKind != SubKind;
    assert ParseDetail(DetailDisplay(d)) == Some(d) by {
      ParseDetailNames(d);
    }
  }

  /** Both tables raise exactly for the strings that are not display names of the kind. */
  lemma {:induction false} PydDefined(input: string, category: string)
    ensures CategoryToPyd(input, category).Ok? <==> IsDisplayName(input, category)
    ensures CategoryToPydSubExtra(input, category).Ok? <==> IsDisplayName(input, category)
  {
    if category == MainKind {
      if m: Main :| input == MainDisplay(m) {
        PydOfMainDisplay(m);
      }
    } else if category == SubKind {
      if s: Sub :| input == SubDisplay(s) {
        PydOfSubDisplay(s);
      }
    } else if category == DetailKind {
      if d: Detail :| input == DetailDisplay(d) {
        PydOfDetailDisplay(d);
      }
    }
  }

  /** For detail categories the two tables are the same table. */
  lemma {:induction false} DetailTablesAgree(input: string)
    ensures CategoryToPydSubExtra(input, DetailKind) == CategoryToPyd(input, DetailKind)
  {
  }

  /** The snake-case keys and the class names of main categories name them one-to-one. */
  lemma {:induction false} MainIdentifiersInjective(m1: Main, m2: Main)
    ensures MainKey(m1) == MainKey(m2) ==> m1 == m2
    ensures MainClass(m1) == MainClass(m2) ==> m1 == m2
  {
    ParseMainNames(m1);
    ParseMainNames(m2);
  }

  /** The snake-case keys and the class names of subcategories name them one-to-one. */
  lemma {:induction false} SubIdentifiersInjective(s1: Sub, s2: Sub)
    ensures SubKey(s1) == SubKey(s2) ==> s1 == s2
    ensures SubClass(s1) == SubClass(s2) ==> s1 == s2
  {
    ParseSubNames(s1);
    ParseSubNames(s2);
  }

  /** The snake-case keys of detail categories name them one-to-one. */
  lemma {:induction false} DetailKeysInjective(d1: Detail, d2: Detail)
    ensures DetailKey(d1) == DetailKey(d2) ==> d1 == d2
  {
    ParseDetailNames(d1);
    ParseDetailNames(d2);
  }

  /** Each table is injective: two accepted inputs with the same output are the same input. */
  lemma {:induction false} PydInjective(a: string, b: string, category: string)
    requires CategoryToPyd(a, category).Ok? && CategoryToPyd(a, category) == CategoryToPyd(b, category)
    ensures a == b
  {
    if category == MainKind {
      var m1: Main :| a == MainDisplay(m1) && CategoryToPyd(a, category).value == MainKey(m1);
      var m2: Main :| b == MainDisplay(m2) && CategoryToPyd(b, category).value == MainKey(m2);
      MainIdentifiersInjective(m1, m2);
    } else if category == SubKind {
      var s1: Sub :| a == SubDisplay(s1) && CategoryToPyd(a, category).value == SubKey(s1);
      var s2: Sub :| b == SubDisplay(s2) && CategoryToPyd(b, category).value == SubKey(s2);
      SubIdentifiersInjective(s1, s2);
    } else {
      var d1: Detail :| a == DetailDisplay(d1) && CategoryToPyd(a, category).value == DetailKey(d1);
      var d2: Detail :| b == DetailDisplay(d2) && CategoryToPyd(b, category).value == DetailKey(d2);
      DetailKeysInjective(d1, d2);
    }
  }

  /** Translating a display name to its field key keeps its class label. */
  lemma {:induction false} PydKeepsLabel(input: string, category: string)
    requires CategoryToPyd(input, category).Ok?
    ensures StringToNumber(CategoryToPyd(input, category).value, category) == StringToNumber(input, category)
  {
    if category == MainKind {
      var m: Main :| input == MainDisplay(m) && CategoryToPyd(input, category).value == MainKey(m);
      MainNamesLabel(m);
    } else if category == SubKind {
      var s: Sub :| input == SubDisplay(s) && CategoryToPyd(input, category).value == SubKey(s);
      SubNamesLabel(s);
    } else {
      var d: Detail :| input == DetailDisplay(d) && CategoryToPyd(input, category).value == DetailKey(d);
      DetailNamesLabel(d);
    }
  }
}
