/**
 * The three maintenance tools. Each one, when `perform` is set, changes the
 * preference collection (append inserts the incoming record; pass merges it
 * with an equal stored record; update replaces a stored record by it), and
 * each returns a message together with its own tool name. The embedding the
 * pass tool computes for the merged text is not modelled.
 */
module MaintenanceTools {
  import opened Wrappers
  import opened PreferenceStore
  import opened FunctionLabel

  /** How a message names a record: `'<detail category>: <attribute>'`. */
  function Tag(x: Record): string {
    "'" + x.detailCategory + ": " + x.attribute + "'"
  }

  function AppendedMessage(incoming: Record): string {
    "Preference " + Tag(incoming) + " got appended"
  }

  function PassedMessage(incoming: Record): string {
    "Preference " + Tag(incoming) + " got passed"
  }

  function UpdatedMessage(deleted: Record, incoming: Record): string {
    "Preference " + Tag(deleted) + " got updated to " + Tag(incoming)
  }

  /**
   * The record the pass tool stores in place of an equal one: the incoming
   * record with the incoming text, a line break and the stored text.
   */
  function Merged(incoming: Record, equal: Record): (r: Record)
    ensures r.text == incoming.text + "\n" + equal.text
    ensures r.(text := incoming.text) == incoming
  {
    incoming.(text := incoming.text + "\n" + equal.text)
  }

  /** Python truthiness of an optional key: `None` and `""` are falsy. */
  predicate Truthy(pk: Option<string>) {
    pk.Some? && pk.value != ""
  }

  /** Append: inserts the incoming record when `perform` is set. */
  method RunAppend(store: Store, incoming: Record, perform: bool) returns (message: string, name: string)
    modifies store
    ensures store.rows == if perform then old(store.rows) + [incoming] else old(store.rows)
    ensures message == AppendedMessage(incoming) && name == AppendPreference
  {
    if perform {
      store.Insert(incoming);
    }
    message := AppendedMessage(incoming);
    name := AppendPreference;
  }

  /**
   * Pass: when `perform` is set and both a truthy key and an equal record
   * are given, deletes the key and inserts the merged record; otherwise the
   * collection is untouched.
   */
  method RunPass(store: Store, incoming: Record, pk: Option<string>, equal: Option<Record>, perform: bool)
    returns (message: string, name: string)
    modifies store
    ensures store.rows ==
      if perform && Truthy(pk) && equal.Some? then DropPk(old(store.rows), pk.value) + [Merged(incoming, equal.value)]
      else old(store.rows)
    ensures message == PassedMessage(incoming) && name == PassPreference
  {
    if perform {
      if Truthy(pk) && equal.Some? {
        var joint := Merged(incoming, equal.value);
        store.Delete(pk.value);
        store.Insert(joint);
      }
    }
    message := PassedMessage(incoming);
    name := PassPreference;
  }

  /** Update: when `perform` is set, deletes the key and then inserts the incoming record. */
  method RunUpdate(store: Store, incoming: Record, pk: string, toDelete: Record, perform: bool)
    returns (message: string, name: string)
    modifies store
    ensures store.rows == if perform then DropPk(old(store.rows), pk) + [incoming] else old(store.rows)
    ensures message == UpdatedMessage(toDelete, incoming) && name == UpdatePreference
  {
    if perform {
      store.Delete(pk);
      store.Insert(incoming);
    }
    message := UpdatedMessage(toDelete, incoming);
    name := UpdatePreference;
  }

  /**
   * When exactly one row of the incoming record's bucket carries the key,
   * and no other row does, an update (or a merging pass) leaves the size of
   * that bucket unchanged.
   */
  lemma {:induction false} ReplaceKeepsBucketSize(rows: seq<Record>, pk: string, incoming: Record)
    requires CountPk(rows, pk) == 1
    requires forall x :: x in rows && x.pk == pk ==>
      InBucket(x, incoming.userName, incoming.mainCategory, incoming.subcategory, incoming.detailCategory)
    ensures var u, m, s, d := incoming.userName, incoming.mainCategory, incoming.subcategory, incoming.detailCategory;
      |Bucket(DropPk(rows, pk) + [incoming], u, m, s, d)| == |Bucket(rows, u, m, s, d)|
  {
    var u, m, s, d := incoming.userName, incoming.mainCategory, incoming.subcategory, incoming.detailCategory;
    DropPkBucket(rows, pk, u, m, s, d);
    BucketConcat(DropPk(rows, pk), [incoming], u, m, s, d);
  }
}
