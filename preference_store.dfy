/**
 * The preference collection the maintenance tools act on: the rows of a
 * vector-database collection whose primary key is a string, with the
 * embedding left out. Inserting does not check the key (the database does
 * not enforce unique primary keys on insert); deleting a key removes every
 * row that carries it. A query filters rows by equality on the bucket
 * columns user name, main category, subcategory and detail category.
 */
module PreferenceStore {

  /** One stored (or incoming) preference; the embedding vector is not modelled. */
  datatype Record = Record(
    pk: string,
    text: string,
    mainCategory: string,
    subcategory: string,
    detailCategory: string,
    attribute: string,
    userName: string)

  /** The rows that remain after deleting every row whose key is `pk`, in their order. */
  function DropPk(rows: seq<Record>, pk: string): (r: seq<Record>)
    ensures |r| <= |rows|
    ensures forall x :: x in r <==> x in rows && x.pk != pk
  {
    if |rows| == 0 then []
    else if rows[0].pk == pk then DropPk(rows[1..], pk)
    else [rows[0]] + DropPk(rows[1..], pk)
  }

  /** The number of rows whose key is `pk`. */
  function CountPk(rows: seq<Record>, pk: string): nat {
    if |rows| == 0 then 0
    else (if rows[0].pk == pk then 1 else 0) + CountPk(rows[1..], pk)
  }

  /** Deleting a key removes exactly the rows that carry it. */
  lemma {:induction false} DropPkCount(rows: seq<Record>, pk: string)
    ensures |DropPk(rows, pk)| == |rows| - CountPk(rows, pk)
    ensures CountPk(DropPk(rows, pk), pk) == 0
  {
    if |rows| > 0 {
      DropPkCount(rows[1..], pk);
      if rows[0].pk != pk {
        assert ([rows[0]] + DropPk(rows[1..], pk))[1..] == DropPk(rows[1..], pk);
      }
    }
  }

  /** A key occurs among the rows exactly when some row carries it. */
  lemma {:induction false} CountPkPositive(rows: seq<Record>, pk: string)
    ensures CountPk(rows, pk) > 0 <==> exists x :: x in rows && x.pk == pk
  {
    if |rows| > 0 {
      CountPkPositive(rows[1..], pk);
      assert forall x :: x in rows <==> x == rows[0] || x in rows[1..];
    }
  }

  /** The filter of a bucket query: equality on the four bucket columns. */
  predicate InBucket(x: Record, user: string, main: string, sub: string, detail: string) {
    x.userName == user && x.mainCategory == main && x.subcategory == sub && x.detailCategory == detail
  }

  /**
   * The rows a bucket query returns: every stored row that passes the
   * filter, as many times as it is stored, in stored order (the order of
   * the query's result is taken to be insertion order).
   */
  function Bucket(rows: seq<Record>, user: string, main: string, sub: string, detail: string): (r: seq<Record>)
    ensures |r| <= |rows|
    ensures forall x :: x in r <==> x in rows && InBucket(x, user, main, sub, detail)
    ensures forall x :: multiset(r)[x] == if InBucket(x, user, main, sub, detail) then multiset(rows)[x] else 0
  {
    if |rows| == 0 then []
    else
      assert rows == [rows[0]] + rows[1..];
      if InBucket(rows[0], user, main, sub, detail) then [rows[0]] + Bucket(rows[1..], user, main, sub, detail)
      else Bucket(rows[1..], user, main, sub, detail)
  }

  /** A query over two runs of rows is the query over the first, then over the second. */
  lemma {:induction false} BucketConcat(a: seq<Record>, b: seq<Record>, user: string, main: string, sub: string, detail: string)
    ensures Bucket(a + b, user, main, sub, detail) == Bucket(a, user, main, sub, detail) + Bucket(b, user, main, sub, detail)
  {
    if |a| > 0 {
      assert (a + b)[0] == a[0] && (a + b)[1..] == a[1..] + b;
      BucketConcat(a[1..], b, user, main, sub, detail);
    } else {
      assert a + b == b;
    }
  }

  /**
   * Deleting a key that exactly one row of the bucket carries, and no row
   * outside it, shrinks the bucket by one.
   */
  lemma {:induction false} DropPkBucket(rows: seq<Record>, pk: string, user: string, main: string, sub: string, detail: string)
    requires CountPk(rows, pk) == 1
    requires forall x :: x in rows && x.pk == pk ==> InBucket(x, user, main, sub, detail)
    ensures |Bucket(DropPk(rows, pk), user, main, sub, detail)| + 1 == |Bucket(rows, user, main, sub, detail)|
  {
    if rows[0].pk == pk {
      assert CountPk(rows[1..], pk) == 0;
      DropPkNone(rows[1..], pk);
    } else {
      assert rows[0] in rows;
      DropPkBucket(rows[1..], pk, user, main, sub, detail);
    }
  }

  /** Deleting a key no row carries changes nothing. */
  lemma {:induction false} DropPkNone(rows: seq<Record>, pk: string)
    requires CountPk(rows, pk) == 0
    ensures DropPk(rows, pk) == rows
  {
    if |rows| > 0 {
      DropPkNone(rows[1..], pk);
      assert rows == [rows[0]] + rows[1..];
    }
  }

  /** The collection: its rows, which inserts and deletes replace. */
  class Store {
    var rows: seq<Record>

    constructor (initial: seq<Record>)
      ensures rows == initial
    {
      rows := initial;
    }

    /** Adds one row at the end; nothing else changes. */
    method Insert(x: Record)
      modifies this
      ensures rows == old(rows) + [x]
    {
      rows := rows + [x];
    }

    /** Removes every row whose key is `pk`; the others keep their order. */
    method Delete(pk: string)
      modifies this
      ensures rows == DropPk(old(rows), pk)
    {
      rows := DropPk(rows, pk);
    }
  }
}
