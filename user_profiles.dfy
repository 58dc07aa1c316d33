/**
 * Sampling user profiles from the category table: multiple-possible (MP)
 * rows are expanded into one row per comma-separated attribute; each
 * profile drops the rows of one fuel type (gas or charging station),
 * draws a fixed number of distinct rows, keeps them in table order, and
 * narrows every multiple-not-possible (MNP) row to one of its options;
 * the sampled row indices and detail categories are counted across all
 * profiles. The random draws are parameters; the sampling weights (which
 * make every detail category equally likely) are not modelled.
 */
module UserProfiles {
  import opened Wrappers
  import opened Strings
  import EC = ExtractionConversations

  /** One row of the category table. */
  datatype CategoryRow = CategoryRow(main: string, sub: string, detail: string, attributes: string, kind: string)

  // --------------------------------------------------------- expansion

  /** The rows `expand_row_if_mp` yields. */
  function Expanded(row: CategoryRow): seq<CategoryRow> {
    if row.kind == "MP" then
      var pieces := Split(row.attributes, ",");
      seq(|pieces|, i requires 0 <= i < |pieces| => row.(attributes := Strip(pieces[i])))
    else [row]
  }

  /**
   * `expand_row_if_mp`: an MP row with k comma pieces becomes k copies,
   * the i-th carrying the i-th piece stripped as its attributes; any other
   * row stays as it is.
   */
  method ExpandRowIfMp(row: CategoryRow) returns (rows: seq<CategoryRow>)
    ensures row.kind == "MP" ==> |rows| == |Split(row.attributes, ",")|
    ensures row.kind == "MP" ==>
      forall i :: 0 <= i < |rows| ==> rows[i] == row.(attributes := Strip(Split(row.attributes, ",")[i]))
    ensures row.kind != "MP" ==> rows == [row]
    ensures rows == Expanded(row)
  {
    if row.kind == "MP" {
      var attributes := Split(row.attributes, ",");
      ghost var want := Expanded(row);
      rows := [];
      for i := 0 to |attributes|
        invariant |rows| == i && forall k :: 0 <= k < i ==> rows[k] == row
      {
        rows := rows + [row];
      }
      for i := 0 to |attributes|
        invariant |rows| == |attributes| == |want|
        invariant forall k :: 0 <= k < i ==> rows[k] == want[k]
        invariant forall k :: i <= k < |rows| ==> rows[k] == row
      {
        rows := rows[i := rows[i].(attributes := Strip(attributes[i]))];
      }
      assert rows == want;
    } else {
      rows := [row];
    }
  }

  /** The expanded table: the expansions of the rows, in table order. */
  function ExpandAll(rows: seq<CategoryRow>): seq<CategoryRow> {
    if |rows| == 0 then [] else ExpandAll(rows[..|rows| - 1]) + Expanded(rows[|rows| - 1])
  }

  /** The loop extending `expanded_data` row by row. */
  method ExpandCategories(rows: seq<CategoryRow>) returns (expanded: seq<CategoryRow>)
    ensures expanded == ExpandAll(rows)
  {
    expanded := [];
    for i := 0 to |rows|
      invariant expanded == ExpandAll(rows[..i])
    {
      assert rows[..i + 1][..i] == rows[..i];
      var more := ExpandRowIfMp(rows[i]);
      expanded := expanded + more;
    }
    assert rows[..|rows|] == rows;
  }

  /** Every expanded row keeps the categories and type of a table row. */
  lemma {:induction false} ExpandedOrigin(rows: seq<CategoryRow>, k: nat)
    requires k < |ExpandAll(rows)|
    ensures exists i :: 0 <= i < |rows| && ExpandAll(rows)[k] == rows[i].(attributes := ExpandAll(rows)[k].attributes)
    decreases |rows|
  {
    var init := rows[..|rows| - 1];
    var last := rows[|rows| - 1];
    if k < |ExpandAll(init)| {
      ExpandedOrigin(init, k);
      var i :| 0 <= i < |init| && ExpandAll(init)[k] == init[i].(attributes := ExpandAll(init)[k].attributes);
      assert rows[i] == init[i];
    } else {
      assert ExpandAll(rows)[k] == Expanded(last)[k - |ExpandAll(init)|];
    }
  }

  // ----------------------------------------------------------- sampling

  /** The subcategories one of which each profile leaves out. */
  const FuelTypes: seq<string> := ["Gas Station Preferences", "Charging Station Preferences"]

  /** The raw draws behind one profile: the fuel type, the rows, the MNP options. */
  datatype ProfileDraws = ProfileDraws(fuel: nat, picks: nat -> nat, options: nat -> nat)

  function FuelOf(d: ProfileDraws): string {
    EC.Choice(FuelTypes, d.fuel)
  }

  predicate Increasing(xs: seq<nat>) {
    forall i, j :: 0 <= i < j < |xs| ==> xs[i] < xs[j]
  }

  /** Rows sorted by their table index. */
  predicate SortedByIndex(xs: seq<(nat, CategoryRow)>) {
    forall i, j :: 0 <= i < j < |xs| ==> xs[i].0 < xs[j].0
  }

  /** The indices of the rows whose subcategory is not the fuel type left out, in order. */
  function Eligible(rows: seq<CategoryRow>, fuel: string): (r: seq<nat>)
    ensures forall k :: 0 <= k < |r| ==> r[k] < |rows| && rows[r[k]].sub != fuel
    ensures forall i :: 0 <= i < |rows| && rows[i].sub != fuel ==> i in r
    ensures Increasing(r)
  {
    if |rows| == 0 then []
    else
      var init := Eligible(rows[..|rows| - 1], fuel);
      if rows[|rows| - 1].sub != fuel then init + [|rows| - 1] else init
  }

  function Elements(xs: seq<nat>): set<nat> {
    set x | x in xs
  }

  /**
   * `df.sample(n, replace=False)`: `n` distinct indices of the pool, each
   * draw taking one of the indices still left; more than the pool holds
   * raises ValueError.
   */
  method DrawWithoutReplacement(pool: seq<nat>, n: nat, pick: nat -> nat) returns (r: Result<set<nat>>)
    requires Increasing(pool)
    ensures r.Err? <==> n > |pool|
    ensures r.Ok? ==> |r.value| == n && r.value <= Elements(pool)
  {
    if n > |pool| {
      return Err(ValueError("Cannot take a larger sample than population when 'replace=False'"));
    }
    var remaining := pool;
    var chosen: set<nat> := {};
    for i := 0 to n
      invariant |remaining| == |pool| - i && |chosen| == i
      invariant Distinct(remaining)
      invariant chosen + Elements(remaining) == Elements(pool)
      invariant chosen !! Elements(remaining)
    {
      var k := pick(i) % |remaining|;
      var x := remaining[k];
      var rest := remaining[..k] + remaining[k + 1..];
      DrawStep(pool, chosen, remaining, k);
      chosen := chosen + {x};
      remaining := rest;
    }
    r := Ok(chosen);
  }

  /** No index occurs twice. */
  predicate Distinct(xs: seq<nat>) {
    forall a, b :: 0 <= a < b < |xs| ==> xs[a] != xs[b]
  }

  /** Taking one index out of distinct indices leaves the others, still distinct. */
  lemma {:induction false} RemoveAt(xs: seq<nat>, k: nat)
    requires k < |xs| && Distinct(xs)
    ensures var rest := xs[..k] + xs[k + 1..];
      && |rest| == |xs| - 1
      && Distinct(rest)
      && Elements(rest) == Elements(xs) - {xs[k]}
  {
    var rest := xs[..k] + xs[k + 1..];
    assert forall j :: 0 <= j < |rest| ==> rest[j] == if j < k then xs[j] else xs[j + 1];
  }

  /** One draw moves an index from the remaining ones to the chosen ones. */
  lemma {:induction false} DrawStep(pool: seq<nat>, chosen: set<nat>, remaining: seq<nat>, k: nat)
    requires k < |remaining| && Distinct(remaining)
    requires chosen + Elements(remaining) == Elements(pool) && chosen !! Elements(remaining)
    ensures var rest := remaining[..k] + remaining[k + 1..];
      && |rest| == |remaining| - 1 && Distinct(rest)
      && (chosen + {remaining[k]}) + Elements(rest) == Elements(pool)
      && (chosen + {remaining[k]}) !! Elements(rest)
      && |chosen + {remaining[k]}| == |chosen| + 1
  {
    RemoveAt(remaining, k);
    assert remaining[k] in Elements(remaining);
  }

  /** The rows of the pool whose index was drawn, in pool order, with their indices. */
  function Select(rows: seq<CategoryRow>, pool: seq<nat>, chosen: set<nat>): (r: seq<(nat, CategoryRow)>)
    requires forall k :: 0 <= k < |pool| ==> pool[k] < |rows|
    ensures forall k :: 0 <= k < |r| ==> r[k].0 in chosen && r[k].0 in pool && r[k].1 == rows[r[k].0]
    ensures Increasing(pool) ==> SortedByIndex(r)
  {
    if |pool| == 0 then []
    else
      var x := pool[|pool| - 1];
      var init := Select(rows, pool[..|pool| - 1], chosen);
      assert Increasing(pool) ==> forall k :: 0 <= k < |init| ==> init[k].0 < x;
      if x in chosen then init + [(x, rows[x])] else init
  }

  /** Selecting from distinct indices yields one row per drawn index. */
  lemma {:induction false} SelectSize(rows: seq<CategoryRow>, pool: seq<nat>, chosen: set<nat>)
    requires forall k :: 0 <= k < |pool| ==> pool[k] < |rows|
    requires Increasing(pool)
    ensures |Select(rows, pool, chosen)| == |chosen * Elements(pool)|
  {
    if |pool| > 0 {
      var init := pool[..|pool| - 1];
      var x := pool[|pool| - 1];
      SelectSize(rows, init, chosen);
      assert Select(rows, pool, chosen) == if x in chosen then Select(rows, init, chosen) + [(x, rows[x])] else Select(rows, init, chosen);
      LastNew(pool);
      assert pool == init + [x];
      DrawnCount(chosen, init, x);
    }
  }

  /** One more pool index adds one to the drawn indices in the pool exactly when it was drawn. */
  lemma {:induction false} DrawnCount(chosen: set<nat>, init: seq<nat>, x: nat)
    requires x !in init
    ensures |chosen * Elements(init + [x])| == |chosen * Elements(init)| + if x in chosen then 1 else 0
  {
    ElementsSnoc(init, x);
    var before := chosen * Elements(init);
    assert x !in before;
    if x in chosen {
      assert chosen * Elements(init + [x]) == before + {x};
    } else {
      assert chosen * Elements(init + [x]) == before;
    }
  }

  /** The last index of an increasing sequence appears nowhere before it. */
  lemma {:induction false} LastNew(xs: seq<nat>)
    requires |xs| > 0 && Increasing(xs)
    ensures xs[|xs| - 1] !in xs[..|xs| - 1]
  {
    var init := xs[..|xs| - 1];
    forall k | 0 <= k < |init| ensures init[k] != xs[|xs| - 1] {
      assert init[k] == xs[k] < xs[|xs| - 1];
    }
  }

  /** The elements of a sequence extended by one index. */
  lemma {:induction false} ElementsSnoc(xs: seq<nat>, x: nat)
    ensures Elements(xs + [x]) == Elements(xs) + {x}
  {
  }

  /** The loop narrowing every MNP row to one of its ", "-separated options. */
  method ChooseMnpAttributes(sampled: seq<(nat, CategoryRow)>, pick: nat -> nat) returns (r: seq<(nat, CategoryRow)>)
    ensures |r| == |sampled|
    ensures forall k :: 0 <= k < |r| ==> r[k].0 == sampled[k].0 && r[k].1 == sampled[k].1.(attributes := r[k].1.attributes)
    ensures forall k :: 0 <= k < |r| && sampled[k].1.kind == "MNP" ==> r[k].1.attributes in Split(sampled[k].1.attributes, ", ")
    ensures forall k :: 0 <= k < |r| && sampled[k].1.kind != "MNP" ==> r[k] == sampled[k]
  {
    r := sampled;
    for k := 0 to |r|
      invariant |r| == |sampled|
      invariant forall j :: 0 <= j < |r| ==> r[j].0 == sampled[j].0 && r[j].1 == sampled[j].1.(attributes := r[j].1.attributes)
      invariant forall j :: 0 <= j < k && sampled[j].1.kind == "MNP" ==> r[j].1.attributes in Split(sampled[j].1.attributes, ", ")
      invariant forall j :: 0 <= j < |r| && (k <= j || sampled[j].1.kind != "MNP") ==> r[j] == sampled[j]
    {
      if r[k].1.kind == "MNP" {
        var option := EC.Choice(Split(r[k].1.attributes, ", "), pick(k));
        r := r[k := (r[k].0, r[k].1.(attributes := option))];
      }
    }
  }

  /** What a sampled profile promises about the expanded table it was drawn from. */
  predicate ProfileOf(expanded: seq<CategoryRow>, fuel: string, n: nat, profile: seq<(nat, CategoryRow)>) {
    && |profile| == n && SortedByIndex(profile)
    && forall k :: 0 <= k < |profile| ==>
      var (i, row) := profile[k];
      && i < |expanded| && expanded[i].sub != fuel
      && row == expanded[i].(attributes := row.attributes)
      && (expanded[i].kind == "MNP" ==> row.attributes in Split(expanded[i].attributes, ", "))
      && (expanded[i].kind != "MNP" ==> row == expanded[i])
  }

  /**
   * One profile: the rows of the chosen fuel type are dropped, `n`
   * distinct rows are drawn and sorted by index, and every MNP row gets
   * one of its options; more rows than are left raises ValueError.
   */
  method SampleProfile(expanded: seq<CategoryRow>, n: nat, d: ProfileDraws) returns (r: Result<seq<(nat, CategoryRow)>>)
    ensures r.Err? <==> n > |Eligible(expanded, FuelOf(d))|
    ensures r.Ok? ==> ProfileOf(expanded, FuelOf(d), n, r.value)
  {
    var fuel := EC.Choice(FuelTypes, d.fuel);
    var pool := Eligible(expanded, fuel);
    var drawn := DrawWithoutReplacement(pool, n, d.picks);
    if drawn.Err? {
      return Err(drawn.error);
    }
    var sampled := Select(expanded, pool, drawn.value);
    SelectSize(expanded, pool, drawn.value);
    assert drawn.value * Elements(pool) == drawn.value;
    var narrowed := ChooseMnpAttributes(sampled, d.options);
    r := Ok(narrowed);
  }

  // ----------------------------------------------------------- counting

  /** How often `k` occurs in `xs`. */
  function Occurrences<K(==)>(xs: seq<K>, k: K): nat {
    if |xs| == 0 then 0 else Occurrences(xs[..|xs| - 1], k) + (if xs[|xs| - 1] == k then 1 else 0)
  }

  /** A counter holding, for every key seen, how often it was seen. */
  ghost predicate Counts<K(!new)>(m: map<K, nat>, seen: seq<K>) {
    && (forall k :: k in m <==> k in seen)
    && (forall k :: k in m ==> m[k] == Occurrences(seen, k))
  }

  /** `if k in m: m[k] += 1 else: m[k] = 1`, for every key of `xs` in turn. */
  method CountInto<K(==,!new)>(m0: map<K, nat>, xs: seq<K>, ghost seen: seq<K>) returns (m: map<K, nat>)
    requires Counts(m0, seen)
    ensures Counts(m, seen + xs)
  {
    m := m0;
    assert seen + xs[..0] == seen;
    for i := 0 to |xs|
      invariant Counts(m, seen + xs[..i])
    {
      assert seen + xs[..i + 1] == (seen + xs[..i]) + [xs[i]];
      CountsStep(m, seen + xs[..i], xs[i]);
      if xs[i] in m {
        m := m[xs[i] := m[xs[i]] + 1];
      } else {
        m := m[xs[i] := 1];
      }
    }
    assert xs[..|xs|] == xs;
  }

  lemma {:induction false} OccurrencesAppend<K>(xs: seq<K>, x: K)
    ensures forall k :: Occurrences(xs + [x], k) == Occurrences(xs, k) + (if x == k then 1 else 0)
  {
    assert (xs + [x])[..|xs|] == xs;
  }

  /** One more key counted. */
  lemma {:induction false} CountsStep<K(!new)>(m: map<K, nat>, seen: seq<K>, x: K)
    requires Counts(m, seen)
    ensures x in m ==> Counts(m[x := m[x] + 1], seen + [x])
    ensures x !in m ==> Counts(m[x := 1], seen + [x])
  {
    OccurrencesAppend(seen, x);
    if x !in m {
      OccurrencesAbsent(seen, x);
    }
  }

  lemma {:induction false} OccurrencesAbsent<K>(xs: seq<K>, k: K)
    requires k !in xs
    ensures Occurrences(xs, k) == 0
  {
    if |xs| > 0 {
      OccurrencesAbsent(xs[..|xs| - 1], k);
    }
  }

  function Indices(profile: seq<(nat, CategoryRow)>): (r: seq<nat>)
    ensures |r| == |profile| && forall k :: 0 <= k < |r| ==> r[k] == profile[k].0
  {
    seq(|profile|, k requires 0 <= k < |profile| => profile[k].0)
  }

  function Details(profile: seq<(nat, CategoryRow)>): (r: seq<string>)
    ensures |r| == |profile| && forall k :: 0 <= k < |r| ==> r[k] == profile[k].1.detail
  {
    seq(|profile|, k requires 0 <= k < |profile| => profile[k].1.detail)
  }

  /** The detail categories of all profiles, profile after profile. */
  function AllDetails(profiles: seq<seq<(nat, CategoryRow)>>): seq<string> {
    if |profiles| == 0 then [] else AllDetails(profiles[..|profiles| - 1]) + Details(profiles[|profiles| - 1])
  }

  /** The row indices of all profiles, profile after profile. */
  function AllIndices(profiles: seq<seq<(nat, CategoryRow)>>): seq<nat> {
    if |profiles| == 0 then [] else AllIndices(profiles[..|profiles| - 1]) + Indices(profiles[|profiles| - 1])
  }

  /** The sampler's results: the profiles and the two counters. */
  datatype Sampled = Sampled(profiles: seq<seq<(nat, CategoryRow)>>, sampledIndices: map<nat, nat>, sampledCategories: map<string, nat>)

  /**
   * `sample_user_profiles` over the category table: `count` profiles of
   * `n` rows each, profile `j` drawn with `draws(j)`, with the number of
   * times each row index and each detail category was sampled.
   */
  method SampleUserProfiles(categories: seq<CategoryRow>, count: nat, n: nat, draws: nat -> ProfileDraws)
    returns (r: Result<Sampled>)
    ensures r.Ok? ==> |r.value.profiles| == count
    ensures r.Ok? ==> forall j :: 0 <= j < count ==>
      ProfileOf(ExpandAll(categories), FuelOf(draws(j)), n, r.value.profiles[j])
    ensures r.Ok? ==> Counts(r.value.sampledCategories, AllDetails(r.value.profiles))
    ensures r.Ok? ==> Counts(r.value.sampledIndices, AllIndices(r.value.profiles))
    ensures r.Err? ==> exists j :: 0 <= j < count && n > |Eligible(ExpandAll(categories), FuelOf(draws(j)))|
  {
    var expanded := ExpandCategories(categories);
    var profiles: seq<seq<(nat, CategoryRow)>> := [];
    var indices: map<nat, nat> := map[];
    var details: map<string, nat> := map[];
    for j := 0 to count
      invariant |profiles| == j
      invariant forall p :: 0 <= p < j ==> ProfileOf(expanded, FuelOf(draws(p)), n, profiles[p])
      invariant Counts(details, AllDetails(profiles))
      invariant Counts(indices, AllIndices(profiles))
    {
      var profile := SampleProfile(expanded, n, draws(j));
      if profile.Err? {
        return Err(profile.error);
      }
      assert (profiles + [profile.value])[..j] == profiles;
      indices := CountInto(indices, Indices(profile.value), AllIndices(profiles));
      details := CountInto(details, Details(profile.value), AllDetails(profiles));
      profiles := profiles + [profile.value];
    }
    r := Ok(Sampled(profiles, indices, details));
  }

  /** A detail category counted in one profile is counted at least that often in total. */
  lemma {:induction false} CategoryCountCoversProfile(profiles: seq<seq<(nat, CategoryRow)>>, j: nat, c: string)
    requires j < |profiles|
    ensures Occurrences(AllDetails(profiles), c) >= Occurrences(Details(profiles[j]), c)
    decreases |profiles|
  {
    var init := profiles[..|profiles| - 1];
    OccurrencesConcat(AllDetails(init), Details(profiles[|profiles| - 1]), c);
    if j < |init| {
      assert init[j] == profiles[j];
      CategoryCountCoversProfile(init, j, c);
    }
  }

  lemma {:induction false} OccurrencesConcat<K>(xs: seq<K>, ys: seq<K>, k: K)
    ensures Occurrences(xs + ys, k) == Occurrences(xs, k) + Occurrences(ys, k)
    decreases |ys|
  {
    if |ys| > 0 {
      assert (xs + ys)[..|xs + ys| - 1] == xs + ys[..|ys| - 1];
      OccurrencesConcat(xs, ys[..|ys| - 1], k);
    } else {
      assert xs + ys == xs;
    }
  }
}
