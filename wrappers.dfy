/** Option and Result values that stand in for Python's `None` and for raised exceptions. */
module Wrappers {

  datatype Option<T> = None | Some(value: T)

  /** Python exceptions the modelled code raises (or lets escape). */
  datatype Error =
    | KeyError(key: string)
    | ValueError(message: string)
    | TypeError(message: string)
    | IndexError(index: int)
    | UnboundLocalError(name: string)
    | AttributeError(name: string)
    | ZeroDivisionError
    /** `json.loads` of a text that is not JSON. */
    | JSONDecodeError

  datatype Result<T> = Ok(value: T) | Err(error: Error)

  /**
   * `[f(x) for x in xs]` where `f` may raise: the results in order, or the
   * first failure.
   */
  function MapResult<A, B>(xs: seq<A>, f: A -> Result<B>): (r: Result<seq<B>>)
    ensures r.Ok? ==> |r.value| == |xs|
    ensures r.Ok? <==> forall i :: 0 <= i < |xs| ==> f(xs[i]).Ok?
    ensures r.Ok? ==> forall i :: 0 <= i < |xs| ==> r.value[i] == f(xs[i]).value
  {
    if |xs| == 0 then Ok([])
    else
      match MapResult(xs[..|xs| - 1], f)
      case Err(e) => Err(e)
      case Ok(done) =>
        match f(xs[|xs| - 1])
        case Err(e) => Err(e)
        case Ok(y) => Ok(done + [y])
  }

  /** The map over a prefix, one element further. */
  lemma {:induction false} MapResultExtend<A, B>(xs: seq<A>, f: A -> Result<B>, i: nat, out: seq<B>)
    requires i < |xs| && MapResult(xs[..i], f) == Ok(out)
    ensures MapResult(xs[..i + 1], f) == match f(xs[i]) case Err(e) => Err(e) case Ok(y) => Ok(out + [y])
  {
    assert xs[..i + 1][..i] == xs[..i];
  }

  /** A failure on a prefix is the failure of the whole map. */
  lemma {:induction false} MapResultFailsEarly<A, B>(xs: seq<A>, f: A -> Result<B>, i: nat)
    requires i <= |xs| && MapResult(xs[..i], f).Err?
    ensures MapResult(xs, f) == MapResult(xs[..i], f)
    decreases |xs|
  {
    if i < |xs| {
      var init := xs[..|xs| - 1];
      assert init[..i] == xs[..i];
      MapResultFailsEarly(init, f, i);
    } else {
      assert xs[..i] == xs;
    }
  }

  /** The loop `for x in xs: ys.append(f(x))`, stopping at the first failure. */
  method MapEach<A, B>(xs: seq<A>, f: A -> Result<B>) returns (r: Result<seq<B>>)
    ensures r == MapResult(xs, f)
  {
    var out: seq<B> := [];
    for i := 0 to |xs|
      invariant MapResult(xs[..i], f) == Ok(out)
    {
      MapResultExtend(xs, f, i, out);
      var y := f(xs[i]);
      if y.Err? {
        MapResultFailsEarly(xs, f, i + 1);
        return Err(y.error);
      }
      out := out + [y.value];
    }
    assert xs[..|xs|] == xs;
    r := Ok(out);
  }

  /**
   * `for x in xs: ys.extend(f(x))` where `f` may raise: the results
   * concatenated in order, or the first failure.
   */
  function FlatMap<A, B>(xs: seq<A>, f: A -> Result<seq<B>>): Result<seq<B>>
  {
    if |xs| == 0 then Ok([])
    else
      match FlatMap(xs[..|xs| - 1], f)
      case Err(e) => Err(e)
      case Ok(done) =>
        match f(xs[|xs| - 1])
        case Err(e) => Err(e)
        case Ok(more) => Ok(done + more)
  }

  /** The flat map over a prefix, one element further. */
  lemma {:induction false} FlatMapExtend<A, B>(xs: seq<A>, f: A -> Result<seq<B>>, i: nat, out: seq<B>)
    requires i < |xs| && FlatMap(xs[..i], f) == Ok(out)
    ensures FlatMap(xs[..i + 1], f) == match f(xs[i]) case Err(e) => Err(e) case Ok(more) => Ok(out + more)
  {
    assert xs[..i + 1][..i] == xs[..i];
  }

  /** A failure on a prefix is the failure of the whole flat map. */
  lemma {:induction false} FlatMapFailsEarly<A, B>(xs: seq<A>, f: A -> Result<seq<B>>, i: nat)
    requires i <= |xs| && FlatMap(xs[..i], f).Err?
    ensures FlatMap(xs, f) == FlatMap(xs[..i], f)
    decreases |xs|
  {
    if i < |xs| {
      var init := xs[..|xs| - 1];
      assert init[..i] == xs[..i];
      FlatMapFailsEarly(init, f, i);
    } else {
      assert xs[..i] == xs;
    }
  }

  /** The flat map of a concatenation is the concatenation of the flat maps. */
  lemma {:induction false} FlatMapConcat<A, B>(xs: seq<A>, ys: seq<A>, f: A -> Result<seq<B>>)
    requires FlatMap(xs, f).Ok? && FlatMap(ys, f).Ok?
    ensures FlatMap(xs + ys, f) == Ok(FlatMap(xs, f).value + FlatMap(ys, f).value)
    decreases |ys|
  {
    if |ys| == 0 {
      assert xs + ys == xs;
      assert FlatMap(xs, f).value + [] == FlatMap(xs, f).value;
    } else {
      var init := ys[..|ys| - 1];
      assert (xs + ys)[..|xs + ys| - 1] == xs + init;
      assert (xs + ys)[|xs + ys| - 1] == ys[|ys| - 1];
      assert FlatMap(init, f).Ok? && f(ys[|ys| - 1]).Ok?;
      FlatMapConcat(xs, init, f);
      var a, b, c := FlatMap(xs, f).value, FlatMap(init, f).value, f(ys[|ys| - 1]).value;
      assert (a + b) + c == a + (b + c);
    }
  }
  /** Every element of a successful flat map comes from the call on one of the inputs. */
  lemma {:induction false} FlatMapMember<A, B>(xs: seq<A>, f: A -> Result<seq<B>>, y: B)
    requires FlatMap(xs, f).Ok? && y in FlatMap(xs, f).value
    ensures exists i :: 0 <= i < |xs| && f(xs[i]).Ok? && y in f(xs[i]).value
    decreases |xs|
  {
    var init := xs[..|xs| - 1];
    var last := xs[|xs| - 1];
    assert FlatMap(xs, f).value == FlatMap(init, f).value + f(last).value;
    if y in FlatMap(init, f).value {
      FlatMapMember(init, f, y);
      var i :| 0 <= i < |init| && f(init[i]).Ok? && y in f(init[i]).value;
      assert init[i] == xs[i];
    } else {
      assert f(xs[|xs| - 1]).Ok? && y in f(xs[|xs| - 1]).value;
    }
  }

  /** `[x] * n`: n copies of `x`. */
  function Repeat<T>(x: T, n: nat): (r: seq<T>)
    ensures |r| == n && forall i :: 0 <= i < n ==> r[i] == x
  {
    seq(n, _ => x)
  }

  /** The total of `n` over a sequence. */
  function Sum<A>(xs: seq<A>, n: A -> nat): nat {
    if |xs| == 0 then 0 else Sum(xs[..|xs| - 1], n) + n(xs[|xs| - 1])
  }

  /** When each call yields `n` of its input elements, the flat map yields their total. */
  lemma {:induction false} FlatMapLength<A, B>(xs: seq<A>, f: A -> Result<seq<B>>, n: A -> nat)
    requires FlatMap(xs, f).Ok?
    requires forall i :: 0 <= i < |xs| && f(xs[i]).Ok? ==> |f(xs[i]).value| == n(xs[i])
    ensures |FlatMap(xs, f).value| == Sum(xs, n)
    decreases |xs|
  {
    if |xs| > 0 {
      var init := xs[..|xs| - 1];
      assert forall i :: 0 <= i < |init| ==> init[i] == xs[i];
      FlatMapLength(init, f, n);
    }
  }
}
