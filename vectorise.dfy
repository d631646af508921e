/** `vectorise` of vyxal/elements.py: map a function over the items of its
    left operand, passing the right operand unchanged to every call. */
module Vectorisation {
  import opened Values

  /** A function as `safe_apply` calls it: its positional arguments, then the
      context appended. */
  type Callable = (seq<Value>, Option<Ctx>) -> Result<Value>

  /** What `iterable(v, ctx)` yields for the values modelled here: a list or
      LazyList yields its items, a string its characters as one-character
      strings. How a number is iterated is not modelled. */
  function Iterable(v: Value, ctx: Option<Ctx>): (r: Result<seq<Value>>)
    ensures r.Err? <==> v.Num?
    ensures IsSequence(v) ==> r == Ok(v.items)
    ensures v.Str? ==> |r.value| == |v.s|
    ensures v.Str? ==> forall i :: 0 <= i < |v.s| ==> r.value[i] == Str([v.s[i]])
  {
    match v
    case Num(_) => Err(Outside(NumberIteration))
    case Str(s) => Ok(seq(|s|, i requires 0 <= i < |s| => Str([s[i]])))
    case Lst(xs) => Ok(xs)
    case Lazy(xs) => Ok(xs)
  }

  /** `list(f())` over the generator `for item in items: yield
      safe_apply(function, item, *extra, ctx)`: the calls run in order and
      the first one that fails ends the whole evaluation with its error.
      Item i of a result is what the call on item i yields; whether there
      is a result at all is stated by MapApplyOk, which error it is by
      MapApplyFirstError. */
  function MapApply(f: Callable, items: seq<Value>, extra: seq<Value>, ctx: Option<Ctx>)
    : (r: Result<seq<Value>>)
    ensures r.Ok? ==> |r.value| == |items|
    ensures r.Ok? ==> forall i :: 0 <= i < |items| ==> f([items[i]] + extra, ctx) == Ok(r.value[i])
    ensures items == [] ==> r == Ok([])
  {
    if items == [] then Ok([])
    else
      match f([items[0]] + extra, ctx)
      case Err(e) => Err(e)
      case Ok(y) =>
        match MapApply(f, items[1..], extra, ctx)
        case Err(e) => Err(e)
        case Ok(ys) =>
          assert forall j :: 1 <= j < |items| ==> items[1..][j - 1] == items[j];
          Ok([y] + ys)
  }

  /** The evaluation yields a list exactly when every call succeeds. */
  lemma {:induction false} MapApplyOk(f: Callable, items: seq<Value>, extra: seq<Value>,
                                      ctx: Option<Ctx>)
    ensures MapApply(f, items, extra, ctx).Ok? <==>
            forall i :: 0 <= i < |items| ==> f([items[i]] + extra, ctx).Ok?
  {
    if items != [] {
      MapApplyOk(f, items[1..], extra, ctx);
      assert forall j :: 1 <= j < |items| ==> items[1..][j - 1] == items[j];
    }
  }

  /** When the call on item `k` is the first that fails, its error is the
      result: the later items are never evaluated. */
  lemma {:induction false} MapApplyFirstError(f: Callable, items: seq<Value>, extra: seq<Value>,
                                              ctx: Option<Ctx>, k: nat)
    requires k < |items| && f([items[k]] + extra, ctx).Err?
    requires forall j :: 0 <= j < k ==> f([items[j]] + extra, ctx).Ok?
    ensures MapApply(f, items, extra, ctx) == Err(f([items[k]] + extra, ctx).error)
  {
    if k > 0 {
      assert f([items[0]] + extra, ctx).Ok?;
      assert forall j :: 0 <= j < k - 1 ==> items[1..][j] == items[j + 1];
      MapApplyFirstError(f, items[1..], extra, ctx, k - 1);
    }
  }

  /** `vectorise(function, lhs, rhs, other, ctx=ctx)`. Which branch runs is
      fixed by which operands are present: `other` gives the three-argument
      form, otherwise `rhs` the two-argument form, otherwise the one-argument
      form. Only `lhs` is iterated; the result is a plain list. */
  function Vectorise(f: Callable, lhs: Value, rhs: Option<Value>, other: Option<Value>,
                     ctx: Option<Ctx>): (r: Result<Value>)
    ensures other.Some? ==> r == Err(Outside(TernaryVectorise))
    ensures other.None? && lhs.Num? ==> r == Err(Outside(NumberIteration))
    ensures r.Ok? ==> r.value.Lst?
    // two-argument form over a list: item i is f(lhs[i], rhs)
    ensures other.None? && rhs.Some? && IsSequence(lhs) && r.Ok? ==>
      |r.value.items| == |lhs.items| &&
      forall i :: 0 <= i < |lhs.items| ==> f([lhs.items[i], rhs.value], ctx) == Ok(r.value.items[i])
    // one-argument form over a list: item i is f(lhs[i])
    ensures other.None? && rhs.None? && IsSequence(lhs) && r.Ok? ==>
      |r.value.items| == |lhs.items| &&
      forall i :: 0 <= i < |lhs.items| ==> f([lhs.items[i]], ctx) == Ok(r.value.items[i])
  {
    if other.Some? then
      Err(Outside(TernaryVectorise))
    else
      var extra := if rhs.Some? then [rhs.value] else [];
      match Iterable(lhs, ctx)
      case Err(e) => Err(e)
      case Ok(items) =>
        assert forall x :: [x] + extra == if rhs.Some? then [x, rhs.value] else [x];
        match MapApply(f, items, extra, ctx)
        case Err(e) => Err(e)
        case Ok(ys) => Ok(Lst(ys))
  }

  /** The two-argument form yields a list exactly when the call on every
      item of `lhs` succeeds. */
  lemma VectoriseOk(f: Callable, lhs: Value, items: seq<Value>, y: Value, ctx: Option<Ctx>)
    requires Iterable(lhs, ctx) == Ok(items)
    ensures Vectorise(f, lhs, Some(y), None, ctx).Ok? <==>
            forall i :: 0 <= i < |items| ==> f([items[i], y], ctx).Ok?
  {
    MapApplyOk(f, items, [y], ctx);
    assert forall i :: 0 <= i < |items| ==> [items[i]] + [y] == [items[i], y];
  }

  /** The same for the one-argument form. */
  lemma VectoriseUnaryOk(f: Callable, lhs: Value, items: seq<Value>, ctx: Option<Ctx>)
    requires Iterable(lhs, ctx) == Ok(items)
    ensures Vectorise(f, lhs, None, None, ctx).Ok? <==>
            forall i :: 0 <= i < |items| ==> f([items[i]], ctx).Ok?
  {
    MapApplyOk(f, items, [], ctx);
    assert forall i :: 0 <= i < |items| ==> [items[i]] + [] == [items[i]];
  }

  /** When a call fails, vectorising fails with the error of the first item
      whose call fails; no partial list is returned. */
  lemma VectoriseFirstError(f: Callable, lhs: Value, items: seq<Value>, y: Value,
                            ctx: Option<Ctx>, k: nat)
    requires Iterable(lhs, ctx) == Ok(items)
    requires k < |items| && f([items[k], y], ctx).Err?
    requires forall j :: 0 <= j < k ==> f([items[j], y], ctx).Ok?
    ensures Vectorise(f, lhs, Some(y), None, ctx) == Err(f([items[k], y], ctx).error)
  {
    assert forall j :: 0 <= j < |items| ==> [items[j]] + [y] == [items[j], y];
    MapApplyFirstError(f, items, [y], ctx, k);
  }

  lemma {:induction false} MapApplyCongruent(f: Callable, g: Callable, items: seq<Value>,
                                             extra: seq<Value>, ctx: Option<Ctx>)
    requires forall i :: 0 <= i < |items| ==> f([items[i]] + extra, ctx) == g([items[i]] + extra, ctx)
    ensures MapApply(f, items, extra, ctx) == MapApply(g, items, extra, ctx)
  {
    if items != [] {
      assert forall j :: 1 <= j < |items| ==> items[1..][j - 1] == items[j];
      MapApplyCongruent(f, g, items[1..], extra, ctx);
    }
  }

  /** Two functions that agree on every call the two-argument form makes
      give the same vectorised result: only those calls matter. */
  lemma VectoriseCongruent(f: Callable, g: Callable, lhs: Value, items: seq<Value>, y: Value,
                           ctx: Option<Ctx>)
    requires Iterable(lhs, ctx) == Ok(items)
    requires forall i :: 0 <= i < |items| ==> f([items[i], y], ctx) == g([items[i], y], ctx)
    ensures Vectorise(f, lhs, Some(y), None, ctx) == Vectorise(g, lhs, Some(y), None, ctx)
  {
    assert forall i :: 0 <= i < |items| ==> [items[i]] + [y] == [items[i], y];
    MapApplyCongruent(f, g, items, [y], ctx);
  }

  /** A string on the left is iterated character by character. */
  lemma VectoriseOverString(f: Callable, s: string, y: Value, ctx: Option<Ctx>)
    ensures var r := Vectorise(f, Str(s), Some(y), None, ctx);
      (r.Ok? <==> forall i :: 0 <= i < |s| ==> f([Str([s[i]]), y], ctx).Ok?) &&
      (r.Ok? ==>
         |r.value.items| == |s| &&
         forall i :: 0 <= i < |s| ==> r.value.items[i] == f([Str([s[i]]), y], ctx).value)
  {
    var items := Iterable(Str(s), ctx).value;
    VectoriseOk(f, Str(s), items, y, ctx);
    assert forall i :: 0 <= i < |s| ==> [items[i]] + [y] == [Str([s[i]]), y];
  }
}
