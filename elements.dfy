/** The element functions of vyxal/elements.py: `add` (+), `subtract` (-) and
    `log_mold_multi` (•). Each looks up the tag pair of its operands in a
    table of closed-form rules; a pair missing from the table falls back to
    `vectorise`.

    `depth` is how many nested fallbacks may still run before Python's
    recursion limit stops the evaluation with a RecursionError; each fallback
    uses one. A rule from the table never consumes depth. */
module Elements {
  import opened Values
  import opened Text
  import opened Vectorisation

  /** `mold` and `transfer_capitalisation`, helpers whose code is not part of
      this model, supplied by the caller. */
  datatype Helpers = Helpers(
    mold: (Value, Value) -> Result<Value>,
    transferCapitalisation: (Value, Value) -> Result<Value>)

  /** `add` as a function value, as `vectorise` receives it. */
  function AddCallable(depth: nat): Callable
    decreases depth, 2
  {
    (args: seq<Value>, c: Option<Ctx>) =>
      if |args| == 2 then Add(args[0], args[1], c, depth) else Err(TypeError)
  }

  /** Element +: the sum of two numbers, the decimal text of a number joined
      to a string on either side, the concatenation of two strings; every
      other pair vectorises `add` over `lhs`, without passing the context. */
  function Add(lhs: Value, rhs: Value, ctx: Option<Ctx>, depth: nat): (r: Result<Value>)
    ensures lhs.Num? && rhs.Num? ==> r == Ok(Num(lhs.n + rhs.n))
    ensures lhs.Num? && rhs.Str? ==> r == Ok(Str(DecimalText(lhs.n) + rhs.s))
    ensures lhs.Str? && rhs.Num? ==> r == Ok(Str(lhs.s + DecimalText(rhs.n)))
    ensures lhs.Str? && rhs.Str? ==> r == Ok(Str(lhs.s + rhs.s))
    ensures !(IsScalar(lhs) && IsScalar(rhs)) ==> r == AddFallback(lhs, rhs, depth)
    decreases depth, 1
  {
    var ts := VyType(lhs, Some(rhs), false);
    if ts == Pair(NumberTag, NumberTag) then Ok(Num(lhs.n + rhs.n))
    else if ts == Pair(NumberTag, StrTag) then Ok(Str(DecimalText(lhs.n) + rhs.s))
    else if ts == Pair(StrTag, NumberTag) then Ok(Str(lhs.s + DecimalText(rhs.n)))
    else if ts == Pair(StrTag, StrTag) then Ok(Str(lhs.s + rhs.s))
    else AddFallback(lhs, rhs, depth)
  }

  /** The default of the table of +: `vectorise(add, lhs, rhs)`, which uses
      one level of depth and does not pass the context. */
  function AddFallback(lhs: Value, rhs: Value, depth: nat): (r: Result<Value>)
    ensures depth == 0 ==> r == Err(RecursionLimit)
    ensures lhs.Num? ==> r.Err?
    ensures r.Ok? ==> r.value.Lst?
    decreases depth, 0
  {
    if depth == 0 then Err(RecursionLimit)
    else Vectorise(AddCallable(depth - 1), lhs, Some(rhs), None, None)
  }

  /** Element -: the difference of two numbers, `lhs` dashes before a
      string, `rhs` dashes after a string, a string with every non-overlapping
      occurrence of another removed, leftmost first; every other pair vectorises `add` (not `subtract`)
      over `lhs`. */
  function Subtract(lhs: Value, rhs: Value, ctx: Option<Ctx>, depth: nat): (r: Result<Value>)
    ensures lhs.Num? && rhs.Num? ==> r == Ok(Num(lhs.n - rhs.n))
    ensures lhs.Num? && rhs.Str? ==> r == Ok(Str(Repeat('-', lhs.n) + rhs.s))
    ensures lhs.Str? && rhs.Num? ==> r == Ok(Str(lhs.s + Repeat('-', rhs.n)))
    ensures lhs.Str? && rhs.Str? ==> r == Ok(Str(RemoveAll(lhs.s, rhs.s)))
    ensures !(IsScalar(lhs) && IsScalar(rhs)) ==> r == AddFallback(lhs, rhs, depth)
  {
    var ts := VyType(lhs, Some(rhs), false);
    if ts == Pair(NumberTag, NumberTag) then Ok(Num(lhs.n - rhs.n))
    else if ts == Pair(NumberTag, StrTag) then Ok(Str(Repeat('-', lhs.n) + rhs.s))
    else if ts == Pair(StrTag, NumberTag) then Ok(Str(lhs.s + Repeat('-', rhs.n)))
    else if ts == Pair(StrTag, StrTag) then Ok(Str(RemoveAll(lhs.s, rhs.s)))
    else AddFallback(lhs, rhs, depth)
  }

  /** `log_mold_multi` as a function value. */
  function LogMoldMultiCallable(h: Helpers, depth: nat): Callable
    decreases depth, 2
  {
    (args: seq<Value>, c: Option<Ctx>) =>
      if |args| == 2 then LogMoldMulti(args[0], args[1], c, h, depth) else Err(TypeError)
  }

  /** Element •, with tags computed in simple mode (a LazyList counts as a
      list): each character of the string repeated by the number, whichever
      side the number is on; `transfer_capitalisation(rhs, lhs)` for two
      strings; `lhs` molded to `rhs` for two lists; every other pair
      vectorises `log_mold_multi` itself, passing the context on. */
  function LogMoldMulti(lhs: Value, rhs: Value, ctx: Option<Ctx>, h: Helpers, depth: nat)
    : (r: Result<Value>)
    ensures lhs.Num? && rhs.Num? ==> r == Err(Outside(FloatLog))
    ensures lhs.Num? && rhs.Str? ==> r == Ok(Str(RepeatEach(rhs.s, lhs.n)))
    ensures lhs.Str? && rhs.Num? ==> r == Ok(Str(RepeatEach(lhs.s, rhs.n)))
    ensures lhs.Str? && rhs.Str? ==> r == h.transferCapitalisation(rhs, lhs)
    ensures IsSequence(lhs) && IsSequence(rhs) ==> r == h.mold(lhs, rhs)
    ensures (IsSequence(lhs) != IsSequence(rhs)) ==> r == LogMoldMultiFallback(lhs, rhs, ctx, h, depth)
    decreases depth, 1
  {
    var ts := VyType(lhs, Some(rhs), true);
    if ts == Pair(NumberTag, NumberTag) then Err(Outside(FloatLog))
    else if ts == Pair(NumberTag, StrTag) then Ok(Str(RepeatEach(rhs.s, lhs.n)))
    else if ts == Pair(StrTag, NumberTag) then Ok(Str(RepeatEach(lhs.s, rhs.n)))
    else if ts == Pair(StrTag, StrTag) then h.transferCapitalisation(rhs, lhs)
    else if ts == Pair(ListTag, ListTag) then h.mold(lhs, rhs)
    else LogMoldMultiFallback(lhs, rhs, ctx, h, depth)
  }

  /** The default of the table of •: `vectorise(log_mold_multi, lhs, rhs,
      ctx=ctx)`, which uses one level of depth. */
  function LogMoldMultiFallback(lhs: Value, rhs: Value, ctx: Option<Ctx>, h: Helpers, depth: nat)
    : (r: Result<Value>)
    ensures depth == 0 ==> r == Err(RecursionLimit)
    ensures lhs.Num? ==> r.Err?
    ensures r.Ok? ==> r.value.Lst?
    decreases depth, 0
  {
    if depth == 0 then Err(RecursionLimit)
    else Vectorise(LogMoldMultiCallable(h, depth - 1), lhs, Some(rhs), None, ctx)
  }

  /** A list or LazyList on the left of + is mapped item by item: item i of
      the result is `add(lhs[i], rhs)`, with `rhs` passed whole (never
      iterated) and the context dropped. */
  lemma AddOverSequence(lhs: Value, rhs: Value, ctx: Option<Ctx>, depth: nat)
    requires IsSequence(lhs) && depth > 0
    ensures var r := Add(lhs, rhs, ctx, depth);
      (r.Ok? <==> forall i :: 0 <= i < |lhs.items| ==> Add(lhs.items[i], rhs, None, depth - 1).Ok?) &&
      (r.Ok? ==>
         r.value.Lst? && |r.value.items| == |lhs.items| &&
         forall i :: 0 <= i < |lhs.items| ==>
           Add(lhs.items[i], rhs, None, depth - 1) == Ok(r.value.items[i]))
  {
    var f := AddCallable(depth - 1);
    VectoriseOk(f, lhs, lhs.items, rhs, None);
    forall i | 0 <= i < |lhs.items|
      ensures f([lhs.items[i], rhs], None) == Add(lhs.items[i], rhs, None, depth - 1)
    {
      AddCallableApply(lhs.items[i], rhs, None, depth - 1);
    }
  }

  function Nums(ns: seq<int>): (r: seq<Value>)
    ensures |r| == |ns| && forall i :: 0 <= i < |ns| ==> r[i] == Num(ns[i])
  {
    seq(|ns|, i requires 0 <= i < |ns| => Num(ns[i]))
  }

  /** A number added to a list of numbers is added to every item, e.g.
      `add([1, 2], 5) == [6, 7]`. */
  lemma AddBroadcastsNumber(ns: seq<int>, k: int, ctx: Option<Ctx>, depth: nat)
    requires depth > 0
    ensures Add(Lst(Nums(ns)), Num(k), ctx, depth) ==
            Ok(Lst(Nums(seq(|ns|, i requires 0 <= i < |ns| => ns[i] + k))))
  {
    var xs := Nums(ns);
    var sums := Nums(seq(|ns|, i requires 0 <= i < |ns| => ns[i] + k));
    AddOverSequence(Lst(xs), Num(k), ctx, depth);
    forall i | 0 <= i < |xs|
      ensures Add(xs[i], Num(k), None, depth - 1) == Ok(sums[i])
    {
      assert xs[i] == Num(ns[i]) && sums[i] == Num(ns[i] + k);
    }
    var r := Add(Lst(xs), Num(k), ctx, depth);
    assert r.Ok?;
    assert |r.value.items| == |sums| && forall i :: 0 <= i < |sums| ==> r.value.items[i] == sums[i];
    assert r.value.items == sums;
  }

  /** A non-empty string added to a list never yields a value: the string is
      iterated into one-character strings, each of which meets the same list
      again and is iterated into itself, until the recursion limit is hit,
      however deep the limit. An empty string gives an empty list. */
  lemma {:induction false} AddStringToSequenceDiverges(s: string, rhs: Value, ctx: Option<Ctx>,
                                                       depth: nat)
    requires IsSequence(rhs)
    ensures Add(Str(s), rhs, ctx, depth) ==
            if depth > 0 && s == [] then Ok(Lst([])) else Err(RecursionLimit)
    decreases depth
  {
    if depth > 0 && s != [] {
      var items := Iterable(Str(s), None).value;
      AddStringToSequenceDiverges([s[0]], rhs, None, depth - 1);
      VectoriseFirstError(AddCallable(depth - 1), Str(s), items, rhs, None, 0);
    }
  }

  /** The depth bound only cuts evaluations short: once + yields a value at
      some depth, every greater depth yields the same value. */
  lemma {:induction false} AddDepthMonotone(lhs: Value, rhs: Value, ctx: Option<Ctx>,
                                            depth: nat, more: nat)
    requires depth <= more && Add(lhs, rhs, ctx, depth).Ok?
    ensures Add(lhs, rhs, ctx, more) == Add(lhs, rhs, ctx, depth)
    decreases depth, 1
  {
    if !(IsScalar(lhs) && IsScalar(rhs)) {
      ItemsDepthMonotone(lhs, Iterable(lhs, None).value, rhs, depth - 1, more - 1);
    }
  }

  lemma {:induction false} ItemsDepthMonotone(lhs: Value, items: seq<Value>, y: Value,
                                              depth: nat, more: nat)
    requires depth <= more && Iterable(lhs, None) == Ok(items)
    requires Vectorise(AddCallable(depth), lhs, Some(y), None, None).Ok?
    ensures Vectorise(AddCallable(more), lhs, Some(y), None, None) ==
            Vectorise(AddCallable(depth), lhs, Some(y), None, None)
    decreases depth, 2
  {
    VectoriseOk(AddCallable(depth), lhs, items, y, None);
    forall i | 0 <= i < |items|
      ensures AddCallable(depth)([items[i], y], None) == AddCallable(more)([items[i], y], None)
    {
      AddCallableApply(items[i], y, None, depth);
      AddCallableApply(items[i], y, None, more);
      AddDepthMonotone(items[i], y, None, depth, more);
    }
    VectoriseCongruent(AddCallable(depth), AddCallable(more), lhs, items, y, None);
  }

  lemma AddCallableApply(x: Value, y: Value, c: Option<Ctx>, depth: nat)
    ensures AddCallable(depth)([x, y], c) == Add(x, y, c, depth)
  {
  }

  /** Subtracting a number undoes adding it. */
  lemma AddSubtractInverse(a: int, b: int, ctx: Option<Ctx>, depth: nat)
    ensures Add(Num(a), Num(b), ctx, depth).Ok?
    ensures Subtract(Add(Num(a), Num(b), ctx, depth).value, Num(b), ctx, depth) == Ok(Num(a))
  {
  }

  /** The text + makes of a number and a string keeps both: the string is
      its suffix, and the rest reads back as the number. */
  lemma AddNumberTextRoundTrip(n: int, t: string, ctx: Option<Ctx>, depth: nat)
    ensures var r := Add(Num(n), Str(t), ctx, depth);
      r.Ok? && r.value.Str? && |r.value.s| > |t| &&
      r.value.s[|r.value.s| - |t|..] == t &&
      ParseDecimal(r.value.s[..|r.value.s| - |t|]) == Some(n)
  {
    var u := DecimalText(n) + t;
    assert u[..|u| - |t|] == DecimalText(n);
    DecimalRoundTrip(n);
  }

  /** The same for a string followed by a number. */
  lemma AddTextNumberRoundTrip(t: string, n: int, ctx: Option<Ctx>, depth: nat)
    ensures var r := Add(Str(t), Num(n), ctx, depth);
      r.Ok? && r.value.Str? && r.value.s[..|t|] == t &&
      ParseDecimal(r.value.s[|t|..]) == Some(n)
  {
    var u := t + DecimalText(n);
    assert u[|t|..] == DecimalText(n);
    DecimalRoundTrip(n);
  }

  /** Every pair that is not two scalars is handled by - exactly as by +,
      because the fallback of `subtract` vectorises `add`. */
  lemma SubtractFallbackIsAdd(lhs: Value, rhs: Value, ctx: Option<Ctx>, depth: nat)
    requires !(IsScalar(lhs) && IsScalar(rhs))
    ensures Subtract(lhs, rhs, ctx, depth) == Add(lhs, rhs, ctx, depth)
  {
  }

  /** Hence subtracting a number from a list of numbers adds it to every
      item: `subtract([5], 3) == [8]`. */
  lemma SubtractListAddsNumber(ns: seq<int>, k: int, ctx: Option<Ctx>, depth: nat)
    requires depth > 0
    ensures Subtract(Lst(Nums(ns)), Num(k), ctx, depth) ==
            Ok(Lst(Nums(seq(|ns|, i requires 0 <= i < |ns| => ns[i] + k))))
  {
    AddBroadcastsNumber(ns, k, ctx, depth);
  }

  /** A number and a string give `max(n, 0)` dashes on the number's side of
      the string. */
  lemma SubtractDashes(n: int, t: string, ctx: Option<Ctx>, depth: nat)
    ensures var d := if n < 0 then 0 else n;
      var left := Subtract(Num(n), Str(t), ctx, depth).value.s;
      var right := Subtract(Str(t), Num(n), ctx, depth).value.s;
      |left| == d + |t| && left[d..] == t && (forall i :: 0 <= i < d ==> left[i] == '-') &&
      |right| == |t| + d && right[..|t|] == t && (forall i :: |t| <= i < |t| + d ==> right[i] == '-')
  {
  }

  /** Removing one string from another changes it exactly when the removed
      string is non-empty and occurs in it, and then shortens it. */
  lemma SubtractTextChangesIff(a: string, b: string, ctx: Option<Ctx>, depth: nat)
    ensures var r := Subtract(Str(a), Str(b), ctx, depth).value.s;
      (r == a <==> b == [] || !IsInfix(b, a)) && |r| <= |a| &&
      (b != [] && IsInfix(b, a) ==> |r| < |a|)
  {
    RemoveAllChangesIff(a, b);
  }

  /** `subtract` as evidently intended: the same table for two scalars, and
      every other pair vectorising `subtract` itself rather than `add`. */
  function SubtractVectorised(lhs: Value, rhs: Value, ctx: Option<Ctx>, depth: nat)
    : (r: Result<Value>)
    ensures IsScalar(lhs) && IsScalar(rhs) ==> r == Subtract(lhs, rhs, ctx, depth)
    ensures !(IsScalar(lhs) && IsScalar(rhs)) ==> r == SubtractFallback(lhs, rhs, depth)
    decreases depth, 1
  {
    if IsScalar(lhs) && IsScalar(rhs) then Subtract(lhs, rhs, ctx, depth)
    else SubtractFallback(lhs, rhs, depth)
  }

  /** `vectorise(subtract, lhs, rhs)`. */
  function SubtractFallback(lhs: Value, rhs: Value, depth: nat): (r: Result<Value>)
    ensures depth == 0 ==> r == Err(RecursionLimit)
    ensures lhs.Num? ==> r.Err?
    ensures r.Ok? ==> r.value.Lst?
    decreases depth, 0
  {
    if depth == 0 then Err(RecursionLimit)
    else Vectorise(SubtractCallable(depth - 1), lhs, Some(rhs), None, None)
  }

  function SubtractCallable(depth: nat): Callable
    decreases depth, 2
  {
    (args: seq<Value>, c: Option<Ctx>) =>
      if |args| == 2 then SubtractVectorised(args[0], args[1], c, depth) else Err(TypeError)
  }

  /** With the intended fallback, a number is subtracted from every item of a
      list of numbers. */
  lemma SubtractVectorisedBroadcasts(ns: seq<int>, k: int, ctx: Option<Ctx>, depth: nat)
    requires depth > 0
    ensures SubtractVectorised(Lst(Nums(ns)), Num(k), ctx, depth) ==
            Ok(Lst(Nums(seq(|ns|, i requires 0 <= i < |ns| => ns[i] - k))))
  {
    var xs := Nums(ns);
    var diffs := Nums(seq(|ns|, i requires 0 <= i < |ns| => ns[i] - k));
    var f := SubtractCallable(depth - 1);
    forall i | 0 <= i < |xs|
      ensures f([xs[i], Num(k)], None) == Ok(diffs[i])
    {
      assert xs[i] == Num(ns[i]) && diffs[i] == Num(ns[i] - k);
      assert f([xs[i], Num(k)], None) == SubtractVectorised(xs[i], Num(k), None, depth - 1);
    }
    VectoriseOk(f, Lst(xs), xs, Num(k), None);
    var r := SubtractVectorised(Lst(xs), Num(k), ctx, depth);
    assert r.Ok?;
    assert |r.value.items| == |diffs| && forall i :: 0 <= i < |diffs| ==> r.value.items[i] == diffs[i];
    assert r.value.items == diffs;
  }

  /** With the intended fallback, subtracting a number undoes adding it to a
      list of numbers. */
  lemma AddSubtractVectorisedInverse(ns: seq<int>, k: int, ctx: Option<Ctx>, depth: nat)
    requires depth > 0
    ensures Add(Lst(Nums(ns)), Num(k), ctx, depth).Ok?
    ensures SubtractVectorised(Add(Lst(Nums(ns)), Num(k), ctx, depth).value, Num(k), ctx, depth) ==
            Ok(Lst(Nums(ns)))
  {
    var sums := seq(|ns|, i requires 0 <= i < |ns| => ns[i] + k);
    AddBroadcastsNumber(ns, k, ctx, depth);
    SubtractVectorisedBroadcasts(sums, k, ctx, depth);
    assert seq(|sums|, i requires 0 <= i < |sums| => sums[i] - k) == ns;
  }

  /** The discrepancy on one input: `subtract([5], 3)` is `[8]` as written,
      `[2]` as intended. */
  lemma SubtractFallbackCounterexample()
    ensures Subtract(Lst([Num(5)]), Num(3), None, 1) == Ok(Lst([Num(8)]))
    ensures SubtractVectorised(Lst([Num(5)]), Num(3), None, 1) == Ok(Lst([Num(2)]))
  {
    SubtractListAddsNumber([5], 3, None, 1);
    SubtractVectorisedBroadcasts([5], 3, None, 1);
    assert Nums([5]) == [Num(5)];
    assert Nums(seq(1, i requires 0 <= i < 1 => [5][i] + 3)) == [Num(8)];
    assert Nums(seq(1, i requires 0 <= i < 1 => [5][i] - 3)) == [Num(2)];
  }

  /** The repetition rule of • does not depend on the side the number is
      on, for every number and every string. */
  lemma LogMoldMultiSymmetric(n: int, s: string, ctx: Option<Ctx>, h: Helpers, depth: nat)
    ensures LogMoldMulti(Num(n), Str(s), ctx, h, depth) == LogMoldMulti(Str(s), Num(n), ctx, h, depth)
  {
  }

  /** Each character is repeated `n` times in place: copy `j` of character
      `k` sits at `k * n + j`. */
  lemma LogMoldMultiRepeat(n: int, s: string, ctx: Option<Ctx>, h: Helpers, depth: nat,
                           k: int, j: int)
    requires 0 <= k < |s| && 0 <= j < n
    ensures var r := LogMoldMulti(Num(n), Str(s), ctx, h, depth).value.s;
      |r| == |s| * n && r[k * n + j] == s[k]
  {
    RepeatEachAt(s, n, k, j);
  }

  /** A list or LazyList on one side of • and a scalar on the other:
      `log_mold_multi` is vectorised over the left operand, with the context
      passed on to every call. With the operands swapped, a string on the
      left is iterated character by character; a number on the left is
      outside the model. */
  lemma LogMoldMultiOverSequence(lhs: Value, rhs: Value, ctx: Option<Ctx>, h: Helpers, depth: nat)
    requires IsSequence(lhs) && IsScalar(rhs) && depth > 0
    ensures var r := LogMoldMulti(lhs, rhs, ctx, h, depth);
      (r.Ok? <==> forall i :: 0 <= i < |lhs.items| ==>
                    LogMoldMulti(lhs.items[i], rhs, ctx, h, depth - 1).Ok?) &&
      (r.Ok? ==>
         r.value.Lst? && |r.value.items| == |lhs.items| &&
         forall i :: 0 <= i < |lhs.items| ==>
           LogMoldMulti(lhs.items[i], rhs, ctx, h, depth - 1) == Ok(r.value.items[i]))
    ensures LogMoldMulti(rhs, lhs, ctx, h, depth) ==
            if rhs.Num? then Err(Outside(NumberIteration))
            else if rhs.s == [] then Ok(Lst([])) else Err(RecursionLimit)
  {
    var f := LogMoldMultiCallable(h, depth - 1);
    VectoriseOk(f, lhs, lhs.items, rhs, ctx);
    forall i | 0 <= i < |lhs.items|
      ensures f([lhs.items[i], rhs], ctx) == LogMoldMulti(lhs.items[i], rhs, ctx, h, depth - 1)
    {
      LogMoldMultiCallableApply(lhs.items[i], rhs, ctx, h, depth - 1);
    }
    if rhs.Str? && rhs.s != [] {
      LogMoldMultiStringToSequenceDiverges(rhs.s, lhs, ctx, h, depth);
    }
  }

  lemma LogMoldMultiCallableApply(x: Value, y: Value, c: Option<Ctx>, h: Helpers, depth: nat)
    ensures LogMoldMultiCallable(h, depth)([x, y], c) == LogMoldMulti(x, y, c, h, depth)
  {
  }

  lemma {:induction false} LogMoldMultiStringToSequenceDiverges(s: string, rhs: Value,
      ctx: Option<Ctx>, h: Helpers, depth: nat)
    requires IsSequence(rhs) && s != []
    ensures LogMoldMulti(Str(s), rhs, ctx, h, depth) == Err(RecursionLimit)
    decreases depth
  {
    if depth > 0 {
      var items := Iterable(Str(s), ctx).value;
      LogMoldMultiStringToSequenceDiverges([s[0]], rhs, ctx, h, depth - 1);
      VectoriseFirstError(LogMoldMultiCallable(h, depth - 1), Str(s), items, rhs, ctx, 0);
    }
  }
}
