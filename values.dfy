/** The runtime value domain of the element functions in vyxal/elements.py and
    the coarse type tag (`vy_type`) that keys every dispatch table. */
module Values {

  datatype Option<T> = None | Some(value: T)

  /** A runtime value. Numbers are integers only; `Lst` is a Python list and
      `Lazy` a (finite) LazyList, both holding their items in order. */
  datatype Value =
    | Num(n: int)
    | Str(s: string)
    | Lst(items: seq<Value>)
    | Lazy(items: seq<Value>)

  predicate IsScalar(v: Value) {
    v.Num? || v.Str?
  }

  predicate IsSequence(v: Value) {
    v.Lst? || v.Lazy?
  }

  /** The tags `vy_type` can return for the values above: the string
      `"number"`, or the host types `str`, `list` and `LazyList`. */
  datatype Tag = NumberTag | StrTag | ListTag | LazyListTag

  /** What `vy_type` returns: one tag, or the ordered pair of two tags. */
  datatype TypeKey = One(tag: Tag) | Pair(left: Tag, right: Tag)

  /** The execution context threaded through element calls. None of the
      modelled branches reads it; it is carried so that the calls pass it
      (or drop it) exactly where the source does. */
  datatype Ctx = Ctx(useTopInput: bool)

  /** Behaviour that lies outside this model. */
  datatype Gap =
    | FloatLog          // `math.log` of two numbers
    | NumberIteration   // `iterable` of a number, a helper not modelled
    | TernaryVectorise  // three-argument vectorisation through LazyList

  datatype Error =
    | RecursionLimit    // Python's RecursionError: nested vectorisation too deep
    | TypeError         // a callable applied to the wrong number of arguments
    | Outside(gap: Gap)

  datatype Result<T> = Ok(value: T) | Err(error: Error)

  /** `vy_type(item, other, simple)`: exactly the numbers are tagged
      "number"; a LazyList reads as `list` only in simple mode; every other
      value keeps its host type. With a second operand the result is the
      ordered pair of the two one-argument tags, computed with the same
      `simple`. */
  function VyType(item: Value, other: Option<Value>, simple: bool): (r: TypeKey)
    ensures r.One? <==> other.None?
    ensures other.None? ==> (r.tag == NumberTag <==> item.Num?)
    ensures other.None? ==> (r.tag == StrTag <==> item.Str?)
    ensures other.None? ==> (r.tag == ListTag <==> item.Lst? || (simple && item.Lazy?))
    ensures other.None? ==> (r.tag == LazyListTag <==> !simple && item.Lazy?)
    ensures other.Some? ==>
      r == Pair(VyType(item, None, simple).tag, VyType(other.value, None, simple).tag)
    decreases other.Some?
  {
    if other.Some? then
      Pair(VyType(item, None, simple).tag, VyType(other.value, None, simple).tag)
    else
      match item
      case Num(_) => One(NumberTag)
      case Lazy(_) => if simple then One(ListTag) else One(LazyListTag)
      case Str(_) => One(StrTag)
      case Lst(_) => One(ListTag)
  }

  /** The `simple` flag changes the tag of a value exactly when the value is
      a LazyList: lazy and eager lists are told apart only outside simple
      mode. */
  lemma SimpleOnlyMergesLazy(v: Value)
    ensures VyType(v, None, true) != VyType(v, None, false) <==> v.Lazy?
    ensures VyType(v, None, true) == VyType(Lst([]), None, true) <==> IsSequence(v)
  {
  }

  /** The pair key is ordered: swapping the operands swaps the tags, so a
      table keyed on (number, str) does not answer for (str, number). */
  lemma PairKeyIsOrdered(a: Value, b: Value, simple: bool)
    ensures VyType(a, Some(b), simple).left == VyType(b, Some(a), simple).right
    ensures VyType(a, Some(b), simple).right == VyType(b, Some(a), simple).left
    ensures VyType(a, Some(b), simple) == VyType(b, Some(a), simple) <==>
            VyType(a, None, simple) == VyType(b, None, simple)
  {
  }
}
