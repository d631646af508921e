/** `process_element` of vyxal/elements.py: the line of generated Python that
    pops an element's operands from the stack and pushes its result. */
module Transpile {
  import opened Text

  /** What `process_element` receives: a Python expression added verbatim,
      or a function, of which only its `__name__` is used. */
  datatype Impl = Code(text: string) | Function(name: string)

  /** Python `xs[start:]`: a negative start counts from the end, and both
      ends are clamped to the sequence. */
  function SliceFrom<T>(xs: seq<T>, start: int): (r: seq<T>)
    ensures start >= 0 ==> r == xs[if start <= |xs| then start else |xs|..]
    ensures start < 0 ==> r == xs[if -start <= |xs| then |xs| + start else 0..]
  {
    var k := if start < 0 then (if start + |xs| < 0 then 0 else start + |xs|)
             else (if start > |xs| then |xs| else start);
    xs[k..]
  }

  /** The total length of the items of `xs`. */
  function TotalLength(xs: seq<string>): nat {
    if xs == [] then 0 else |xs[0]| + TotalLength(xs[1..])
  }

  /** Python `sep.join(xs)`: the items in order with `sep` between each two
      neighbours, so it starts with the first item and holds one separator
      fewer than items. */
  function Join(xs: seq<string>, sep: string): (r: string)
    ensures xs == [] ==> r == ""
    ensures xs != [] ==> |r| == TotalLength(xs) + (|xs| - 1) * |sep|
    ensures xs != [] ==> |xs[0]| <= |r| && r[..|xs[0]|] == xs[0]
  {
    if xs == [] then ""
    else if |xs| == 1 then xs[0]
    else xs[0] + sep + Join(xs[1..], sep)
  }

  function Reverse<T>(xs: seq<T>): (r: seq<T>)
    ensures |r| == |xs| && forall i :: 0 <= i < |xs| ==> r[i] == xs[|xs| - 1 - i]
  {
    if xs == [] then [] else Reverse(xs[1..]) + [xs[0]]
  }

  /** The names the popped operands are bound to: the last `arity` of
      `third, rhs, lhs`, or `_` when nothing is popped. (For arity 0 the
      source uses the string "_", which joins and reverses to itself.) */
  function PopTargets(arity: int): (r: seq<string>)
    ensures arity == 0 ==> r == ["_"]
    ensures arity > 0 ==>
      |r| == (if arity < 3 then arity else 3) && r == ["third", "rhs", "lhs"][3 - |r|..]
    ensures arity < 0 ==> r == ["third", "rhs", "lhs"][if arity <= -3 then 3 else -arity..]
  {
    if arity != 0 then SliceFrom(["third", "rhs", "lhs"], -arity) else ["_"]
  }

  /** The argument list of a generated call: the popped operands in reverse
      pop order, then `ctx`. */
  function CallArgs(arity: int): (r: string)
    ensures |r| >= 6 && r[0] == '(' && r[|r| - 6..] == ", ctx)"
    ensures 1 <= arity <= 3 ==> r[1..|r| - 6] == Join(["lhs", "rhs", "third"][..arity], ", ")
  {
    var inner := Join(Reverse(PopTargets(arity)), ", ");
    var r := "(" + inner + ", ctx)";
    assert r[1..|r| - 6] == inner && r[|r| - 6..] == ", ctx)";
    if 1 <= arity <= 3 then PopTargetsShape(arity); r else r
  }

  /** The expression whose value is pushed: the code itself, or a call of
      the function. */
  function Pushed(expr: Impl, arity: int): (r: string)
    ensures expr.Code? ==> r == expr.text
    ensures expr.Function? ==>
      |expr.name| < |r| && r[..|expr.name|] == expr.name && r[|expr.name|] == '('
  {
    match expr
    case Code(text) => text
    case Function(name) => name + CallArgs(arity)
  }

  /** `process_element(expr, arity)`: the generated statement, filling the
      holes of `"{targets} = pop(stack, {arity}, ctx); stack.append({pushed})"`,
      and the arity, returned as given. */
  function ProcessElement(expr: Impl, arity: int): (r: (string, int))
    ensures r.1 == arity
    ensures |r.0| > |Pushed(expr, arity)|
  {
    var pyCode := Join(PopTargets(arity), ", ") + " = pop(stack, " + DecimalText(arity) + ", ctx); "
                  + "stack.append(" + Pushed(expr, arity) + ")";
    (pyCode, arity)
  }

  /** For arity 1 to 3 exactly `arity` operands are named, the last ones of
      `third, rhs, lhs`; the call passes them in reverse, which is the
      natural order `lhs, rhs, third`. */
  lemma PopTargetsShape(arity: int)
    requires 1 <= arity <= 3
    ensures PopTargets(arity) == ["third", "rhs", "lhs"][3 - arity..]
    ensures |PopTargets(arity)| == arity
    ensures Reverse(PopTargets(arity)) == ["lhs", "rhs", "third"][..arity]
  {
  }

  lemma JoinTwo(a: string, b: string, sep: string)
    ensures Join([a, b], sep) == a + sep + b
  {
    assert [a, b][1..] == [b];
  }

  lemma JoinThree(a: string, b: string, c: string, sep: string)
    ensures Join([a, b, c], sep) == a + sep + b + sep + c
  {
    assert [a, b, c][1..] == [b, c];
    JoinTwo(b, c, sep);
  }

  lemma Holes0()
    ensures Join(PopTargets(0), ", ") == "_" && DecimalText(0) == "0"
  {
    assert PopTargets(0) == ["_"];
  }

  lemma Holes1()
    ensures Join(PopTargets(1), ", ") == "lhs" && DecimalText(1) == "1"
    ensures CallArgs(1) == "(" + "lhs" + ", ctx)"
  {
    assert PopTargets(1) == ["lhs"];
    assert Reverse(["lhs"]) == ["lhs"];
  }

  lemma Holes2()
    ensures Join(PopTargets(2), ", ") == "rhs" + ", " + "lhs" && DecimalText(2) == "2"
    ensures CallArgs(2) == "(" + ("lhs" + ", " + "rhs") + ", ctx)"
  {
    assert PopTargets(2) == ["rhs", "lhs"];
    assert Reverse(["rhs", "lhs"]) == ["lhs", "rhs"];
    JoinTwo("rhs", "lhs", ", ");
    JoinTwo("lhs", "rhs", ", ");
  }

  lemma Holes3()
    ensures Join(PopTargets(3), ", ") == "third" + ", " + "rhs" + ", " + "lhs"
    ensures DecimalText(3) == "3"
    ensures CallArgs(3) == "(" + ("lhs" + ", " + "rhs" + ", " + "third") + ", ctx)"
  {
    assert PopTargets(3) == ["third", "rhs", "lhs"];
    assert Reverse(["third", "rhs", "lhs"]) == ["lhs", "rhs", "third"];
    JoinThree("third", "rhs", "lhs", ", ");
    JoinThree("lhs", "rhs", "third", ", ");
  }

  /** The lines generated for a function of arity 1, 2 and 3: operands are
      popped top of stack first (`rhs` before `lhs`) and passed to the
      function in left-to-right order (`lhs` before `rhs`), then the
      context. Assembled, for a function named `f`, they read
        lhs = pop(stack, 1, ctx); stack.append(f(lhs, ctx))
        rhs, lhs = pop(stack, 2, ctx); stack.append(f(lhs, rhs, ctx))
        third, rhs, lhs = pop(stack, 3, ctx); stack.append(f(lhs, rhs, third, ctx)) */
  lemma ProcessFunction(name: string)
    ensures ProcessElement(Function(name), 1).0 ==
      "lhs" + " = pop(stack, " + "1" + ", ctx); "
      + "stack.append(" + (name + ("(" + "lhs" + ", ctx)")) + ")"
    ensures ProcessElement(Function(name), 2).0 ==
      ("rhs" + ", " + "lhs") + " = pop(stack, " + "2" + ", ctx); "
      + "stack.append(" + (name + ("(" + ("lhs" + ", " + "rhs") + ", ctx)")) + ")"
    ensures ProcessElement(Function(name), 3).0 ==
      ("third" + ", " + "rhs" + ", " + "lhs") + " = pop(stack, " + "3" + ", ctx); "
      + "stack.append(" + (name + ("(" + ("lhs" + ", " + "rhs" + ", " + "third") + ", ctx)")) + ")"
  {
    Holes1();
    Holes2();
    Holes3();
  }

  /** The lines generated for a code string, which is pushed verbatim after
      binding `_` (arity 0) or the popped operands. Assembled, for code `c`,
      they read
        _ = pop(stack, 0, ctx); stack.append(c)
        lhs = pop(stack, 1, ctx); stack.append(c)
        rhs, lhs = pop(stack, 2, ctx); stack.append(c) */
  lemma ProcessCode(text: string)
    ensures ProcessElement(Code(text), 0).0 ==
      "_" + " = pop(stack, " + "0" + ", ctx); " + "stack.append(" + text + ")"
    ensures ProcessElement(Code(text), 1).0 ==
      "lhs" + " = pop(stack, " + "1" + ", ctx); " + "stack.append(" + text + ")"
    ensures ProcessElement(Code(text), 2).0 ==
      ("rhs" + ", " + "lhs") + " = pop(stack, " + "2" + ", ctx); " + "stack.append(" + text + ")"
  {
    Holes0();
    Holes1();
    Holes2();
  }
}
