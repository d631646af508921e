/** The `elements` registry of vyxal/elements.py: each element symbol bound
    to its generated line and its arity. */
module Registry {
  import opened Transpile

  /** The `elements` table: symbol to generated code and arity. It
      registers exactly eleven symbols. */
  function Elements(): (r: map<char, (string, int)>)
    ensures r.Keys == {'¬', '∧', '⟑', '∨', '⟇', '÷', '×', '•', '+', '-', '?'}
  {
    map[
      '¬' := ProcessElement(Code("int(not lhs)"), 1),
      '∧' := ProcessElement(Code("int(lhs and rhs)"), 2),
      '⟑' := ProcessElement(Code("int(rhs and lhs)"), 2),
      '∨' := ProcessElement(Code("int(lhs or rhs)"), 2),
      '⟇' := ProcessElement(Code("int(rhs or lhs)"), 2),
      '÷' := ("lhs = pop(stack, 1, ctx); stack += iterable(lhs)", 1),
      '×' := ProcessElement(Code("'*'"), 0),
      '•' := ProcessElement(Function("log_mold_multi"), 2),
      '+' := ProcessElement(Function("add"), 2),
      '-' := ProcessElement(Function("subtract"), 2),
      '?' := ("ctx.use_top_input = True; lhs = get_input(ctx);"
              + "ctx.use_top_input = False; stack.append(lhs)", 0)
    ]
  }

  /** The entries of the table, one symbol at a time: the code elements and
      the three dyadic functions are registered through `process_element`,
      ÷ and ? with a line written out. */
  lemma NotEntry()
    ensures Elements()['¬'] == ProcessElement(Code("int(not lhs)"), 1)
  {
  }

  lemma AndEntry()
    ensures Elements()['∧'] == ProcessElement(Code("int(lhs and rhs)"), 2)
  {
  }

  lemma AndSwappedEntry()
    ensures Elements()['⟑'] == ProcessElement(Code("int(rhs and lhs)"), 2)
  {
  }

  lemma OrEntry()
    ensures Elements()['∨'] == ProcessElement(Code("int(lhs or rhs)"), 2)
  {
  }

  lemma OrSwappedEntry()
    ensures Elements()['⟇'] == ProcessElement(Code("int(rhs or lhs)"), 2)
  {
  }

  lemma SpreadEntry()
    ensures Elements()['÷'] == ("lhs = pop(stack, 1, ctx); stack += iterable(lhs)", 1)
  {
  }

  lemma TimesEntry()
    ensures Elements()['×'] == ProcessElement(Code("'*'"), 0)
  {
  }

  lemma LogMoldMultiEntry()
    ensures Elements()['•'] == ProcessElement(Function("log_mold_multi"), 2)
  {
  }

  lemma AddEntry()
    ensures Elements()['+'] == ProcessElement(Function("add"), 2)
  {
  }

  lemma SubtractEntry()
    ensures Elements()['-'] == ProcessElement(Function("subtract"), 2)
  {
  }

  lemma InputEntry()
    ensures Elements()['?'] == ("ctx.use_top_input = True; lhs = get_input(ctx);"
                                + "ctx.use_top_input = False; stack.append(lhs)", 0)
  {
  }

  /** Each symbol's arity, as the table states it; every arity lies in 0..3,
      the range `process_element` names operands for. */
  lemma ElementArities()
    ensures Elements()['¬'].1 == 1 && Elements()['÷'].1 == 1
    ensures Elements()['∧'].1 == 2 && Elements()['⟑'].1 == 2 && Elements()['∨'].1 == 2
    ensures Elements()['⟇'].1 == 2 && Elements()['•'].1 == 2
    ensures Elements()['+'].1 == 2 && Elements()['-'].1 == 2
    ensures Elements()['×'].1 == 0 && Elements()['?'].1 == 0
    ensures forall c :: c in Elements() ==> 0 <= Elements()[c].1 <= 3
  {
    NotEntry();
    AndEntry();
    AndSwappedEntry();
    OrEntry();
    OrSwappedEntry();
    SpreadEntry();
    TimesEntry();
    LogMoldMultiEntry();
    AddEntry();
    SubtractEntry();
    InputEntry();
  }

  /** The generated lines of the three dyadic functions: both operands are
      popped and passed to the function in `lhs, rhs` order with the
      context. Assembled, the line of + reads
        rhs, lhs = pop(stack, 2, ctx); stack.append(add(lhs, rhs, ctx)) */
  lemma AddLine()
    ensures Elements()['+'].0 ==
      ("rhs" + ", " + "lhs") + " = pop(stack, " + "2" + ", ctx); "
      + "stack.append(" + ("add" + ("(" + ("lhs" + ", " + "rhs") + ", ctx)")) + ")"
  {
    AddEntry();
    ProcessFunction("add");
  }

  /** rhs, lhs = pop(stack, 2, ctx); stack.append(subtract(lhs, rhs, ctx)) */
  lemma SubtractLine()
    ensures Elements()['-'].0 ==
      ("rhs" + ", " + "lhs") + " = pop(stack, " + "2" + ", ctx); "
      + "stack.append(" + ("subtract" + ("(" + ("lhs" + ", " + "rhs") + ", ctx)")) + ")"
  {
    SubtractEntry();
    ProcessFunction("subtract");
  }

  /** rhs, lhs = pop(stack, 2, ctx); stack.append(log_mold_multi(lhs, rhs, ctx)) */
  lemma LogMoldMultiLine()
    ensures Elements()['•'].0 ==
      ("rhs" + ", " + "lhs") + " = pop(stack, " + "2" + ", ctx); "
      + "stack.append(" + ("log_mold_multi" + ("(" + ("lhs" + ", " + "rhs") + ", ctx)")) + ")"
  {
    LogMoldMultiEntry();
    ProcessFunction("log_mold_multi");
  }

  /** The generated lines of two code elements: `×` pops nothing and pushes
      the string `*`; `¬` pops one operand and pushes its negation.
      Assembled, they read
        _ = pop(stack, 0, ctx); stack.append('*')
        lhs = pop(stack, 1, ctx); stack.append(int(not lhs)) */
  lemma CodeLines()
    ensures Elements()['×'].0 ==
      "_" + " = pop(stack, " + "0" + ", ctx); " + "stack.append(" + "'*'" + ")"
    ensures Elements()['¬'].0 ==
      "lhs" + " = pop(stack, " + "1" + ", ctx); " + "stack.append(" + "int(not lhs)" + ")"
  {
    TimesEntry();
    NotEntry();
    ProcessCode("'*'");
    ProcessCode("int(not lhs)");
  }

  /** The generated lines of the four logical elements, which pop two
      operands and push their code verbatim; ∧ reads
        rhs, lhs = pop(stack, 2, ctx); stack.append(int(lhs and rhs)) */
  lemma LogicLines()
    ensures Elements()['∧'].0 ==
      ("rhs" + ", " + "lhs") + " = pop(stack, " + "2" + ", ctx); " + "stack.append(" + "int(lhs and rhs)" + ")"
    ensures Elements()['⟑'].0 ==
      ("rhs" + ", " + "lhs") + " = pop(stack, " + "2" + ", ctx); " + "stack.append(" + "int(rhs and lhs)" + ")"
    ensures Elements()['∨'].0 ==
      ("rhs" + ", " + "lhs") + " = pop(stack, " + "2" + ", ctx); " + "stack.append(" + "int(lhs or rhs)" + ")"
    ensures Elements()['⟇'].0 ==
      ("rhs" + ", " + "lhs") + " = pop(stack, " + "2" + ", ctx); " + "stack.append(" + "int(rhs or lhs)" + ")"
  {
    AndEntry();
    AndSwappedEntry();
    OrEntry();
    OrSwappedEntry();
    ProcessCode("int(lhs and rhs)");
    ProcessCode("int(rhs and lhs)");
    ProcessCode("int(lhs or rhs)");
    ProcessCode("int(rhs or lhs)");
  }
}
