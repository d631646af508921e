# Vyxal element functions in Dafny

A model of `vyxal/elements.py` from the Vyxal interpreter. This is the file that holds the
Python implementation of the language's elements and the table the transpiler consults.
It covers:

- **Runtime values and `vy_type`** (module `Values`, `values.dfy`):
  - numbers (integers only), strings, lists and finite LazyLists;
  - the type key that every element dispatches on: "number", `str`, `list` or `LazyList`,
    with a LazyList reading as `list` in simple mode.
- **String helpers** (module `Text`, `text.dfy`): the Python string operations the elements use.
  - `str(n)` is checked against a parser for it.
  - `c * n`, per-character repetition and `s.replace(p, "")`.
- **`vectorise`** (module `Vectorisation`, `vectorise.dfy`):
  - the one- and two-argument forms, as a higher-order function over `Callable`s;
  - `iterable` for lists, LazyLists and strings;
  - the way `list(f())` over the generator stops at the first failing call.
- **The elements** (module `Elements`, `elements.dfy`): `add` (+), `subtract` (-) and
  `log_mold_multi` (•).
  - Each has its table of scalar rules and its fallback to `vectorise`.
  - A `depth` parameter counts how many nested fallbacks may still run before Python's
    recursion limit ends the evaluation. This matters because some inputs really recurse
    forever. `add("a", [1])` iterates `"a"` into `"a"` again and again. The model proves this
    case yields `RecursionLimit` at every depth.
- **`process_element`** (module `Transpile`, `transpile.dfy`):
  - the generated line that pops an element's operands and pushes its result;
  - Python's `xs[-arity:]` slice and `[::-1]` reversal, modelled explicitly.
- **The `elements` table** (module `Registry`, `registry.dfy`): the eleven registered symbols,
  their arities and their generated lines.

Decisions about the form of the model:

- The source looks up a dictionary keyed on the tag pair, with a default of `vectorise`. The
  model tests the tag pair against each key in turn with an if-chain. This gives the same
  order and the same default.
- `mold` and `transfer_capitalisation` are helpers whose code is not part of this model. They
  are passed in as function values (`Elements.Helpers`) that return a `Result`. Their results,
  failures included, appear uninterpreted.
- `iterable` is modelled only for lists, LazyLists and strings. Iterating a number is reported
  as `Err(Outside(NumberIteration))`.
- The context `ctx` is carried everywhere the source passes it, and dropped where the source
  drops it: `add` and `subtract` vectorise without it, `log_mold_multi` passes it on. None of
  the modelled branches reads it.
- Dictionary keys in `elements` are one-character Python strings; the model keys the map on
  `char`.

## Model

| member | source | states |
|---|---|---|
| Values.VyType | vyxal/elements.py:137-145 | Exactly the numbers get the "number" tag and exactly the strings `str`. A list, or a LazyList in simple mode, gets `list`; a LazyList otherwise gets `LazyList`. With a second operand the key is the ordered pair of the two one-argument tags. |
| Values.SimpleOnlyMergesLazy | vyxal/elements.py:142-143 | Simple mode changes a value's tag exactly when the value is a LazyList. In simple mode a value shares the tag of a list exactly when it is a list or LazyList. |
| Values.PairKeyIsOrdered | vyxal/elements.py:138-139 | Swapping the operands swaps the two tags of the key. The key is symmetric exactly when both operands have the same tag. |
| Text.DigitValue | vyxal/elements.py:55 | Reading back a digit character gives a digit whose character is the one read. |
| Text.NatText | vyxal/elements.py:55-56 | The decimal digits of a natural number: at least one digit, only digits, and no leading zero, so the text is "0" exactly for 0. |
| Text.DecimalText | vyxal/elements.py:55-56 | `str(n)`: it starts with '-' exactly when `n` is negative, it is "0" exactly for 0, and no digit run starts with a zero unless it is that "0". |
| Text.DecimalRoundTrip | vyxal/elements.py:55-56 | The decimal text `str(n)` of every integer, negative ones included, parses back to `n`. |
| Text.Repeat | vyxal/elements.py:92-93 | `c * n` has length `max(n, 0)` and every character is `c`. |
| Text.RepeatEach | vyxal/elements.py:74-75 | The per-character repetition of `s` by `n` has length `len(s) * max(n, 0)`. |
| Text.RepeatEachAt | vyxal/elements.py:74-75 | In the per-character repetition of `s` by `n`, copy `j` of character `k` sits at `k * n + j`. |
| Text.RemoveAll | vyxal/elements.py:94 | `s.replace(p, "")` is never longer than `s`. An empty `p` leaves `s` unchanged. |
| Text.RemoveAllChangesIff | vyxal/elements.py:94 | Removing `p` changes `s` if and only if `p` is non-empty and occurs in `s`. When it changes, the result is strictly shorter. |
| Text.RemoveAllAtFirstOccurrence | vyxal/elements.py:94 | Everything before the leftmost occurrence of `p` is kept, that occurrence is removed, and removal goes on in the rest. With the lemma above, this fixes the result on every input. |
| Text.RemoveAllLeftmost | vyxal/elements.py:94 | Occurrences do not overlap and the leftmost goes first: removing "aa" from "aaa" leaves "a". |
| Vectorisation.Iterable | vyxal/elements.py:125 | Iterating a number is outside the model and yields `Outside(NumberIteration)`. A list or LazyList yields its items; a string yields its characters as one-character strings, in order. |
| Vectorisation.MapApply | vyxal/elements.py:124-134 | A result has one item per input item. Item `i` is what the call on item `i` (with the extra arguments and the context) yields. No items give the empty list. |
| Vectorisation.MapApplyOk | vyxal/elements.py:124-134 | The generator drained by `list` gives a list if and only if every call succeeds. |
| Vectorisation.MapApplyFirstError | vyxal/elements.py:124-134 | When item `k` is the first whose call fails, the whole evaluation fails with that call's error. |
| Vectorisation.Vectorise | vyxal/elements.py:98-134 | Three operands give the three-argument form, which is not modelled. A number on the left is outside the model (`Outside(NumberIteration)`). A result is always a plain list. In the two- and one-argument forms over a list, item `i` is what `f(lhs[i], rhs)` or `f(lhs[i])` yields. |
| Vectorisation.VectoriseOk | vyxal/elements.py:121-126 | The two-argument form gives a list if and only if the call on every item succeeds. |
| Vectorisation.VectoriseUnaryOk | vyxal/elements.py:128-132 | The one-argument form gives a list if and only if the call on every item succeeds. |
| Vectorisation.VectoriseFirstError | vyxal/elements.py:121-134 | A failing call makes vectorisation fail with the error of the first failing item; no partial list is returned. |
| Vectorisation.MapApplyCongruent | vyxal/elements.py:124-126 | Only the calls actually made determine the result of the generator. |
| Vectorisation.VectoriseCongruent | vyxal/elements.py:121-126 | Two functions that agree on every call the two-argument form makes give the same vectorised result. |
| Vectorisation.VectoriseOverString | vyxal/elements.py:125 | A string on the left is vectorised character by character. There is a list if and only if every character's call succeeds, and item `i` is the call on character `i`. |
| Elements.Add | vyxal/elements.py:44-58 | Two numbers give their sum. A number and a string give the number's decimal text joined on its side. Two strings give their concatenation. Every other pair gives the fallback `AddFallback`. |
| Elements.AddFallback | vyxal/elements.py:58 | `vectorise(add, lhs, rhs)` without the context. It gives `RecursionLimit` when no depth is left; a number on the left is outside the model and yields an error; what it yields is always a plain list. |
| Elements.AddOverSequence | vyxal/elements.py:58 | A list or LazyList on the left of + gives a list if and only if `add(lhs[i], rhs)` succeeds for every item. Item `i` is that sum, `rhs` is passed whole, and the context is dropped. |
| Elements.AddBroadcastsNumber | vyxal/elements.py:54-58 | Adding a number to a list of numbers adds it to every item. |
| Elements.AddStringToSequenceDiverges | vyxal/elements.py:56-58 | A non-empty string added to a list or LazyList never yields a value, at any depth: each character meets the list again and is iterated into itself. An empty string gives an empty list. |
| Elements.AddDepthMonotone | vyxal/elements.py:58 | The depth bound only cuts evaluations short. Once + yields a value at some depth, every greater depth yields the same value. |
| Elements.AddSubtractInverse | vyxal/elements.py:91 | Subtracting a number from the sum of two numbers gives back the first. |
| Elements.AddNumberTextRoundTrip | vyxal/elements.py:55 | Number + string yields a string that ends with the string, and whose beginning parses back to the number. |
| Elements.AddTextNumberRoundTrip | vyxal/elements.py:56 | String + number yields a string that starts with the string, and whose rest parses back to the number. |
| Elements.Subtract | vyxal/elements.py:81-95 | Two numbers give their difference. A number and a string give `max(n, 0)` dashes on the number's side. Two strings give the left with every non-overlapping occurrence of the right removed, leftmost first. Every other pair gives `AddFallback`, the fallback of +, as written. |
| Elements.SubtractFallbackIsAdd | vyxal/elements.py:95 | For every pair that is not two scalars, - gives exactly what + gives. |
| Elements.SubtractListAddsNumber | vyxal/elements.py:95 | As written, "subtracting" a number from a list of numbers adds it to every item. |
| Elements.SubtractDashes | vyxal/elements.py:92-93 | The dashes come first for number - string and last for string - number. There are `max(n, 0)` of them, and the string is kept whole. |
| Elements.SubtractTextChangesIff | vyxal/elements.py:94 | String - string changes the left if and only if the right is non-empty and occurs in it. When it changes, the result is shorter. |
| Elements.SubtractVectorised | vyxal/elements.py:81-95 | The corrected `subtract`: the same rules for two scalars, and every other pair vectorising `subtract` itself. |
| Elements.SubtractFallback | vyxal/elements.py:95 | The corrected default, `vectorise(subtract, lhs, rhs)`. It gives `RecursionLimit` when no depth is left; a number on the left is outside the model and yields an error; what it yields is a plain list. |
| Elements.SubtractVectorisedBroadcasts | vyxal/elements.py:95 | With the corrected fallback, a number is subtracted from every item of a list of numbers. |
| Elements.AddSubtractVectorisedInverse | vyxal/elements.py:95 | With the corrected fallback, subtracting a number undoes adding it to a list of numbers. |
| Elements.SubtractFallbackCounterexample | vyxal/elements.py:95 | `subtract([5], 3)` is `[8]` as written and `[2]` as corrected. |
| Elements.LogMoldMulti | vyxal/elements.py:61-78 | Tags are taken in simple mode, so a LazyList counts as a list. Two numbers fall in the float logarithm, which is not modelled. A number and a string repeat each character of the string by the number, on either side. Two strings give whatever `transfer_capitalisation(rhs, lhs)` gives, failure included. Two sequences give whatever `mold(lhs, rhs)` gives. A sequence with a scalar gives `LogMoldMultiFallback`, which vectorises the element itself. |
| Elements.LogMoldMultiFallback | vyxal/elements.py:78 | `vectorise(log_mold_multi, lhs, rhs, ctx=ctx)`. It gives `RecursionLimit` when no depth is left; a number on the left is outside the model and yields an error; what it yields is a plain list. |
| Elements.LogMoldMultiSymmetric | vyxal/elements.py:74-75 | For every number and every string, the repetition rule does not depend on which side the number is on. |
| Elements.LogMoldMultiRepeat | vyxal/elements.py:74-75 | For a character `k` of the string and a copy `j` below `n`, the result has length `len(s) * n` and copy `j` of character `k` sits at `k * n + j`. |
| Elements.LogMoldMultiOverSequence | vyxal/elements.py:70-78 | A sequence on the left and a scalar on the right vectorise over the left, item by item, with the context. The same pair swapped puts a number on the left, which is outside the model. It gives an empty list for an empty string and recurses without end for any other string. |
| Elements.LogMoldMultiStringToSequenceDiverges | vyxal/elements.py:78 | A non-empty string with a list on the right never yields a value, at any depth. |
| Transpile.SliceFrom | vyxal/elements.py:29 | Python `xs[start:]`: a negative start counts from the end, and the start is clamped to the sequence. |
| Transpile.Join | vyxal/elements.py:34-38 | `sep.join(xs)`: empty for no items; otherwise it starts with the first item, and its length is the items' total length plus one separator fewer than items. |
| Transpile.Reverse | vyxal/elements.py:34 | `xs[::-1]` has the same length, with item `i` taken from position `len - 1 - i`. |
| Transpile.PopTargets | vyxal/elements.py:28-31 | Arity 0 binds `_`. A positive arity binds the last `min(arity, 3)` names of `third, rhs, lhs`. A negative arity drops that many names from the front, and all three from -3 on. |
| Transpile.CallArgs | vyxal/elements.py:34 | The argument list is parenthesised and ends with `, ctx`. For arities 1 to 3 the operands come first, in the order `lhs, rhs, third`. |
| Transpile.Pushed | vyxal/elements.py:33-36 | Code is pushed verbatim. A function is pushed as a call: its name followed by an opening parenthesis. |
| Transpile.ProcessElement | vyxal/elements.py:18-41 | The arity is returned unchanged, and the generated line is longer than the pushed expression. |
| Transpile.PopTargetsShape | vyxal/elements.py:28-31 | For arity 1 to 3, the last `arity` names of `third, rhs, lhs` are bound. Reversed for the call, they read `lhs, rhs, third` in that order. |
| Transpile.ProcessFunction | vyxal/elements.py:33-40 | For arities 1 to 3, a function yields `<targets> = pop(stack, <arity>, ctx); stack.append(<name>(<args>, ctx))`. The targets are listed top of stack first and the arguments in left-to-right order. |
| Transpile.ProcessCode | vyxal/elements.py:35-40 | For arities 0 to 2, code yields the same pop, binding `_` when nothing is popped, and pushes the code verbatim. |
| Registry.Elements | vyxal/elements.py:148-164 | The table registers exactly the eleven symbols ¬ ∧ ⟑ ∨ ⟇ ÷ × • + - ?. |
| Registry.NotEntry | vyxal/elements.py:149 | ¬ is `process_element("int(not lhs)", 1)`. |
| Registry.AndEntry | vyxal/elements.py:150 | ∧ is `process_element("int(lhs and rhs)", 2)`. |
| Registry.AndSwappedEntry | vyxal/elements.py:151 | ⟑ is `process_element("int(rhs and lhs)", 2)`. |
| Registry.OrEntry | vyxal/elements.py:152 | ∨ is `process_element("int(lhs or rhs)", 2)`. |
| Registry.OrSwappedEntry | vyxal/elements.py:153 | ⟇ is `process_element("int(rhs or lhs)", 2)`. |
| Registry.SpreadEntry | vyxal/elements.py:154 | ÷ is its line written out, which pops one operand and pushes its items, with arity 1. |
| Registry.TimesEntry | vyxal/elements.py:155 | × is `process_element("'*'", 0)`. |
| Registry.LogMoldMultiEntry | vyxal/elements.py:156 | • is `process_element(log_mold_multi, 2)`. |
| Registry.AddEntry | vyxal/elements.py:157 | + is `process_element(add, 2)`. |
| Registry.SubtractEntry | vyxal/elements.py:158 | - is `process_element(subtract, 2)`. |
| Registry.InputEntry | vyxal/elements.py:159-163 | ? is its line written out, which reads an input with `use_top_input` set and pushes it, with arity 0. |
| Registry.ElementArities | vyxal/elements.py:148-164 | Every arity lies in 0..3. ¬ and ÷ take 1; ∧ ⟑ ∨ ⟇ • + - take 2; × and ? take 0. |
| Registry.AddLine | vyxal/elements.py:157 | + pops `rhs, lhs` and pushes `add(lhs, rhs, ctx)`. |
| Registry.SubtractLine | vyxal/elements.py:158 | - pops `rhs, lhs` and pushes `subtract(lhs, rhs, ctx)`. |
| Registry.LogMoldMultiLine | vyxal/elements.py:156 | • pops `rhs, lhs` and pushes `log_mold_multi(lhs, rhs, ctx)`. |
| Registry.CodeLines | vyxal/elements.py:149-155 | × pops nothing (binding `_`) and pushes `'*'`. ¬ pops `lhs` and pushes `int(not lhs)`. |
| Registry.LogicLines | vyxal/elements.py:150-153 | ∧ ⟑ ∨ ⟇ each pop `rhs, lhs` and push their code verbatim. |

## Left out

- Elements.LogMoldMulti: two numbers give the base-`rhs` logarithm of `lhs` as a sympy
  Rational. Floating point is not modelled, so that case yields `Err(Outside(FloatLog))`.
- Rational and complex numbers are not modelled; `Num` holds an integer.
- Text.Repeat, Text.RepeatEach: CPython converts the count of `c * n` to an index-sized integer.
  It raises OverflowError for a count outside ±(2^63 − 1), and MemoryError for a string too large
  to allocate. Neither limit is modelled: the model returns the unbounded string. This also
  covers the dash rules of `Elements.Subtract` (for example, `subtract(-2**64, "x")` raises in
  the source and gives "x" here) and the repetition rules of `Elements.LogMoldMulti`.
- Text.DecimalText: CPython 3.11 and later raise ValueError from `str(n)` for an integer of more
  than 4300 digits (the default conversion limit). The model writes every integer, so that error
  of `add` on a number and a string is not modelled.
  - `vy_type` tests the exact type, so a sympy Integer or a bool would not be tagged "number".
    Neither is a modelled value.
- `mold` and `transfer_capitalisation` are not part of this model. They enter as uninterpreted
  function values that may succeed or fail.
- `iterable` turns a number into a sequence in the source; that conversion is not part of this
  model. Vectorising with a number on the left yields `Err(Outside(NumberIteration))`, which marks
  the gap and is not a failure of the source.
- Vectorisation.Vectorise: the three-argument form builds a LazyList. It yields
  `Err(Outside(TernaryVectorise))`; no element modelled here reaches it.
  - The `explicit` parameter is not modelled; the source ignores it.
- `safe_apply` is modelled as a call with the context appended. A wrong argument count gives
  `TypeError`.
- Python's recursion limit is modelled by the `depth` argument, not by a fixed stack size.
- LazyLists are finite item sequences. Laziness and infinite LazyLists are not modelled.
- The `?` entry's input reading and the `÷` entry's `iterable` are generated code, not
  operations here. The model states their lines as written and their arities, not what the
  lines do when run.
- Transpile.ProcessFunction: generated lines are stated for arities 1 to 3, the arities
  functions are registered with.
  - Transpile.ProcessCode does the same for arities 0 to 2.
  - Other arities are covered only by the general shape of `ProcessElement` and by
    `PopTargets`.
- The lexer and its tests (`tests/test_lexer.py`) are not part of this model.

## Findings

| source | as written | input that shows it | evidently intended | confidence | as-written member | corrected member |
|---|---|---|---|---|---|---|
| vyxal/elements.py:95 | the fallback of `subtract` vectorises `add` | `subtract([5], 3)` gives `[8]` | vectorise `subtract`, giving `[2]` | high; not executed | Elements.SubtractFallbackCounterexample | Elements.SubtractVectorised |
