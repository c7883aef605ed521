# DFA simulator engine in Dafny

This project models the execution engine of a small regular-language simulator
(`automata-2.py`). The simulator builds one of two deterministic finite automata, one over
`{a, b}` and one over `{0, 1}`. It walks an input string through the selected automaton's
transition table and reports three things:

- the path of visited states;
- whether the input is accepted;
- an error message if the walk was cut short.

Modules:

- `Wrappers`: the `Option` type.
- `Automaton`: the data model and the specification of a run.
  - A `Dfa` is an immutable record with both state sets, the alphabet, the transition table, the start state and both accept sets, as in the source's constructor.
  - `Walk` and `Run` define the run recursively on the last symbol.
    - The walk starts at `(start, None)`.
    - A symbol outside the alphabet stops it with "invalid symbol".
    - A pair missing from the table stops it with "no transition".
    - Otherwise the walk appends `(next, symbol)`.
    - After the whole input, acceptance is decided by the final state only.
  - `DeltaStar`, the extended transition function (recursion on the first symbol), undefined on a symbol outside the alphabet, is an independent reference definition. The lemmas tie `Run` to it.
- `Engine`: the simulator's loops as methods, each proved to compute `Run`.
  - `Simulate` is parameterised by the accept set; `SimulateAb` and `Simulate01` are the two copies in the source.
  - `Accepts` is the boolean-only acceptance test.
- `Tables`: the two concrete automata and the facts the simulator relies on: well-formedness, the keys listed twice, trap and sink states, and the single gap of each table.
- `Samples`: runs of the concrete automata on the example strings the simulator lists, and on inputs that reach a trap, a sink, a missing transition and an invalid symbol.
- `Pointer`: the text display of the input with a caret under the current symbol.

The transition table is modelled as its lookup function, `(State, Symbol) -> Option<State>`. This is what the source's `dict.get` computes: the listed target, or nothing. Each concrete table is written as that lookup, with one row per state.

Where a key is listed twice in the `{a, b}` dictionary literal, the later entry takes effect, and the model records that later value. These keys are `(1, b)`, `(2, a)` and `(16, b)`.

An out-of-alphabet symbol always makes the run fail and reject, but the error reported is the first failure the loop meets. A missing transition earlier in the input therefore wins over a later invalid symbol, as `Samples.FirstFailureDecidesAb` shows for `bbbaac`. `Automaton.AlphabetGating` states both halves:

- an out-of-alphabet symbol always makes the run fail;
- the error is "invalid symbol" when the run reaches that symbol.

## Model

| member | source | states |
|---|---|---|
| Automaton.Walk | automata-2.py:107-124 | the path starts at `(start, None)`; a completed walk has one entry per symbol plus one; a stopped one has at most one entry per symbol |
| Automaton.Run | automata-2.py:107-128 | the path starts at `(start, None)`; with no error it has length \|input\|+1; with an error the input is rejected and the path is partial |
| Automaton.Message | automata-2.py:113-118 | both error messages end with the offending symbol in single quotes |
| Automaton.MessageInjective | automata-2.py:113-118 | different errors give different messages, so the two abort modes can be told apart |
| Automaton.Describe | automata-2.py:114-128 | no text exactly when there is no error; a reported text starts with `I` exactly when the error is an invalid symbol |
| Automaton.DescribeInjective | automata-2.py:112-128 | the text the simulation returns determines the error, or its absence: equal texts come from equal errors |
| Automaton.Advance | automata-2.py:112-124 | one step stops exactly on a symbol outside the alphabet or a pair missing from the table, keeping the path; the error is "invalid symbol" carrying that symbol exactly in the first case, and otherwise "no transition" naming the current state and the symbol; a step that goes on keeps the old path and appends one entry holding the table's target and the symbol |
| Automaton.WalkFollowsDelta | automata-2.py:116-124 | each path entry after the first is the table's target for the previous state and the symbol consumed, and that symbol is in the alphabet |
| Automaton.RunFollowsDelta | automata-2.py:116-124 | the same step relation for the outcome's path |
| Automaton.HaltedIsFinal | automata-2.py:113-118 | once the walk has stopped, further input changes nothing |
| Automaton.StopsAtFirstFailure | automata-2.py:112-118 | a stopped walk stopped at the first symbol it could not consume, at position \|path\|-1; the prefix before it runs to completion with the same path; the error is "invalid symbol" exactly when that symbol is outside the alphabet, and otherwise is "no transition" from the last state |
| Automaton.RunStopsAtFirstFailure | automata-2.py:112-118 | the same for an outcome with an error, which is also rejected |
| Automaton.RunFailsAt | automata-2.py:112-118 | the converse: if a prefix is consumed and the next symbol cannot be, the run stops there whatever follows, with the prefix's path of length \|prefix\|+1, rejected, and the error naming the reason |
| Automaton.AlphabetGating | automata-2.py:112-114 | an out-of-alphabet symbol anywhere makes the run fail and reject; if the run reaches it, the error is "invalid symbol" with the path up to it |
| Automaton.DeltaStarSnoc | automata-2.py:97-103 | the extended transition function on `s + [c]` is one more lookup after `s` |
| Automaton.DeltaStarAppend | automata-2.py:97-103 | the extended transition function over a concatenation is the composition over its parts |
| Automaton.WalkAgreesWithDeltaStar | automata-2.py:110-124 | the walk completes exactly when the extended transition function is defined on the input, and then ends in its value |
| Automaton.RunMatchesDeltaStar | automata-2.py:107-128 | no error exactly when the extended transition function is defined; then the last path state is its value; accepted without error exactly when that value is in the accept set |
| Automaton.DeltaStarAlongPath | automata-2.py:97-103 | a state sequence threaded through the table along `s` gives the extended transition function's value over `s` |
| Automaton.RunAlongPath | automata-2.py:110-128 | such a sequence from the start state is the run's path, with no error, and acceptance is decided by its last state |
| Automaton.AbsorbingStays | automata-2.py:124-127 | a state that loops on every symbol stays put on every string over the alphabet |
| Automaton.AbsorbingDoesNotHalt | automata-2.py:126-127 | reaching a self-looping state does not stop the run: every continuation is consumed, ends there, and is accepted exactly when that state accepts |
| Engine.Simulate | automata-2.py:107-128 | the loop returns exactly the path, the verdict and the message of `Run` for the given accept set |
| Engine.SimulateAb | automata-2.py:107-128 | `Simulate` with the `{a, b}` accept set |
| Engine.Simulate01 | automata-2.py:130-151 | `Simulate` with the `{0, 1}` accept set |
| Engine.Accepts | automata-2.py:96-104 | true exactly when the matching simulation has no error and accepts, and exactly when the extended transition function lands in the selected accept set (line 104: the `{a, b}` accept set when the alphabet is `{a, b}`, the `{0, 1}` one otherwise) |
| Tables.WellFormedAb | automata-2.py:227-294 | every key state and target of the `{a, b}` table is a declared state, every key symbol is `a` or `b`, the start state (line 375) is declared and the accept set (line 376) is within the states |
| Tables.WellFormed01 | automata-2.py:233-374 | the same for the `{0, 1}` table over its own states, with the start state of line 375 and the accept set of line 377 |
| Tables.TransitionAb | automata-2.py:240-294 | every listed pair of the `{a, b}` table has a declared state and an `a` or `b`, and leads to a declared state |
| Tables.Transition01 | automata-2.py:296-374 | the same for the `{0, 1}` table over its own states |
| Tables.DeclaredStates | automata-2.py:227-237 | both state sets hold their trap states, and every `{a, b}` state is also a `{0, 1}` state |
| Tables.StartAndAccept | automata-2.py:375-377 | the start state 0 is declared in both automata and accepts in neither; both accept sets are declared states and hold no trap state |
| Tables.AbDfaWellFormed | automata-2.py:392 | the automaton built for the a-and-b language is well formed over its `{a, b}` states, alphabet, table and accept set, and carries the `{0, 1}` sets too |
| Tables.ZeroOneDfaWellFormed | automata-2.py:478 | the automaton built for the 0-and-1 language is well formed over its `{0, 1}` fields, and carries the `{a, b}` sets too |
| Tables.LaterEntryWins | automata-2.py:243-284 | `(1, b)` goes to 3, `(2, a)` to 3 and `(16, b)` to 20: the later of each repeated key |
| Tables.SingleGapAb | automata-2.py:240-294 | over its states and alphabet, the `{a, b}` table lacks exactly the pair `(7, a)` |
| Tables.SingleGap01 | automata-2.py:296-374 | the `{0, 1}` table lacks exactly the pair `(29, 0)` |
| Tables.TrapsAb | automata-2.py:246-256 | T1 and T2 loop on both symbols |
| Tables.Traps01 | automata-2.py:307-371 | T1, T2 and T3 loop on both symbols |
| Tables.AcceptingSinksAb | automata-2.py:289-292 | 19 and 22 loop on both symbols and accept |
| Tables.AcceptanceSelection | automata-2.py:104 | the acceptance test uses the `{a, b}` accept set for the `{a, b}` automaton and the `{0, 1}` set for the other |
| Samples.EmptyInputAb | automata-2.py:109-128 | the empty input gives the start state alone, no error, rejected |
| Samples.AcceptingSinkAb | automata-2.py:289-292 | every continuation of `aabbbabaaabbbbaaaaa` over the alphabet is accepted in 19 |
| Samples.ValidAb | automata-2.py:45 | `aabbbabaaabbbbaaaaaaaabbbab` is accepted without error, ending in 19 |
| Samples.InvalidAb | automata-2.py:65 | `bbbbbabab` is rejected without error, ending in 11 |
| Samples.Valid01 | automata-2.py:51 | `0011000000111` is accepted without error, ending in 32 |
| Samples.Invalid01 | automata-2.py:69 | `000010000111` is rejected without error, ending in 22 |
| Samples.TrapDoesNotHaltAb | automata-2.py:244-247 | after `ba` the run is in T1 and every continuation is consumed and rejected there |
| Samples.NoTransitionAb | automata-2.py:116-118 | `bbba` then `a` stops in 7 with "No transition from 7 on 'a'" and a path of 5 entries, whatever follows |
| Samples.InvalidSymbolAb | automata-2.py:113-114 | `aa` then `c` stops with "Invalid symbol 'c'" and a path of 3 entries, whatever follows |
| Samples.FirstFailureDecidesAb | automata-2.py:112-118 | `bbbaac` contains a symbol outside the alphabet but reports the earlier missing transition |
| Samples.NoTransition01 | automata-2.py:139-141 | `00001000011101` then `0` stops in 29 with "no transition" and a path of 15 entries |
| Pointer.SpacedInput | automata-2.py:221 | symbol i stands at column 3i, every other column is a space, and the length is 3n-2 for n symbols |
| Pointer.Indent | automata-2.py:222 | three spaces per position, none for a negative count |
| Pointer.PointerLine | automata-2.py:222 | 3·p spaces followed by the caret |
| Pointer.DrawInputPointer | automata-2.py:219-223 | the first line is exactly the spaced input (symbol i in column 3i, two blanks between symbols), then a newline, blanks and finally the caret, 3·p columns into the second line |
| Pointer.CaretUnderSymbol | automata-2.py:219-223 | for a position inside the input, the display is the spaced input, a newline and a line whose only non-blank character is the caret, in the column of that position's symbol |
| Pointer.CaretAtStep | automata-2.py:454-459 | with the view's position rule (0 at the start step, k-1 at step k ≥ 1), step k ≥ 1 shows the caret under the symbol that step consumed and the start step under the first symbol; for an empty input the display is a newline and a caret |

## Left out

- The web interface, not modelled because it is presentation and event handling. This covers the sidebar, tabs, select boxes, text inputs, colouring, the stop buttons and session flags, and the timed animation.
- The diagram drawing (`draw_dfa_ab`, `draw_dfa_01`), because it is calls into the graphviz library. That includes the grouping of edge labels by `(from, to)` pair. The table here is a lookup function, which cannot be iterated, so that grouping has nothing to run over.
- The CFG and PDA tabs, which only display images.
- The debug printing inside the simulation loops, because it is output with no effect on results.
- The module-level alphabet `{a, b, 0, 1}`, because no automaton is built with it.
- Tables: each table is a lookup function rather than a finite map. The dictionary's own resolution of keys listed twice is applied by hand: the later value is the one written.
- Samples: four of the sixteen sidebar examples are stated: the first valid string of each language, the first invalid `{0, 1}` string, and `bbbbbabab`, the third invalid `{a, b}` string. The other twelve are not part of this model, including the first two invalid `{a, b}` strings, which the sidebar writes over two lines each.
- Engine.Simulate: the error is returned as the message text, as the source returns it. The structured error appears in `Run`, and `Describe` maps it to that text.
