/**
  The input display of the step-by-step view: the input with its symbols two spaces
  apart, and under it a line ending in a caret that marks the current symbol.
*/
module Pointer {
  import opened Wrappers
  import opened Automaton

  /** The input with two spaces between consecutive symbols, so that symbol i stands in
      column 3 * i and every other column is blank. */
  function SpacedInput(s: string): (r: string)
    ensures |s| == 0 ==> r == ""
    ensures |s| > 0 ==> |r| == 3 * |s| - 2
    ensures forall i :: 0 <= i < |s| ==> r[3 * i] == s[i]
    ensures forall k :: 0 <= k < |r| && k % 3 != 0 ==> r[k] == ' '
  {
    if |s| <= 1 then s else [s[0]] + "  " + SpacedInput(s[1..])
  }

  /** `n` copies of a three-space unit; none for a negative `n`. */
  function Indent(n: int): (r: string)
    ensures |r| == if n <= 0 then 0 else 3 * n
    ensures forall k :: 0 <= k < |r| ==> r[k] == ' '
  {
    if n <= 0 then "" else "   " + Indent(n - 1)
  }

  /** The pointer line: three spaces per position, then the caret. */
  function PointerLine(position: int): (r: string)
    ensures |r| == 3 * (if position <= 0 then 0 else position) + 1
    ensures r[|r| - 1] == '^'
    ensures forall k :: 0 <= k < |r| - 1 ==> r[k] == ' '
  {
    Indent(position) + "^"
  }

  /** The two lines of the display, separated by a newline: the spaced input, whose
      symbol i stands in column 3 * i, then blanks up to column 3 * position, where the
      caret ends the display. */
  function DrawInputPointer(input: string, position: int): (r: string)
    ensures var w := |SpacedInput(input)|;
            && |r| == w + 3 * (if position <= 0 then 0 else position) + 2
            && r[..w] == SpacedInput(input)
            && (forall i :: 0 <= i < |input| ==> r[3 * i] == input[i])
            && r[w] == '\n'
            && (forall k :: w < k < |r| - 1 ==> r[k] == ' ')
            && r[|r| - 1] == '^'
  {
    SpacedInput(input) + "\n" + PointerLine(position)
  }

  /** The position the step-by-step view points at when showing path step `stepIdx`:
      the start step points at the first symbol, step k >= 1 at the symbol it consumed. */
  function PointerPosition(stepIdx: nat): nat
  {
    if stepIdx == 0 then 0 else stepIdx - 1
  }

  /** For a position within the input, the display is the spaced input, a newline and a
      line whose only non-blank character is the caret, standing in the same column as
      the symbol at that position. */
  lemma CaretUnderSymbol(input: string, position: int)
    requires 0 <= position < |input|
    ensures var r := DrawInputPointer(input, position);
            var w := 3 * |input| - 2;
            && |r| == w + 3 * position + 2
            && r[..w] == SpacedInput(input)
            && r[w] == '\n'
            && r[3 * position] == input[position]
            && r[w + 1 + 3 * position] == '^'
            && (forall k :: w < k < w + 1 + 3 * position ==> r[k] == ' ')
  {
    var r := DrawInputPointer(input, position);
    var w := 3 * |input| - 2;
    var line := PointerLine(position);
    assert r == SpacedInput(input) + "\n" + line;
    assert r[3 * position] == SpacedInput(input)[3 * position];
    forall k | w < k < w + 1 + 3 * position
      ensures r[k] == ' '
    {
      assert r[k] == line[k - w - 1];
    }
  }

  /** In the step-by-step view of a run, step k >= 1 is shown with the caret under the
      symbol that step consumed, and the start step with the caret under the first
      symbol, which is the next to be read; for an empty input the display is a blank
      line over a lone caret. */
  lemma CaretAtStep(dfa: Dfa, accept: set<State>, input: string, stepIdx: nat)
    requires stepIdx < |Run(dfa, accept, input).path|
    ensures var p := PointerPosition(stepIdx);
            var r := DrawInputPointer(input, p);
            && (|input| == 0 ==> r == "\n^")
            && (|input| > 0 ==>
                  && p < |input|
                  && r[3 * |input| - 1 + 3 * p] == '^'
                  && r[3 * p] == input[p])
            && (stepIdx > 0 ==> Run(dfa, accept, input).path[stepIdx].symbol == Some(input[p]))
  {
    var path := Run(dfa, accept, input).path;
    RunFollowsDelta(dfa, accept, input);
    if |input| > 0 {
      CaretUnderSymbol(input, PointerPosition(stepIdx));
    }
    if stepIdx > 0 {
      assert path[stepIdx] == Step(dfa.delta(path[stepIdx - 1].state, input[stepIdx - 1]).value,
                                   Some(input[stepIdx - 1]));
    }
  }
}
