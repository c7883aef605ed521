/**
  The simulation engine: the step-by-step loops of the simulator, each proved to compute
  the run that `Automaton.Run` describes.
*/
module Engine {
  import opened Wrappers
  import opened Automaton

  /** Walk `input` through `dfa`, collecting the path, and decide acceptance by `accept`
      once the whole input is consumed. Stops early on a symbol outside the alphabet or a
      missing transition, returning the partial path, `false` and the error's message. */
  method Simulate(dfa: Dfa, accept: set<State>, input: string)
    returns (path: seq<Step>, accepted: bool, error: Option<string>)
    ensures var o := Run(dfa, accept, input);
            path == o.path && accepted == o.accepted && error == Describe(o.error)
  {
    var current := dfa.start;
    path := [Step(current, None)];
    for i := 0 to |input|
      invariant Walk(dfa, input[..i]) == Running(path)
      invariant current == path[|path| - 1].state
    {
      var symbol := input[i];
      PrefixStep(input, i);
      if symbol !in dfa.alphabet {
        HaltedIsFinal(dfa, input[..i + 1], input[i + 1..]);
        return path, false, Some(Message(InvalidSymbol(symbol)));
      }
      var next := dfa.delta(current, symbol);
      if next.None? {
        HaltedIsFinal(dfa, input[..i + 1], input[i + 1..]);
        return path, false, Some(Message(NoTransition(current, symbol)));
      }
      path := path + [Step(next.value, Some(symbol))];
      current := next.value;
    }
    assert input[..|input|] == input;
    // The walk goes on through trap states; only the final state decides.
    accepted := current in accept;
    error := None;
  }

  /** The {a,b} simulation: acceptance by the automaton's {a,b} accept set. */
  method SimulateAb(dfa: Dfa, input: string)
    returns (path: seq<Step>, accepted: bool, error: Option<string>)
    ensures var o := Run(dfa, dfa.acceptAb, input);
            path == o.path && accepted == o.accepted && error == Describe(o.error)
  {
    path, accepted, error := Simulate(dfa, dfa.acceptAb, input);
  }

  /** The {0,1} simulation: acceptance by the automaton's {0,1} accept set. */
  method Simulate01(dfa: Dfa, input: string)
    returns (path: seq<Step>, accepted: bool, error: Option<string>)
    ensures var o := Run(dfa, dfa.accept01, input);
            path == o.path && accepted == o.accepted && error == Describe(o.error)
  {
    path, accepted, error := Simulate(dfa, dfa.accept01, input);
  }

  /** The accept set the automaton's own acceptance test uses: the {a,b} one exactly when
      the alphabet is {a,b}, the {0,1} one otherwise. */
  function SelectedAccept(dfa: Dfa): set<State>
  {
    if dfa.alphabet == {'a', 'b'} then dfa.acceptAb else dfa.accept01
  }

  /** The automaton's boolean acceptance test: true exactly when the matching simulation
      reports no error and accepts, i.e. when the extended transition function is defined
      on the input and lands in the selected accept set. */
  method Accepts(dfa: Dfa, input: string) returns (ok: bool)
    ensures var o := Run(dfa, SelectedAccept(dfa), input);
            ok == (o.error.None? && o.accepted)
    ensures ok <==> DeltaStar(dfa, dfa.start, input).Some? &&
                    DeltaStar(dfa, dfa.start, input).value in SelectedAccept(dfa)
  {
    RunMatchesDeltaStar(dfa, SelectedAccept(dfa), input);
    var current := dfa.start;
    ghost var path := [Step(current, None)];
    for i := 0 to |input|
      invariant Walk(dfa, input[..i]) == Running(path)
      invariant current == path[|path| - 1].state
    {
      var symbol := input[i];
      PrefixStep(input, i);
      if symbol !in dfa.alphabet {
        HaltedIsFinal(dfa, input[..i + 1], input[i + 1..]);
        return false;
      }
      var next := dfa.delta(current, symbol);
      if next.None? {
        HaltedIsFinal(dfa, input[..i + 1], input[i + 1..]);
        return false;
      }
      current := next.value;
      path := path + [Step(current, Some(symbol))];
    }
    assert input[..|input|] == input;
    ok := current in SelectedAccept(dfa);
  }
}
