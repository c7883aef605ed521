/**
  The automaton definition and the meaning of a simulation run.

  A `Dfa` is the simulator's DFA object: built once from constant tables and never
  updated. A run is described twice: by `Walk`, which follows the input one symbol at a
  time exactly as the simulation loop does and records the path, and by `DeltaStar`,
  the extended transition function, undefined on a symbol outside the alphabet. The lemmas
  below connect the two and state what every run promises: the shape of the path, the two ways a run can stop early, and
  acceptance decided from the final state only.
*/
module Automaton {
  import opened Wrappers

  /** States are the source's textual labels ("0", "17", "T1", ...). */
  type State = string
  /** Input symbols are single characters. */
  type Symbol = char

  /** The DFA object. It carries both state sets and both accept sets, as the source's
      constructor does; which accept set decides is chosen by the caller. The transition
      table is given by its lookup: `delta(q, c)` is the target listed for the pair (q, c),
      or `None` for a pair the table does not list. */
  datatype Dfa = Dfa(
    statesAb: set<State>,
    states01: set<State>,
    alphabet: set<Symbol>,
    delta: (State, Symbol) -> Option<State>,
    start: State,
    acceptAb: set<State>,
    accept01: set<State>)

  /** One entry of the path: the state reached and the symbol that led there
      (`None` for the initial entry). */
  datatype Step = Step(state: State, symbol: Option<Symbol>)

  /** The two reasons a run stops before the end of its input. */
  datatype SimError =
    | InvalidSymbol(symbol: Symbol)
    | NoTransition(state: State, symbol: Symbol)

  /** What a simulation returns: the path, the verdict and the reason for stopping early. */
  datatype Outcome = Outcome(path: seq<Step>, accepted: bool, error: Option<SimError>)

  /** A run in progress after some prefix of the input: still running, or stopped. */
  datatype Walked = Running(path: seq<Step>) | Halted(path: seq<Step>, error: SimError)

  /** Construction-time sanity of one table: every key and target state is declared, every
      key symbol is in the alphabet, the start state is declared, the accept set is a
      subset of the states. */
  ghost predicate WellFormed(states: set<State>, alphabet: set<Symbol>,
                       delta: (State, Symbol) -> Option<State>, start: State, accept: set<State>)
  {
    && (forall q, c :: delta(q, c).Some? ==> q in states && c in alphabet && delta(q, c).value in states)
    && start in states
    && accept <= states
  }

  /** The text the simulation reports for each kind of early stop. */
  function Message(e: SimError): (m: string)
    ensures |m| >= 3 && m[|m| - 3] == '\'' && m[|m| - 2] == e.symbol && m[|m| - 1] == '\''
  {
    match e
    case InvalidSymbol(c) => "Invalid symbol '" + [c] + "'"
    case NoTransition(q, c) => "No transition from " + q + " on '" + [c] + "'"
  }

  /** An optional error as the simulation reports it: as its message, or not at all. */
  function Describe(e: Option<SimError>): (r: Option<string>)
    ensures r.None? <==> e.None?
    ensures r.Some? ==> |r.value| > 0 && (r.value[0] == 'I' <==> e.value.InvalidSymbol?)
  {
    match e
    case None => None
    case Some(err) => Some(Message(err))
  }

  /** Consume one symbol `c` after the path `p`: reject a symbol outside the alphabet,
      then look the pair (current state, c) up in the partial transition map. */
  function Advance(dfa: Dfa, p: seq<Step>, c: Symbol): (w: Walked)
    requires p != []
    ensures w.Halted? <==> c !in dfa.alphabet || dfa.delta(p[|p| - 1].state, c).None?
    ensures w.Halted? ==> w.path == p && (w.error.InvalidSymbol? <==> c !in dfa.alphabet)
    ensures w.Halted? && c !in dfa.alphabet ==> w.error == InvalidSymbol(c)
    ensures w.Halted? && c in dfa.alphabet ==> w.error == NoTransition(p[|p| - 1].state, c)
    ensures w.Running? ==>
              && |w.path| == |p| + 1 && w.path[..|p|] == p
              && Some(w.path[|p|].state) == dfa.delta(p[|p| - 1].state, c)
              && w.path[|p|].symbol == Some(c)
  {
    var q := p[|p| - 1].state;
    if c !in dfa.alphabet then Halted(p, InvalidSymbol(c))
    else if dfa.delta(q, c).None? then Halted(p, NoTransition(q, c))
    else Running(p + [Step(dfa.delta(q, c).value, Some(c))])
  }

  /** The run over `s`, one symbol at a time. Once stopped, a run stays stopped. */
  function Walk(dfa: Dfa, s: seq<Symbol>): (w: Walked)
    ensures w.path != [] && w.path[0] == Step(dfa.start, None)
    ensures |w.path| <= |s| + 1
    ensures w.Running? ==> |w.path| == |s| + 1
    ensures w.Halted? ==> |w.path| <= |s|
    decreases |s|
  {
    if s == [] then Running([Step(dfa.start, None)])
    else
      match Walk(dfa, s[..|s| - 1])
      case Halted(p, e) => Halted(p, e)
      case Running(p) => Advance(dfa, p, s[|s| - 1])
  }

  /** The result of a simulation that decides acceptance with `accept`. */
  function Run(dfa: Dfa, accept: set<State>, s: seq<Symbol>): (o: Outcome)
    ensures o.path != [] && o.path[0] == Step(dfa.start, None)
    ensures o.error.None? ==> |o.path| == |s| + 1
    ensures o.error.Some? ==> !o.accepted && |o.path| <= |s|
  {
    match Walk(dfa, s)
    case Halted(p, e) => Outcome(p, false, Some(e))
    case Running(p) => Outcome(p, p[|p| - 1].state in accept, None)
  }

  /** The extended transition function: the state reached from `q` over `s`, or `None`
      when some symbol is outside the alphabet or some transition is missing. */
  function DeltaStar(dfa: Dfa, q: State, s: seq<Symbol>): Option<State>
    decreases |s|
  {
    if s == [] then Some(q)
    else if s[0] in dfa.alphabet && dfa.delta(q, s[0]).Some? then DeltaStar(dfa, dfa.delta(q, s[0]).value, s[1..])
    else None
  }

  /** `q` is absorbing when every symbol of the alphabet leads from `q` back to `q`
      (the trap states, and the accepting states 19 and 22 of the {a,b} automaton). */
  ghost predicate Absorbing(dfa: Dfa, q: State)
  {
    forall c :: c in dfa.alphabet ==> dfa.delta(q, c) == Some(q)
  }

  /** Every consecutive pair of path entries is one transition of the table on the
      corresponding input symbol. */
  predicate Follows(dfa: Dfa, s: seq<Symbol>, p: seq<Step>)
  {
    && |p| <= |s| + 1
    && forall i :: 0 <= i < |p| - 1 ==>
         && s[i] in dfa.alphabet
         && dfa.delta(p[i].state, s[i]).Some?
         && p[i + 1] == Step(dfa.delta(p[i].state, s[i]).value, Some(s[i]))
  }

  // ---------------------------------------------------------------------------
  // Lemmas about Walk
  // ---------------------------------------------------------------------------

  /** The step relation: the path is threaded through the transition map. */
  lemma {:induction false} WalkFollowsDelta(dfa: Dfa, s: seq<Symbol>)
    ensures Follows(dfa, s, Walk(dfa, s).path)
    decreases |s|
  {
    if s != [] {
      var s' := s[..|s| - 1];
      WalkFollowsDelta(dfa, s');
      var p := Walk(dfa, s').path;
      forall i | 0 <= i < |p| - 1 ensures s[i] == s'[i] { }
      if Walk(dfa, s').Running? {
        var w := Advance(dfa, p, s[|s| - 1]);
        if w.Running? {
          var p2 := w.path;
          forall i | 0 <= i < |p2| - 1
            ensures && s[i] in dfa.alphabet
                    && dfa.delta(p2[i].state, s[i]).Some?
                    && p2[i + 1] == Step(dfa.delta(p2[i].state, s[i]).value, Some(s[i]))
          {
            if i < |p| - 1 {
              assert p2[i] == p[i] && p2[i + 1] == p[i + 1];
            } else {
              assert i == |s| - 1;
            }
          }
        }
      }
    }
  }

  /** A stopped run stays stopped: no later input changes its outcome. */
  lemma {:induction false} HaltedIsFinal(dfa: Dfa, s: seq<Symbol>, t: seq<Symbol>)
    requires Walk(dfa, s).Halted?
    ensures Walk(dfa, s + t) == Walk(dfa, s)
    decreases |t|
  {
    if t == [] {
      assert s + t == s;
    } else {
      var t' := t[..|t| - 1];
      HaltedIsFinal(dfa, s, t');
      assert (s + t)[..|s + t| - 1] == s + t';
    }
  }

  /** Taking one more symbol of `s` extends the prefix by that symbol, and the longer prefix
      and the rest still make up `s`. */
  lemma PrefixStep(s: seq<Symbol>, i: nat)
    requires i < |s|
    ensures s[..i + 1] == s[..i] + [s[i]]
    ensures s[..i + 1][..i] == s[..i]
    ensures s[..i + 1] + s[i + 1..] == s
  {
  }

  /** A prefix of `s` splits at any point within it. */
  lemma PrefixSplit(s: seq<Symbol>, i: nat, k: nat)
    requires i <= k <= |s|
    ensures s[..k] == s[..i] + s[i..k]
  {
  }

  /** A stopped run stops at the first position `i` whose symbol it cannot consume: the
      prefix before it is fully consumed with the same path of length i + 1, and the error
      names the reason, "invalid symbol" exactly when the symbol is outside the alphabet. */
  lemma {:induction false} StopsAtFirstFailure(dfa: Dfa, s: seq<Symbol>)
    requires Walk(dfa, s).Halted?
    ensures var w := Walk(dfa, s);
            var i := |w.path| - 1;
            && i < |s|
            && Walk(dfa, s[..i]) == Running(w.path)
            && Walk(dfa, s[..i + 1]) == w
            && (w.error == InvalidSymbol(s[i]) <==> s[i] !in dfa.alphabet)
            && (s[i] in dfa.alphabet ==>
                  dfa.delta(w.path[i].state, s[i]).None? && w.error == NoTransition(w.path[i].state, s[i]))
    decreases |s|
  {
    var s' := s[..|s| - 1];
    if Walk(dfa, s').Halted? {
      assert Walk(dfa, s) == Walk(dfa, s');
      StopsAtFirstFailure(dfa, s');
      var i := |Walk(dfa, s').path| - 1;
      assert s'[..i] == s[..i] && s'[..i + 1] == s[..i + 1] && s'[i] == s[i];
    } else {
      var p := Walk(dfa, s').path;
      assert Walk(dfa, s) == Advance(dfa, p, s[|s| - 1]);
      assert s[..|s|] == s;
    }
  }

  // ---------------------------------------------------------------------------
  // Walk and DeltaStar agree
  // ---------------------------------------------------------------------------

  /** Extending the input by one symbol extends the extended transition function by one
      lookup. */
  lemma {:induction false} DeltaStarSnoc(dfa: Dfa, q: State, s: seq<Symbol>, c: Symbol)
    ensures DeltaStar(dfa, q, s + [c]) ==
      match DeltaStar(dfa, q, s)
      case None => None
      case Some(r) => if c in dfa.alphabet && dfa.delta(r, c).Some? then dfa.delta(r, c) else None
    decreases |s|
  {
    if s == [] {
      assert [c][1..] == [];
    } else {
      assert (s + [c])[1..] == s[1..] + [c];
      if s[0] in dfa.alphabet && dfa.delta(q, s[0]).Some? {
        DeltaStarSnoc(dfa, dfa.delta(q, s[0]).value, s[1..], c);
      }
    }
  }

  /** The extended transition function over a concatenation. */
  lemma {:induction false} DeltaStarAppend(dfa: Dfa, q: State, u: seq<Symbol>, v: seq<Symbol>)
    ensures DeltaStar(dfa, q, u + v) ==
      match DeltaStar(dfa, q, u)
      case None => None
      case Some(r) => DeltaStar(dfa, r, v)
    decreases |u|
  {
    if u == [] {
      assert u + v == v;
    } else {
      assert (u + v)[1..] == u[1..] + v;
      if u[0] in dfa.alphabet && dfa.delta(q, u[0]).Some? {
        DeltaStarAppend(dfa, dfa.delta(q, u[0]).value, u[1..], v);
      }
    }
  }

  /** The run consumes all of `s` exactly when the extended transition function is
      defined on `s`, and then it ends in the state that function gives. */
  lemma {:induction false} WalkAgreesWithDeltaStar(dfa: Dfa, s: seq<Symbol>)
    ensures Walk(dfa, s).Running? <==> DeltaStar(dfa, dfa.start, s).Some?
    ensures Walk(dfa, s).Running? ==>
              Walk(dfa, s).path[|s|].state == DeltaStar(dfa, dfa.start, s).value
    decreases |s|
  {
    if s != [] {
      var s' := s[..|s| - 1];
      var c := s[|s| - 1];
      WalkAgreesWithDeltaStar(dfa, s');
      assert s' + [c] == s;
      DeltaStarSnoc(dfa, dfa.start, s', c);
    }
  }

  // ---------------------------------------------------------------------------
  // What a simulation promises
  // ---------------------------------------------------------------------------

  /** The verdict of a run agrees with the extended transition function: no error exactly
      when it is defined, and acceptance exactly when it is defined and lands in `accept`,
      judged by the last state of the path. */
  lemma RunMatchesDeltaStar(dfa: Dfa, accept: set<State>, s: seq<Symbol>)
    ensures var o := Run(dfa, accept, s);
            && (o.error.None? <==> DeltaStar(dfa, dfa.start, s).Some?)
            && (o.error.None? ==> o.path[|s|].state == DeltaStar(dfa, dfa.start, s).value)
            && (o.error.None? && o.accepted <==>
                  DeltaStar(dfa, dfa.start, s).Some? && DeltaStar(dfa, dfa.start, s).value in accept)
  {
    WalkAgreesWithDeltaStar(dfa, s);
  }

  /** The path of every run is threaded through the transition map, one input symbol per
      entry after the first. */
  lemma RunFollowsDelta(dfa: Dfa, accept: set<State>, s: seq<Symbol>)
    ensures Follows(dfa, s, Run(dfa, accept, s).path)
  {
    WalkFollowsDelta(dfa, s);
  }

  /** A run that reports an error stopped at position i = |path| - 1: everything before i
      was consumed (the prefix alone runs without error and gives the same path), and the
      two kinds of error are told apart by the symbol at i. */
  lemma RunStopsAtFirstFailure(dfa: Dfa, accept: set<State>, s: seq<Symbol>)
    requires Run(dfa, accept, s).error.Some?
    ensures var o := Run(dfa, accept, s);
            var i := |o.path| - 1;
            && i < |s|
            && !o.accepted
            && Run(dfa, accept, s[..i]).error.None?
            && Run(dfa, accept, s[..i]).path == o.path
            && (o.error == Some(InvalidSymbol(s[i])) <==> s[i] !in dfa.alphabet)
            && (s[i] in dfa.alphabet ==>
                  dfa.delta(o.path[i].state, s[i]).None? && o.error == Some(NoTransition(o.path[i].state, s[i])))
  {
    StopsAtFirstFailure(dfa, s);
  }

  /** The converse of the previous lemma: if the input is consumed up to a prefix `u` and
      the next symbol `c` cannot be consumed, the run stops right there, whatever follows,
      with the path of `u`, no acceptance, and the error naming the reason. */
  lemma RunFailsAt(dfa: Dfa, accept: set<State>, u: seq<Symbol>, c: Symbol, v: seq<Symbol>)
    requires DeltaStar(dfa, dfa.start, u).Some?
    requires c !in dfa.alphabet || dfa.delta(DeltaStar(dfa, dfa.start, u).value, c).None?
    ensures var o := Run(dfa, accept, u + [c] + v);
            var q := DeltaStar(dfa, dfa.start, u).value;
            && o.path == Run(dfa, accept, u).path
            && |o.path| == |u| + 1
            && !o.accepted
            && o.error == Some(if c !in dfa.alphabet then InvalidSymbol(c) else NoTransition(q, c))
  {
    WalkAgreesWithDeltaStar(dfa, u);
    assert (u + [c])[..|u + [c]| - 1] == u;
    HaltedIsFinal(dfa, u + [c], v);
  }

  /** A state sequence threaded through the table along `s` is the run: the extended
      transition function from its first state over `s` ends in its last state. */
  lemma {:induction false} DeltaStarAlongPath(dfa: Dfa, s: seq<Symbol>, states: seq<State>)
    requires |states| == |s| + 1
    requires forall i :: 0 <= i < |s| ==>
               s[i] in dfa.alphabet && dfa.delta(states[i], s[i]) == Some(states[i + 1])
    ensures DeltaStar(dfa, states[0], s) == Some(states[|s|])
    decreases |s|
  {
    if s != [] {
      DeltaStarAlongPath(dfa, s[1..], states[1..]);
    }
  }

  /** The run along a threaded state sequence: it consumes all of `s` without error,
      visits exactly those states, and accepts exactly when the last one is accepting. */
  lemma RunAlongPath(dfa: Dfa, accept: set<State>, s: seq<Symbol>, states: seq<State>)
    requires |states| == |s| + 1 && states[0] == dfa.start
    requires forall i :: 0 <= i < |s| ==>
               s[i] in dfa.alphabet && dfa.delta(states[i], s[i]) == Some(states[i + 1])
    ensures var o := Run(dfa, accept, s);
            && o.error.None?
            && |o.path| == |s| + 1
            && (forall i :: 0 <= i <= |s| ==> o.path[i].state == states[i])
            && o.accepted == (states[|s|] in accept)
  {
    RunFollowsDelta(dfa, accept, s);
    DeltaStarAlongPath(dfa, s, states);
    RunMatchesDeltaStar(dfa, accept, s);
    var p := Run(dfa, accept, s).path;
    forall i | 0 <= i <= |s|
      ensures p[i].state == states[i]
    {
      StateAt(dfa, s, p, states, i);
    }
  }

  /** Helper for `RunAlongPath`: two paths threaded through the table along the same input
      from the same start agree at every position. */
  lemma {:induction false} StateAt(dfa: Dfa, s: seq<Symbol>, p: seq<Step>, states: seq<State>, i: nat)
    requires |p| == |s| + 1 == |states| && Follows(dfa, s, p)
    requires p[0].state == states[0]
    requires forall j :: 0 <= j < |s| ==> dfa.delta(states[j], s[j]) == Some(states[j + 1])
    requires i <= |s|
    ensures p[i].state == states[i]
    decreases i
  {
    if i > 0 {
      StateAt(dfa, s, p, states, i - 1);
    }
  }

  /** A symbol outside the alphabet anywhere in the input makes the run fail. If the run
      gets as far as the first such symbol, the error is "invalid symbol" for it and the
      path has one entry per symbol before it, plus the initial one. */
  lemma AlphabetGating(dfa: Dfa, accept: set<State>, s: seq<Symbol>, k: nat)
    requires k < |s| && s[k] !in dfa.alphabet
    ensures Run(dfa, accept, s).error.Some? && !Run(dfa, accept, s).accepted
    ensures (forall j :: 0 <= j < k ==> s[j] in dfa.alphabet) && Run(dfa, accept, s[..k]).error.None? ==>
              Run(dfa, accept, s) == Outcome(Run(dfa, accept, s[..k]).path, false, Some(InvalidSymbol(s[k])))
              && |Run(dfa, accept, s).path| == k + 1
  {
    WalkFollowsDelta(dfa, s);
    var w := Walk(dfa, s);
    if (forall j :: 0 <= j < k ==> s[j] in dfa.alphabet) && Walk(dfa, s[..k]).Running? {
      StopsAtFirstFailure(dfa, s);
      var i := |w.path| - 1;
      var p := Walk(dfa, s[..k]).path;
      if i < k {
        // The prefix s[..k] would have stopped at i as well.
        PrefixSplit(s, i + 1, k);
        HaltedIsFinal(dfa, s[..i + 1], s[i + 1..k]);
        assert false;
      }
      assert Walk(dfa, s[..k]) == Running(w.path);
    }
  }

  /** An absorbing state keeps the extended transition function where it is on every
      string over the alphabet. */
  lemma {:induction false} AbsorbingStays(dfa: Dfa, q: State, v: seq<Symbol>)
    requires Absorbing(dfa, q)
    requires forall j :: 0 <= j < |v| ==> v[j] in dfa.alphabet
    ensures DeltaStar(dfa, q, v) == Some(q)
    decreases |v|
  {
    if v != [] {
      AbsorbingStays(dfa, q, v[1..]);
    }
  }

  /** Reaching an absorbing state does not stop the run: if the run over `u` ends in such
      a state `q`, the run over `u + v`, for any `v` over the alphabet, consumes all of it,
      reports no error, ends in `q` and is accepted exactly when `q` is accepting. */
  lemma AbsorbingDoesNotHalt(dfa: Dfa, accept: set<State>, u: seq<Symbol>, q: State, v: seq<Symbol>)
    requires Run(dfa, accept, u).error.None? && Run(dfa, accept, u).path[|u|].state == q
    requires Absorbing(dfa, q)
    requires forall j :: 0 <= j < |v| ==> v[j] in dfa.alphabet
    ensures var o := Run(dfa, accept, u + v);
            && o.error.None?
            && |o.path| == |u| + |v| + 1
            && o.path[|u| + |v|].state == q
            && o.accepted == (q in accept)
  {
    RunMatchesDeltaStar(dfa, accept, u);
    DeltaStarAppend(dfa, dfa.start, u, v);
    AbsorbingStays(dfa, q, v);
    RunMatchesDeltaStar(dfa, accept, u + v);
  }

  /** The middle part of a concatenation of three strings is recovered by slicing. */
  lemma MiddleOfConcat(a: string, b: string, c: string)
    ensures (a + b + c)[|a|..|a| + |b|] == b
  {
    assert forall k :: 0 <= k < |b| ==> (a + b + c)[|a| + k] == b[k];
  }

  /** The two kinds of error stay distinguishable through their messages: different
      errors never give the same text. */
  lemma MessageInjective(e1: SimError, e2: SimError)
    requires Message(e1) == Message(e2)
    ensures e1 == e2
  {
    var m := Message(e1);
    if e1.InvalidSymbol? && e2.InvalidSymbol? {
      assert m[16] == e1.symbol && m[16] == e2.symbol;
    } else if e1.NoTransition? && e2.NoTransition? {
      var pre := "No transition from ";
      assert |e1.state| == |m| - 26 == |e2.state|;
      assert m == pre + e1.state + (" on '" + [e1.symbol] + "'");
      assert m == pre + e2.state + (" on '" + [e2.symbol] + "'");
      MiddleOfConcat(pre, e1.state, " on '" + [e1.symbol] + "'");
      MiddleOfConcat(pre, e2.state, " on '" + [e2.symbol] + "'");
    }
  }

  /** The reported text tells the errors apart as well: the simulation returns only the
      text, and from it the error, or its absence, is determined. */
  lemma DescribeInjective(e1: Option<SimError>, e2: Option<SimError>)
    requires Describe(e1) == Describe(e2)
    ensures e1 == e2
  {
    if e1.Some? && e2.Some? {
      MessageInjective(e1.value, e2.value);
    }
  }
}
