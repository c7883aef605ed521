/**
  Runs of the two concrete automata on the strings the simulator lists as examples of
  valid and invalid input, and on inputs that reach a trap state, an accepting sink, the
  one missing transition of each table and a symbol outside the alphabet.
*/
module Samples {
  import opened Wrappers
  import opened Automaton
  import opened Tables

  /** The empty input: the path is the start state alone, there is no error, and it is
      rejected since the start state does not accept. */
  lemma EmptyInputAb()
    ensures Run(AbDfa, AbDfa.acceptAb, "") == Outcome([Step("0", None)], false, None)
  {
  }

  // ---------------------------------------------------------------------------
  // Stretches of the example strings, each followed through its table
  // ---------------------------------------------------------------------------

  // Each stretch takes its string as a parameter fixed by `requires` rather than writing
  // the literal into its conclusion: the verifier then follows the table once per
  // position instead of unfolding the literal inside the goal, which keeps these proofs
  // cheap. The longer examples are cut into stretches of at most ten symbols, joined with
  // `DeltaStarAppend`.

  /** The first nine symbols of the first valid {a,b} example lead from 0 to 12. */
  lemma StretchAb1(u: string)
    requires u == "aabbbabaa"
    ensures DeltaStar(AbDfa, "0", u) == Some("12")
  {
    var states := ["0", "2", "3", "5", "8", "9", "10", "11", "10", "12"];
    forall i | 0 <= i < |u|
      ensures u[i] in AbDfa.alphabet && AbDfa.delta(states[i], u[i]) == Some(states[i + 1])
    {
      // one case per position
      assert i == 0 || i == 1 || i == 2 || i == 3 || i == 4 || i == 5 || i == 6 || i == 7 || i == 8;
    }
    DeltaStarAlongPath(AbDfa, u, states);
  }

  /** The next ten lead from 12 to the accepting sink 19. */
  lemma StretchAb2(u: string)
    requires u == "abbbbaaaaa"
    ensures DeltaStar(AbDfa, "12", u) == Some("19")
  {
    var states := ["12", "14", "14", "14", "14", "14", "15", "16", "17", "18", "19"];
    forall i | 0 <= i < |u|
      ensures u[i] in AbDfa.alphabet && AbDfa.delta(states[i], u[i]) == Some(states[i + 1])
    {
      // one case per position
      assert i == 0 || i == 1 || i == 2 || i == 3 || i == 4 || i == 5 || i == 6 || i == 7 || i == 8 ||
             i == 9;
    }
    DeltaStarAlongPath(AbDfa, u, states);
  }

  /** The first invalid {a,b} example leads from 0 to 11. */
  lemma StretchAb3(u: string)
    requires u == "bbbbbabab"
    ensures DeltaStar(AbDfa, "0", u) == Some("11")
  {
    var states := ["0", "1", "3", "5", "8", "9", "10", "11", "10", "11"];
    forall i | 0 <= i < |u|
      ensures u[i] in AbDfa.alphabet && AbDfa.delta(states[i], u[i]) == Some(states[i + 1])
    {
      // one case per position
      assert i == 0 || i == 1 || i == 2 || i == 3 || i == 4 || i == 5 || i == 6 || i == 7 || i == 8;
    }
    DeltaStarAlongPath(AbDfa, u, states);
  }

  /** The first seven symbols of the first valid {0,1} example lead from 0 to 17. */
  lemma Stretch01_1(u: string)
    requires u == "0011000"
    ensures DeltaStar(ZeroOneDfa, "0", u) == Some("17")
  {
    var states := ["0", "1", "2", "3", "5", "9", "13", "17"];
    forall i | 0 <= i < |u|
      ensures u[i] in ZeroOneDfa.alphabet && ZeroOneDfa.delta(states[i], u[i]) == Some(states[i + 1])
    {
      // one case per position
      assert i == 0 || i == 1 || i == 2 || i == 3 || i == 4 || i == 5 || i == 6;
    }
    DeltaStarAlongPath(ZeroOneDfa, u, states);
  }

  /** Its remaining six lead from 17 to 32. */
  lemma Stretch01_2(u: string)
    requires u == "000111"
    ensures DeltaStar(ZeroOneDfa, "17", u) == Some("32")
  {
    var states := ["17", "21", "23", "26", "30", "31", "32"];
    forall i | 0 <= i < |u|
      ensures u[i] in ZeroOneDfa.alphabet && ZeroOneDfa.delta(states[i], u[i]) == Some(states[i + 1])
    {
      // one case per position
      assert i == 0 || i == 1 || i == 2 || i == 3 || i == 4 || i == 5;
    }
    DeltaStarAlongPath(ZeroOneDfa, u, states);
  }

  /** The first six symbols of the first invalid {0,1} example lead from 0 to 7. */
  lemma Stretch01_3(u: string)
    requires u == "000010"
    ensures DeltaStar(ZeroOneDfa, "0", u) == Some("7")
  {
    var states := ["0", "1", "2", "4", "5", "6", "7"];
    forall i | 0 <= i < |u|
      ensures u[i] in ZeroOneDfa.alphabet && ZeroOneDfa.delta(states[i], u[i]) == Some(states[i + 1])
    {
      // one case per position
      assert i == 0 || i == 1 || i == 2 || i == 3 || i == 4 || i == 5;
    }
    DeltaStarAlongPath(ZeroOneDfa, u, states);
  }

  /** Its remaining six lead from 7 to 22. */
  lemma Stretch01_4(u: string)
    requires u == "000111"
    ensures DeltaStar(ZeroOneDfa, "7", u) == Some("22")
  {
    var states := ["7", "5", "9", "13", "16", "20", "22"];
    forall i | 0 <= i < |u|
      ensures u[i] in ZeroOneDfa.alphabet && ZeroOneDfa.delta(states[i], u[i]) == Some(states[i + 1])
    {
      // one case per position
      assert i == 0 || i == 1 || i == 2 || i == 3 || i == 4 || i == 5;
    }
    DeltaStarAlongPath(ZeroOneDfa, u, states);
  }

  /** "01" leads from 22 to 29. */
  lemma Stretch01_5(u: string)
    requires u == "01"
    ensures DeltaStar(ZeroOneDfa, "22", u) == Some("29")
  {
    var states := ["22", "25", "29"];
    forall i | 0 <= i < |u|
      ensures u[i] in ZeroOneDfa.alphabet && ZeroOneDfa.delta(states[i], u[i]) == Some(states[i + 1])
    {
      // one case per position
      assert i == 0 || i == 1;
    }
    DeltaStarAlongPath(ZeroOneDfa, u, states);
  }

  /** "bbba" leads from 0 to 7. */
  lemma StretchAb4(u: string)
    requires u == "bbba"
    ensures DeltaStar(AbDfa, "0", u) == Some("7")
  {
    var states := ["0", "1", "3", "5", "7"];
    forall i | 0 <= i < |u|
      ensures u[i] in AbDfa.alphabet && AbDfa.delta(states[i], u[i]) == Some(states[i + 1])
    {
      // one case per position
      assert i == 0 || i == 1 || i == 2 || i == 3;
    }
    DeltaStarAlongPath(AbDfa, u, states);
  }

  /** "aa" leads from 0 to 3. */
  lemma StretchAb5(u: string)
    requires u == "aa"
    ensures DeltaStar(AbDfa, "0", u) == Some("3")
  {
    var states := ["0", "2", "3"];
    forall i | 0 <= i < |u|
      ensures u[i] in AbDfa.alphabet && AbDfa.delta(states[i], u[i]) == Some(states[i + 1])
    {
      // one case per position
      assert i == 0 || i == 1;
    }
    DeltaStarAlongPath(AbDfa, u, states);
  }

  /** "ba" leads from 0 to the trap state T1. */
  lemma StretchAb6(u: string)
    requires u == "ba"
    ensures DeltaStar(AbDfa, "0", u) == Some("T1")
  {
    var states := ["0", "1", "T1"];
    forall i | 0 <= i < |u|
      ensures u[i] in AbDfa.alphabet && AbDfa.delta(states[i], u[i]) == Some(states[i + 1])
    {
      // one case per position
      assert i == 0 || i == 1;
    }
    DeltaStarAlongPath(AbDfa, u, states);
  }

  // ---------------------------------------------------------------------------
  // The example strings of the simulator
  // ---------------------------------------------------------------------------

  /** The accepting state 19 is a sink: every continuation over the alphabet of a prefix
      that reaches it is accepted. */
  lemma AcceptingSinkAb(u: string, v: seq<Symbol>)
    requires u == "aabbbabaaabbbbaaaaa"
    requires forall j :: 0 <= j < |v| ==> v[j] in {'a', 'b'}
    ensures var o := Run(AbDfa, AbDfa.acceptAb, u + v);
            o.error.None? && o.accepted && |o.path| == |v| + 20 && o.path[|v| + 19].state == "19"
  {
    var u1, u2 := "aabbbabaa", "abbbbaaaaa";
    assert u == u1 + u2;
    StretchAb1(u1);
    StretchAb2(u2);
    DeltaStarAppend(AbDfa, "0", u1, u2);
    RunMatchesDeltaStar(AbDfa, AbDfa.acceptAb, u);
    AcceptingSinksAb();
    AbsorbingDoesNotHalt(AbDfa, AbDfa.acceptAb, u, "19", v);
  }

  /** Listed as valid for the a and b language: accepted, ending in 19. */
  lemma ValidAb(u: string, v: string)
    requires u == "aabbbabaaabbbbaaaaa" && v == "aaabbbab"
    ensures var o := Run(AbDfa, AbDfa.acceptAb, u + v);
            o.error.None? && o.accepted && |o.path| == 28 && o.path[27].state == "19"
  {
    forall j | 0 <= j < |v|
      ensures v[j] in {'a', 'b'}
    {
      // one case per position
      assert j == 0 || j == 1 || j == 2 || j == 3 || j == 4 || j == 5 || j == 6 || j == 7;
    }
    AcceptingSinkAb(u, v);
  }

  /** Listed as invalid for the a and b language: the whole input is consumed without
      error, ending in 11, which does not accept. */
  lemma InvalidAb(s: string)
    requires s == "bbbbbabab"
    ensures var o := Run(AbDfa, AbDfa.acceptAb, s);
            o.error.None? && !o.accepted && |o.path| == 10 && o.path[9].state == "11"
  {
    StretchAb3(s);
    RunMatchesDeltaStar(AbDfa, AbDfa.acceptAb, s);
  }

  /** Listed as valid for the 0 and 1 language: accepted, ending in 32. */
  lemma Valid01(u: string, v: string)
    requires u == "0011000" && v == "000111"
    ensures var o := Run(ZeroOneDfa, ZeroOneDfa.accept01, u + v);
            o.error.None? && o.accepted && |o.path| == 14 && o.path[13].state == "32"
  {
    Stretch01_1(u);
    Stretch01_2(v);
    DeltaStarAppend(ZeroOneDfa, "0", u, v);
    RunMatchesDeltaStar(ZeroOneDfa, ZeroOneDfa.accept01, u + v);
  }

  /** Listed as invalid for the 0 and 1 language: consumed without error, ending in 22,
      which does not accept. */
  lemma Invalid01(u: string, v: string)
    requires u == "000010" && v == "000111"
    ensures var o := Run(ZeroOneDfa, ZeroOneDfa.accept01, u + v);
            o.error.None? && !o.accepted && |o.path| == 13 && o.path[12].state == "22"
  {
    Stretch01_3(u);
    Stretch01_4(v);
    DeltaStarAppend(ZeroOneDfa, "0", u, v);
    RunMatchesDeltaStar(ZeroOneDfa, ZeroOneDfa.accept01, u + v);
  }

  // ---------------------------------------------------------------------------
  // Traps and the two ways a run stops
  // ---------------------------------------------------------------------------

  /** A run that enters the trap state T1 (after "ba") is not cut short: every
      continuation over the alphabet is consumed without error and rejected in T1. */
  lemma TrapDoesNotHaltAb(u: string, v: seq<Symbol>)
    requires u == "ba"
    requires forall j :: 0 <= j < |v| ==> v[j] in {'a', 'b'}
    ensures var o := Run(AbDfa, AbDfa.acceptAb, u + v);
            o.error.None? && !o.accepted && |o.path| == |v| + 3 && o.path[|v| + 2].state == "T1"
  {
    StretchAb6(u);
    RunMatchesDeltaStar(AbDfa, AbDfa.acceptAb, u);
    TrapsAb();
    AbsorbingDoesNotHalt(AbDfa, AbDfa.acceptAb, u, "T1", v);
  }

  /** The {a,b} table has no entry for (7, a): after "bbba" the run sits in 7, and the
      next 'a' stops it there, whatever follows. */
  lemma NoTransitionAb(u: string, v: seq<Symbol>)
    requires u == "bbba"
    ensures var o := Run(AbDfa, AbDfa.acceptAb, u + ['a'] + v);
            && o.error == Some(NoTransition("7", 'a'))
            && !o.accepted
            && |o.path| == 5
            && Describe(o.error) == Some("No transition from 7 on 'a'")
  {
    StretchAb4(u);
    RunFailsAt(AbDfa, AbDfa.acceptAb, u, 'a', v);
    assert Message(NoTransition("7", 'a')) == "No transition from 7 on 'a'";
  }

  /** A symbol outside the alphabet stops the run where it occurs. */
  lemma InvalidSymbolAb(u: string, v: seq<Symbol>)
    requires u == "aa"
    ensures var o := Run(AbDfa, AbDfa.acceptAb, u + ['c'] + v);
            && o.error == Some(InvalidSymbol('c'))
            && !o.accepted
            && |o.path| == 3
            && Describe(o.error) == Some("Invalid symbol 'c'")
  {
    StretchAb5(u);
    RunFailsAt(AbDfa, AbDfa.acceptAb, u, 'c', v);
    assert Message(InvalidSymbol('c')) == "Invalid symbol 'c'";
  }

  /** The first failure decides the error: "bbbaac" holds a symbol outside the alphabet,
      yet the run reports the missing transition it meets first. */
  lemma FirstFailureDecidesAb(s: string)
    requires s == "bbbaac"
    ensures 'c' in s && 'c' !in AbDfa.alphabet
    ensures Run(AbDfa, AbDfa.acceptAb, s).error == Some(NoTransition("7", 'a'))
  {
    NoTransitionAb("bbba", "c");
    assert "bbba" + ['a'] + "c" == s;
    assert s[5] == 'c';
  }

  /** The {0,1} table has no entry for (29, 0): the first invalid example leads to 22,
      "01" continues to 29, and a following '0' stops the run there. */
  lemma NoTransition01(u1: string, u2: string, u3: string, v: seq<Symbol>)
    requires u1 == "000010" && u2 == "000111" && u3 == "01"
    ensures var o := Run(ZeroOneDfa, ZeroOneDfa.accept01, u1 + u2 + u3 + ['0'] + v);
            && o.error == Some(NoTransition("29", '0'))
            && !o.accepted
            && |o.path| == 15
  {
    Stretch01_3(u1);
    Stretch01_4(u2);
    Stretch01_5(u3);
    DeltaStarAppend(ZeroOneDfa, "0", u1, u2);
    DeltaStarAppend(ZeroOneDfa, "0", u1 + u2, u3);
    RunFailsAt(ZeroOneDfa, ZeroOneDfa.accept01, u1 + u2 + u3, '0', v);
  }
}
