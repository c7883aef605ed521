/**
  The simulator's two concrete automata: the {a,b} table and the {0,1} table, their state
  and accept sets, and the facts about them that the simulator relies on.

  Each table is written as its lookup: the target listed for a (state, symbol) pair, or
  `None` for a pair the table does not list. The {a,b} table is written in the source
  with three keys given twice; as in any dictionary display, the later entry is the one
  that takes effect, and it is the one recorded here.
*/
module Tables {
  import opened Wrappers
  import opened Automaton
  import opened Engine

  const StartState: State := "0"

  const StatesAb: set<State> := {
    "0", "1", "2", "3", "4", "5", "6", "7", "8", "9", "10", "11", "12", "13",
    "14", "15", "16", "17", "18", "19", "20", "21", "22", "T1", "T2"
  }

  const States01: set<State> := {
    "0", "1", "2", "3", "4", "5", "6", "7", "8", "9", "10", "11", "12", "13",
    "14", "15", "16", "17", "18", "19", "20", "21", "22", "23", "24", "25", "26",
    "27", "28", "29", "30", "31", "32", "33", "34", "T1", "T2", "T3"
  }

  const AcceptAb: set<State> := {"19", "22"}
  const Accept01: set<State> := {"30", "31", "32"}

  /** The transition table of the {a,b} automaton: every listed pair is a declared state
      and a symbol of its alphabet, and leads to a declared state. */
  function TransitionAb(q: State, c: Symbol): (r: Option<State>)
    ensures r.Some? ==> q in StatesAb && c in {'a', 'b'} && r.value in StatesAb
  {
    match q
    case "0" => (match c case 'b' => Some("1") case 'a' => Some("2") case _ => None)
    case "1" => (match c case 'b' => Some("3") case 'a' => Some("T1") case _ => None)  // (1, b) is listed twice; the later entry wins
    case "2" => (match c case 'b' => Some("T1") case 'a' => Some("3") case _ => None)  // (2, a) likewise
    case "T1" => (match c case 'a' => Some("T1") case 'b' => Some("T1") case _ => None)
    case "3" => (match c case 'b' => Some("5") case 'a' => Some("4") case _ => None)
    case "4" => (match c case 'b' => Some("6") case 'a' => Some("T2") case _ => None)
    case "T2" => (match c case 'a' => Some("T2") case 'b' => Some("T2") case _ => None)
    case "5" => (match c case 'a' => Some("7") case 'b' => Some("8") case _ => None)
    case "6" => (match c case 'a' => Some("9") case 'b' => Some("T2") case _ => None)
    case "7" => (match c case 'b' => Some("9") case _ => None)
    case "8" => (match c case 'b' => Some("9") case 'a' => Some("T2") case _ => None)
    case "9" => (match c case 'a' => Some("10") case 'b' => Some("11") case _ => None)
    case "10" => (match c case 'a' => Some("12") case 'b' => Some("11") case _ => None)
    case "11" => (match c case 'b' => Some("12") case 'a' => Some("10") case _ => None)
    case "12" => (match c case 'b' => Some("13") case 'a' => Some("14") case _ => None)
    case "13" => (match c case 'b' => Some("12") case 'a' => Some("10") case _ => None)
    case "14" => (match c case 'b' => Some("14") case 'a' => Some("15") case _ => None)
    case "15" => (match c case 'b' => Some("15") case 'a' => Some("16") case _ => None)
    case "16" => (match c case 'b' => Some("20") case 'a' => Some("17") case _ => None)  // (16, b) likewise
    case "17" => (match c case 'a' => Some("18") case 'b' => Some("16") case _ => None)
    case "18" => (match c case 'a' => Some("19") case 'b' => Some("16") case _ => None)
    case "20" => (match c case 'b' => Some("21") case 'a' => Some("16") case _ => None)
    case "21" => (match c case 'b' => Some("22") case 'a' => Some("16") case _ => None)
    case "22" => (match c case 'b' => Some("22") case 'a' => Some("22") case _ => None)
    case "19" => (match c case 'a' => Some("19") case 'b' => Some("19") case _ => None)
    case _ => None
  }

  /** The transition table of the {0,1} automaton, likewise over its own states. */
  function Transition01(q: State, c: Symbol): (r: Option<State>)
    ensures r.Some? ==> q in States01 && c in {'0', '1'} && r.value in States01
  {
    match q
    case "0" => (match c case '1' => Some("0") case '0' => Some("1") case _ => None)
    case "1" => (match c case '1' => Some("1") case '0' => Some("2") case _ => None)
    case "2" => (match c case '1' => Some("3") case '0' => Some("4") case _ => None)
    case "3" => (match c case '1' => Some("5") case '0' => Some("T1") case _ => None)
    case "4" => (match c case '1' => Some("T1") case '0' => Some("5") case _ => None)
    case "T1" => (match c case '1' => Some("T1") case '0' => Some("T1") case _ => None)
    case "5" => (match c case '1' => Some("6") case '0' => Some("9") case _ => None)
    case "6" => (match c case '0' => Some("7") case '1' => Some("12") case _ => None)
    case "7" => (match c case '0' => Some("5") case '1' => Some("10") case _ => None)
    case "9" => (match c case '1' => Some("8") case '0' => Some("13") case _ => None)
    case "8" => (match c case '1' => Some("5") case '0' => Some("11") case _ => None)
    case "11" => (match c case '1' => Some("9") case '0' => Some("21") case _ => None)
    case "12" => (match c case '1' => Some("14") case '0' => Some("15") case _ => None)
    case "14" => (match c case '1' => Some("18") case '0' => Some("T1") case _ => None)
    case "15" => (match c case '0' => Some("19") case '1' => Some("T1") case _ => None)
    case "13" => (match c case '1' => Some("16") case '0' => Some("17") case _ => None)
    case "16" => (match c case '1' => Some("20") case '0' => Some("T2") case _ => None)
    case "17" => (match c case '0' => Some("21") case '1' => Some("T2") case _ => None)
    case "T2" => (match c case '1' => Some("T2") case '0' => Some("T2") case _ => None)
    case "10" => (match c case '1' => Some("18") case '0' => Some("6") case _ => None)
    case "18" => (match c case '1' => Some("22") case '0' => Some("23") case _ => None)
    case "19" => (match c case '0' => Some("23") case '1' => Some("22") case _ => None)
    case "20" => (match c case '0' => Some("23") case '1' => Some("22") case _ => None)
    case "21" => (match c case '0' => Some("23") case '1' => Some("22") case _ => None)
    case "22" => (match c case '0' => Some("25") case '1' => Some("24") case _ => None)
    case "24" => (match c case '0' => Some("24") case '1' => Some("28") case _ => None)
    case "25" => (match c case '1' => Some("29") case '0' => Some("T2") case _ => None)
    case "29" => (match c case '1' => Some("30") case _ => None)
    case "28" => (match c case '0' => Some("28") case '1' => Some("30") case _ => None)
    case "23" => (match c case '1' => Some("30") case '0' => Some("26") case _ => None)
    case "26" => (match c case '1' => Some("30") case '0' => Some("27") case _ => None)
    case "27" => (match c case '0' => Some("21") case '1' => Some("30") case _ => None)
    case "30" => (match c case '1' => Some("31") case '0' => Some("30") case _ => None)
    case "31" => (match c case '1' => Some("32") case '0' => Some("31") case _ => None)
    case "32" => (match c case '1' => Some("33") case '0' => Some("34") case _ => None)
    case "33" => (match c case '1' => Some("32") case '0' => Some("T3") case _ => None)
    case "34" => (match c case '0' => Some("32") case '1' => Some("T3") case _ => None)
    case "T3" => (match c case '1' => Some("T3") case '0' => Some("T3") case _ => None)
    case _ => None
  }

  /** The DFA built when the "a and b" language is selected. */
  const AbDfa: Dfa := Dfa(StatesAb, States01, {'a', 'b'}, TransitionAb, StartState, AcceptAb, Accept01)
  /** The DFA built when the "0 and 1" language is selected. */
  const ZeroOneDfa: Dfa := Dfa(StatesAb, States01, {'0', '1'}, Transition01, StartState, AcceptAb, Accept01)

  // ---------------------------------------------------------------------------
  // Facts about the two tables
  // ---------------------------------------------------------------------------

  /** Each automaton is well formed over its own state set, alphabet and accept set. */
  lemma WellFormedAb()
    ensures WellFormed(StatesAb, {'a', 'b'}, TransitionAb, StartState, AcceptAb)
  {
  }

  lemma WellFormed01()
    ensures WellFormed(States01, {'0', '1'}, Transition01, StartState, Accept01)
  {
  }

  /** The declared state sets hold the trap states, and every {a,b} state is also a
      {0,1} state. */
  lemma DeclaredStates()
    ensures "T1" in StatesAb && "T2" in StatesAb
    ensures "T1" in States01 && "T2" in States01 && "T3" in States01
    ensures StatesAb <= States01
  {
  }

  /** The start state is declared in both automata and accepts in neither, so the empty
      input is rejected; no trap state accepts. */
  lemma StartAndAccept()
    ensures StartState in StatesAb && StartState in States01
    ensures StartState !in AcceptAb && StartState !in Accept01
    ensures AcceptAb <= StatesAb && Accept01 <= States01
    ensures AcceptAb !! {"T1", "T2"} && Accept01 !! {"T1", "T2", "T3"}
  {
  }

  /** The automaton of the "a and b" language is well formed over its own fields: the
      {a,b} states, alphabet, table and accept set, and it carries the {0,1} sets too. */
  lemma AbDfaWellFormed()
    ensures WellFormed(AbDfa.statesAb, AbDfa.alphabet, AbDfa.delta, AbDfa.start, AbDfa.acceptAb)
    ensures AbDfa.alphabet == {'a', 'b'} && AbDfa.states01 == States01 && AbDfa.accept01 == Accept01
  {
    WellFormedAb();
  }

  /** The automaton of the "0 and 1" language is well formed over its {0,1} fields, and it
      carries the {a,b} sets too. */
  lemma ZeroOneDfaWellFormed()
    ensures WellFormed(ZeroOneDfa.states01, ZeroOneDfa.alphabet, ZeroOneDfa.delta, ZeroOneDfa.start,
                       ZeroOneDfa.accept01)
    ensures ZeroOneDfa.alphabet == {'0', '1'} && ZeroOneDfa.statesAb == StatesAb && ZeroOneDfa.acceptAb == AcceptAb
  {
    WellFormed01();
  }

  /** The keys the {a,b} table lists twice take the value of their later entry. */
  lemma LaterEntryWins()
    ensures TransitionAb("1", 'b') == Some("3")
    ensures TransitionAb("2", 'a') == Some("3")
    ensures TransitionAb("16", 'b') == Some("20")
  {
  }

  /** Each table is total on its states except for a single pair: (7, a) in the {a,b}
      table and (29, 0) in the {0,1} table. These are the only places a run over the
      alphabet can stop with "no transition". */
  lemma SingleGapAb(q: State, c: Symbol)
    requires q in StatesAb && c in {'a', 'b'}
    ensures TransitionAb(q, c).None? <==> q == "7" && c == 'a'
  {
  }

  lemma SingleGap01(q: State, c: Symbol)
    requires q in States01 && c in {'0', '1'}
    ensures Transition01(q, c).None? <==> q == "29" && c == '0'
  {
  }

  /** The trap states loop on every symbol: once reached, the run stays there to the end
      of the input. */
  lemma TrapsAb()
    ensures Absorbing(AbDfa, "T1") && Absorbing(AbDfa, "T2")
  {
  }

  lemma Traps01()
    ensures Absorbing(ZeroOneDfa, "T1") && Absorbing(ZeroOneDfa, "T2") && Absorbing(ZeroOneDfa, "T3")
  {
  }

  /** The two accepting states of the {a,b} automaton loop on every symbol as well. */
  lemma AcceptingSinksAb()
    ensures Absorbing(AbDfa, "19") && Absorbing(AbDfa, "22")
    ensures "19" in AcceptAb && "22" in AcceptAb
  {
  }

  /** The automaton's own acceptance test uses the {a,b} accept set for the {a,b}
      automaton and the {0,1} accept set for the other, so it agrees with the matching
      simulation. */
  lemma AcceptanceSelection()
    ensures SelectedAccept(AbDfa) == AbDfa.acceptAb == AcceptAb
    ensures SelectedAccept(ZeroOneDfa) == ZeroOneDfa.accept01 == Accept01
  {
    assert 'a' !in ZeroOneDfa.alphabet;
  }
}
