/**
 * The transition table of a finite-state machine and the cursor that walks it
 * (automat/_core.py).  States, inputs and outputs are opaque values compared
 * only for equality.
 */
module Core {
  import opened Wrappers

  /** One stored 4-tuple (inState, inputSymbol, outState, outputs). */
  datatype Transition<S, I, O> = Transition(inState: S, input: I, outState: S, outputs: seq<O>)

  /** What a lookup yields: the state to enter and the outputs to produce. */
  datatype Outcome<S, O> = Outcome(outState: S, outputs: seq<O>)

  /** The exception raised when no transition handles an input; it names both the input and the state. */
  datatype CoreError<S, I> = NoTransition(state: S, input: I)

  /** The stored transitions whose (inState, inputSymbol) pair is exactly (s, i). */
  function Matching<S(==), I(==), O(==)>(ts: set<Transition<S, I, O>>, s: S, i: I): set<Transition<S, I, O>>
  {
    set t | t in ts && t.inState == s && t.input == i
  }

  /** At most one stored transition per (state, input) pair. */
  predicate Deterministic<S(==), I(==), O(==)>(ts: set<Transition<S, I, O>>)
  {
    forall t1, t2 :: t1 in ts && t2 in ts && t1.inState == t2.inState && t1.input == t2.input ==> t1 == t2
  }

  /**
   * The results a lookup of (s, i) may produce: some matching transition; the
   * fallback when nothing matches; the error when nothing matches and there is
   * no fallback.
   */
  predicate Allows<S(==), I(==), O(==)>(ts: set<Transition<S, I, O>>, fallback: Option<Outcome<S, O>>, s: S, i: I,
                            r: Result<Outcome<S, O>, CoreError<S, I>>)
  {
    match r
    case Success(o) =>
      Transition(s, i, o.outState, o.outputs) in ts || (Matching(ts, s, i) == {} && fallback == Some(o))
    case Failure(e) =>
      e == NoTransition(s, i) && Matching(ts, s, i) == {} && fallback.None?
  }

  /** The input symbols of a set of transitions. */
  function InputSymbols<S(==), I(==), O(==)>(ts: set<Transition<S, I, O>>): (r: set<I>)
    ensures forall t :: t in ts ==> t.input in r
    ensures forall i :: i in r ==> exists t :: t in ts && t.input == i
  {
    set t | t in ts :: t.input
  }

  /** The union of the output sequences of a set of transitions. */
  function OutputSymbols<S(==), I(==), O(==)>(ts: set<Transition<S, I, O>>): (r: set<O>)
    ensures forall t, o :: t in ts && o in t.outputs ==> o in r
    ensures forall o :: o in r ==> exists t :: t in ts && o in t.outputs
  {
    set t, o | t in ts && o in t.outputs :: o
  }

  /** The union of the in-states and out-states of a set of transitions. */
  function StateSymbols<S(==), I(==), O(==)>(ts: set<Transition<S, I, O>>): (r: set<S>)
    ensures forall t :: t in ts ==> t.inState in r && t.outState in r
    ensures forall s :: s in r ==> exists t :: t in ts && (t.inState == s || t.outState == s)
  {
    (set t | t in ts :: t.inState) + (set t | t in ts :: t.outState)
  }

  /** Adding one transition extends the input alphabet by exactly its input symbol. */
  lemma InputsOfAdd<S, I, O>(ts: set<Transition<S, I, O>>, t: Transition<S, I, O>)
    ensures InputSymbols(ts + {t}) == InputSymbols(ts) + {t.input}
  {
    forall i | i in InputSymbols(ts + {t}) ensures i in InputSymbols(ts) + {t.input} {
      var u :| u in ts + {t} && u.input == i;
    }
  }

  /** Adding one transition extends the output alphabet by exactly its outputs. */
  lemma OutputsOfAdd<S, I, O>(ts: set<Transition<S, I, O>>, t: Transition<S, I, O>)
    ensures OutputSymbols(ts + {t}) == OutputSymbols(ts) + (set o | o in t.outputs)
  {
    forall o | o in OutputSymbols(ts + {t}) ensures o in OutputSymbols(ts) + (set o | o in t.outputs) {
      var u :| u in ts + {t} && o in u.outputs;
    }
  }

  /** Adding one transition extends the state set by exactly its two states. */
  lemma StatesOfAdd<S, I, O>(ts: set<Transition<S, I, O>>, t: Transition<S, I, O>)
    ensures StateSymbols(ts + {t}) == StateSymbols(ts) + {t.inState, t.outState}
  {
    forall s | s in StateSymbols(ts + {t}) ensures s in StateSymbols(ts) + {t.inState, t.outState} {
      var u :| u in ts + {t} && (u.inState == s || u.outState == s);
    }
  }

  /** Whatever a lookup returns without the fallback lies inside the derived enumerations. */
  lemma LookupWithinAlphabets<S, I, O>(ts: set<Transition<S, I, O>>, s: S, i: I, o: Outcome<S, O>)
    requires Allows(ts, None, s, i, Success(o))
    ensures i in InputSymbols(ts)
    ensures s in StateSymbols(ts) && o.outState in StateSymbols(ts)
    ensures forall x :: x in o.outputs ==> x in OutputSymbols(ts)
  {
    assert Transition(s, i, o.outState, o.outputs) in ts;
  }

  /** Every matching transition is a possible answer of the lookup (its scan order is unspecified). */
  lemma EveryMatchIsAllowed<S, I, O>(ts: set<Transition<S, I, O>>, fallback: Option<Outcome<S, O>>,
                                     s: S, i: I, t: Transition<S, I, O>)
    requires t in Matching(ts, s, i)
    ensures Allows(ts, fallback, s, i, Success(Outcome(t.outState, t.outputs)))
    ensures !Allows(ts, fallback, s, i, Failure(NoTransition(s, i)))
  {
    assert Transition(s, i, t.outState, t.outputs) == t;
  }

  /** When exactly one stored transition has the pair (s, i), the lookup returns it. */
  lemma OnlyMatchIsReturned<S, I, O>(ts: set<Transition<S, I, O>>, fallback: Option<Outcome<S, O>>,
                                     s: S, i: I, t: S, outs: seq<O>, r: Result<Outcome<S, O>, CoreError<S, I>>)
    requires Matching(ts, s, i) == {Transition(s, i, t, outs)}
    requires Allows(ts, fallback, s, i, r)
    ensures r == Success(Outcome(t, outs))
  {
    assert Transition(s, i, t, outs) in Matching(ts, s, i);
    if r.Success? {
      assert Transition(s, i, r.value.outState, r.value.outputs) in Matching(ts, s, i);
    }
  }

  /** Adding a transition for a pair nothing handled before makes it the only match for that pair. */
  lemma AddToUnhandledPair<S, I, O>(ts: set<Transition<S, I, O>>, s: S, i: I, t: S, outs: seq<O>)
    requires Matching(ts, s, i) == {}
    ensures Matching(ts + {Transition(s, i, t, outs)}, s, i) == {Transition(s, i, t, outs)}
  {
    assert forall u :: u in ts ==> u !in Matching(ts, s, i);
  }

  /** Under the uniqueness invariant, repeated lookups of the same pair agree. */
  lemma DeterministicLookup<S, I, O>(ts: set<Transition<S, I, O>>, fallback: Option<Outcome<S, O>>, s: S, i: I,
                                     r1: Result<Outcome<S, O>, CoreError<S, I>>,
                                     r2: Result<Outcome<S, O>, CoreError<S, I>>)
    requires Deterministic(ts)
    requires Allows(ts, fallback, s, i, r1) && Allows(ts, fallback, s, i, r2)
    ensures r1 == r2
  {
    if r1.Success? && Transition(s, i, r1.value.outState, r1.value.outputs) in ts {
      assert Transition(s, i, r1.value.outState, r1.value.outputs) in Matching(ts, s, i);
    }
    if r2.Success? && Transition(s, i, r2.value.outState, r2.value.outputs) in ts {
      assert Transition(s, i, r2.value.outState, r2.value.outputs) in Matching(ts, s, i);
    }
  }

  /**
   * addTransition keeps the uniqueness invariant exactly when no different
   * transition with the same pair is already stored; nothing rejects the second one.
   */
  lemma AddKeepsDeterministicIff<S, I, O>(ts: set<Transition<S, I, O>>, t: Transition<S, I, O>)
    requires Deterministic(ts)
    ensures Deterministic(ts + {t}) <==> forall u :: u in Matching(ts, t.inState, t.input) ==> u == t
  {
    if forall u :: u in Matching(ts, t.inState, t.input) ==> u == t {
      forall t1, t2 | t1 in ts + {t} && t2 in ts + {t} && t1.inState == t2.inState && t1.input == t2.input
        ensures t1 == t2
      {
        assert t1 in ts ==> t1 in Matching(ts, t1.inState, t1.input);
        assert t2 in ts ==> t2 in Matching(ts, t2.inState, t2.input);
      }
    } else {
      var u :| u in Matching(ts, t.inState, t.input) && u != t;
      assert u in ts + {t} && t in ts + {t};
    }
  }

  /** A declaration of a finite-state machine: its transitions and initial states. */
  class Automaton<S(==), I(==), O(==)> {
    var transitions: set<Transition<S, I, O>>
    var initialStates: set<S>
    /** The outcome used when no transition matches (automat's unhandledTransition); None until one is declared. */
    var fallback: Option<Outcome<S, O>>
    /** The single initial state the method-based front end assigns as an attribute. */
    var initialState: Option<S>

    constructor ()
      ensures transitions == {} && initialStates == {} && fallback == None && initialState == None
    {
      transitions := {};
      initialStates := {};
      fallback := None;
      initialState := None;
    }

    /** Set insertion of the 4-tuple: a second identical tuple changes nothing, a different one for the same pair is kept. */
    method AddTransition(inState: S, input: I, outState: S, outputs: seq<O>)
      modifies this`transitions
      ensures transitions == old(transitions) + {Transition(inState, input, outState, outputs)}
      ensures Transition(inState, input, outState, outputs) in old(transitions) ==> transitions == old(transitions)
    {
      transitions := transitions + {Transition(inState, input, outState, outputs)};
    }

    /** Declare the outcome of every input that no transition handles. */
    method UnhandledTransition(outState: S, outputs: seq<O>)
      modifies this`fallback
      ensures fallback == Some(Outcome(outState, outputs))
    {
      fallback := Some(Outcome(outState, outputs));
    }

    function AllTransitions(): (r: set<Transition<S, I, O>>)
      reads this
      ensures r == transitions
    {
      transitions
    }

    method AddInitialState(state: S)
      modifies this`initialStates
      ensures initialStates == old(initialStates) + {state}
    {
      initialStates := initialStates + {state};
    }

    function InitialStates(): (r: set<S>)
      reads this
      ensures r == initialStates
    {
      initialStates
    }

    function InputAlphabet(): (r: set<I>)
      reads this
      ensures r == InputSymbols(transitions)
    {
      InputSymbols(transitions)
    }

    function OutputAlphabet(): (r: set<O>)
      reads this
      ensures r == OutputSymbols(transitions)
    {
      OutputSymbols(transitions)
    }

    function States(): (r: set<S>)
      reads this
      ensures r == StateSymbols(transitions)
    {
      StateSymbols(transitions)
    }

    /**
     * The linear scan: returns the first matching transition the iteration
     * yields, else the fallback, else the NoTransition error.
     */
    method OutputForInput(inState: S, input: I) returns (r: Result<Outcome<S, O>, CoreError<S, I>>)
      ensures Allows(transitions, fallback, inState, input, r)
      ensures r.Failure? <==> Matching(transitions, inState, input) == {} && fallback.None?
      ensures r.Success? && Matching(transitions, inState, input) != {} ==>
                Transition(inState, input, r.value.outState, r.value.outputs) in transitions
    {
      var rest := transitions;
      while rest != {}
        invariant rest <= transitions
        invariant forall t :: t in transitions && t !in rest ==> !(t.inState == inState && t.input == input)
        decreases rest
      {
        var t :| t in rest;
        if t.inState == inState && t.input == input {
          assert t in Matching(transitions, inState, input);
          return Success(Outcome(t.outState, t.outputs));
        }
        rest := rest - {t};
      }
      assert Matching(transitions, inState, input) == {};
      if fallback.Some? {
        return Success(fallback.value);
      }
      return Failure(NoTransition(inState, input));
    }
  }

  /** An automaton together with a current state. */
  class Transitioner<S(==), I(==), O(==)> {
    const automaton: Automaton<S, I, O>
    var state: S

    constructor (automaton: Automaton<S, I, O>, initialState: S)
      ensures this.automaton == automaton && state == initialState
    {
      this.automaton := automaton;
      state := initialState;
    }

    /**
     * Advance by one input: on success the state becomes the matched out-state
     * and the outputs are returned; a failed lookup raises before the state is assigned.
     */
    method Transition(input: I) returns (r: Result<seq<O>, CoreError<S, I>>)
      modifies this`state
      ensures r.Success? ==>
                Allows(automaton.transitions, automaton.fallback, old(state), input, Success(Outcome(state, r.value)))
      ensures r.Failure? ==>
                state == old(state) && Allows(automaton.transitions, automaton.fallback, old(state), input, Failure(r.error))
    {
      var found := automaton.OutputForInput(state, input);
      match found
      case Failure(e) =>
        r := Failure(e);
      case Success(o) =>
        state := o.outState;
        r := Success(o.outputs);
    }
  }

  /** test_noOutputForInput: an empty automaton has no transition for any pair. */
  method NoOutputForInputScenario()
  {
    var a := new Automaton<string, string, string>();
    var missing := a.OutputForInput("no-state", "no-symbol");
    assert missing == Failure(NoTransition("no-state", "no-symbol"));
  }

  /** The alphabets and states of an automaton with a single transition. */
  lemma SingleTransitionSymbols<S, I, O>(t: Transition<S, I, O>)
    ensures InputSymbols({t}) == {t.input}
    ensures OutputSymbols({t}) == set o | o in t.outputs
    ensures StateSymbols({t}) == {t.inState, t.outState}
  {
    InputsOfAdd({}, t);
    OutputsOfAdd({}, t);
    StatesOfAdd({}, t);
    assert {} + {t} == {t};
  }

  /** test_oneTransition, first half: one added transition fixes the alphabets and the states. */
  method OneTransitionAlphabetsScenario()
  {
    var a := new Automaton<string, string, string>();
    a.AddTransition("beginning", "begin", "ending", ["end"]);
    var t := Transition("beginning", "begin", "ending", ["end"]);
    assert a.transitions == {t};
    SingleTransitionSymbols(t);
    assert (set o | o in t.outputs) == {"end"};
    assert a.InputAlphabet() == {"begin"};
    assert a.OutputAlphabet() == {"end"};
    assert a.States() == {"beginning", "ending"};
  }

  /** test_oneTransition, second half: the lookup then returns the new state and outputs. */
  method OneTransitionLookupScenario()
  {
    var a := new Automaton<string, string, string>();
    a.AddTransition("beginning", "begin", "ending", ["end"]);
    var none: set<Transition<string, string, string>> := {};
    assert a.transitions == none + {Transition("beginning", "begin", "ending", ["end"])};
    AddToUnhandledPair(none, "beginning", "begin", "ending", ["end"]);
    var found := a.OutputForInput("beginning", "begin");
    OnlyMatchIsReturned(a.transitions, a.fallback, "beginning", "begin", "ending", ["end"], found);
    assert found == Success(Outcome("ending", ["end"]));
  }
}
