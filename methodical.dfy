/**
 * The method-based front end (automat/_methodical.py): states, inputs and
 * outputs declared on a class, a per-instance transitioner stored under the
 * machine's symbol, and the serializer and unserializer pair.
 */
module Methodical {
  import opened Wrappers
  import opened Core

  /** A value produced by an output method, or collected from several. */
  datatype Value = Atom(tag: int) | Items(items: seq<Value>)

  /** What inspect.getargspec reports about a method; compared whole by upon. */
  datatype ArgSpec = ArgSpec(args: seq<string>, varargs: Option<string>, keywords: Option<string>, defaults: seq<Value>)

  /** A decorated method: its name and its signature. */
  datatype MethodRef = MethodRef(name: string, spec: ArgSpec)

  /** MethodicalState: compared by machine, method and serialized value. */
  datatype MState = MState(machine: MethodicalMachine, decorated: MethodRef, serialized: Option<string>)

  /** MethodicalOutput: compared by machine and method. */
  datatype MOutput = MOutput(machine: MethodicalMachine, decorated: MethodRef)

  /** The collector turns the sequence of output values into the input's return value; list by default. */
  type Collector = seq<Value> -> Value

  function ListCollector(): Collector
  {
    vs => Items(vs)
  }

  datatype MethodicalError =
    | SignatureMismatch(input: string, output: string)
    | NoInitialState
    | Lookup(error: CoreError<MState, MInput>)
    | MissingCollector(state: MState)
    | InputBodyRaised
    | UnknownSerialization(serialized: Option<string>)

  /** MethodicalInput: compared by identity; its collectors are filled in by upon. */
  class MInput {
    const automaton: Automaton<MState, MInput, MOutput>
    const decorated: MethodRef
    const symbol: string
    var collectors: map<MState, Collector>

    constructor (automaton: Automaton<MState, MInput, MOutput>, decorated: MethodRef, symbol: string)
      ensures this.automaton == automaton && this.decorated == decorated && this.symbol == symbol
      ensures collectors == map[]
    {
      this.automaton := automaton;
      this.decorated := decorated;
      this.symbol := symbol;
      collectors := map[];
    }
  }

  /** Every transition the automaton has for this input starts in a state the input has a collector for. */
  predicate CollectorsCover(automaton: Automaton<MState, MInput, MOutput>, input: MInput)
    reads automaton, input
  {
    forall t :: t in automaton.transitions && t.input == input ==> t.inState in input.collectors
  }

  class MethodicalMachine {
    const automaton: Automaton<MState, MInput, MOutput>
    /** The attribute name under which instances keep their transitioner (gensym in the source). */
    const symbol: string

    constructor (symbol: string)
      ensures fresh(automaton) && this.symbol == symbol
      ensures automaton.transitions == {} && automaton.initialState == None && automaton.fallback == None
    {
      automaton := new Automaton();
      this.symbol := symbol;
    }

    /**
     * state(initial=..., terminal=..., serialized=...): the declared state;
     * an initial one becomes the automaton's initial state, replacing any
     * earlier one. terminal is informational only.
     */
    method State(decorated: MethodRef, initial: bool, terminal: bool, serialized: Option<string>) returns (s: MState)
      modifies automaton`initialState
      ensures s == MState(this, decorated, serialized)
      ensures automaton.initialState == if initial then Some(s) else old(automaton.initialState)
    {
      s := MState(this, decorated, serialized);
      if initial {
        automaton.initialState := Some(s);
      }
    }

    /** input(): a fresh input bound to this machine's automaton and symbol, with no collectors yet. */
    method Input(decorated: MethodRef) returns (i: MInput)
      ensures fresh(i) && i.automaton == automaton && i.decorated == decorated && i.symbol == symbol
      ensures i.collectors == map[]
    {
      i := new MInput(automaton, decorated, symbol);
    }

    /** output(): the output for the method. */
    function Output(decorated: MethodRef): (o: MOutput)
      ensures o.machine == this && o.decorated == decorated
    {
      MOutput(this, decorated)
    }

    /** _oneTransition: add the transition and record the collector for its start state. */
    method OneTransition(start: MState, input: MInput, end: MState, outputs: seq<MOutput>, collector: Collector)
      modifies automaton`transitions, input`collectors
      ensures automaton.transitions == old(automaton.transitions) + {Transition(start, input, end, outputs)}
      ensures input.collectors == old(input.collectors)[start := collector]
      ensures old(CollectorsCover(automaton, input)) ==> CollectorsCover(automaton, input)
    {
      automaton.AddTransition(start, input, end, outputs);
      input.collectors := input.collectors[start := collector];
    }
  }

  /** The first output whose signature differs from the input's, in declaration order. */
  function FirstMismatch(spec: ArgSpec, outputs: seq<MOutput>): (r: Option<MOutput>)
    ensures r.None? <==> forall k :: 0 <= k < |outputs| ==> outputs[k].decorated.spec == spec
    ensures r.Some? ==> exists k :: 0 <= k < |outputs| && outputs[k] == r.value && r.value.decorated.spec != spec
                                   && forall m :: 0 <= m < k ==> outputs[m].decorated.spec == spec
  {
    if outputs == [] then None
    else if outputs[0].decorated.spec != spec then Some(outputs[0])
    else
      var r := FirstMismatch(spec, outputs[1..]);
      assert forall k :: 1 <= k < |outputs| ==> outputs[k] == outputs[1..][k - 1];
      if r.Some? then
        var k :| 0 <= k < |outputs[1..]| && outputs[1..][k] == r.value && r.value.decorated.spec != spec
                 && forall m :: 0 <= m < k ==> outputs[1..][m].decorated.spec == spec;
        assert outputs[k + 1] == r.value;
        r
      else r
  }

  /**
   * MethodicalState.upon: every output must have the input's signature, checked
   * in order and before anything is recorded; then the transition is added.
   */
  method Upon(state: MState, input: MInput, enter: MState, outputs: seq<MOutput>, collector: Collector)
    returns (r: Result<(), MethodicalError>)
    modifies state.machine.automaton`transitions, input`collectors
    ensures r.Failure? <==> FirstMismatch(input.decorated.spec, outputs).Some?
    ensures r.Failure? ==> r.error == SignatureMismatch(input.decorated.name, FirstMismatch(input.decorated.spec, outputs).value.decorated.name)
    ensures r.Failure? ==> unchanged(state.machine.automaton) && unchanged(input)
    ensures r.Success? ==> state.machine.automaton.transitions
                             == old(state.machine.automaton.transitions) + {Transition(state, input, enter, outputs)}
    ensures r.Success? ==> input.collectors == old(input.collectors)[state := collector]
  {
    var i := 0;
    while i < |outputs|
      invariant 0 <= i <= |outputs|
      invariant forall k :: 0 <= k < i ==> outputs[k].decorated.spec == input.decorated.spec
      invariant FirstMismatch(input.decorated.spec, outputs) == FirstMismatch(input.decorated.spec, outputs[i..])
    {
      if outputs[i].decorated.spec != input.decorated.spec {
        return Failure(SignatureMismatch(input.decorated.name, outputs[i].decorated.name));
      }
      assert outputs[i..] == [outputs[i]] + outputs[i + 1..];
      i := i + 1;
    }
    state.machine.OneTransition(state, input, enter, outputs, collector);
    return Success(());
  }

  /** An object of a class that uses a machine: its attributes that hold transitioners, by name. */
  class Instance {
    var attrs: map<string, Transitioner<MState, MInput, MOutput>>

    constructor ()
      ensures attrs == map[]
    {
      attrs := map[];
    }
  }

  /**
   * _transitionerFromInstance: the transitioner stored under symbol, or a new one
   * starting in the automaton's initial state, stored there first. Without an
   * initial state the attribute lookup fails.
   */
  method TransitionerFromInstance(oself: Instance, symbol: string, automaton: Automaton<MState, MInput, MOutput>)
    returns (r: Result<Transitioner<MState, MInput, MOutput>, MethodicalError>)
    modifies oself`attrs
    ensures symbol in old(oself.attrs) ==> r == Success(old(oself.attrs)[symbol]) && oself.attrs == old(oself.attrs)
    ensures symbol !in old(oself.attrs) && automaton.initialState.None? ==>
              r == Failure(NoInitialState) && oself.attrs == old(oself.attrs)
    ensures symbol !in old(oself.attrs) && automaton.initialState.Some? ==>
              r.Success? && fresh(r.value) && r.value.automaton == automaton
              && r.value.state == automaton.initialState.value
              && oself.attrs == old(oself.attrs)[symbol := r.value]
  {
    if symbol in oself.attrs {
      return Success(oself.attrs[symbol]);
    }
    if automaton.initialState.None? {
      return Failure(NoInitialState);
    }
    var t := new Transitioner(automaton, automaton.initialState.value);
    oself.attrs := oself.attrs[symbol := t];
    return Success(t);
  }

  /** The output values in order, as the collector receives them. */
  function OutputValues(outputs: seq<MOutput>, args: seq<Value>, call: (MOutput, seq<Value>) -> Value): (r: seq<Value>)
    ensures |r| == |outputs| && forall k :: 0 <= k < |outputs| ==> r[k] == call(outputs[k], args)
  {
    seq(|outputs|, k requires 0 <= k < |outputs| => call(outputs[k], args))
  }

  /** The state the instance's transitioner is in before an input, once it exists. */
  function StartState(attrs: map<string, Transitioner<MState, MInput, MOutput>>, symbol: string,
                      automaton: Automaton<MState, MInput, MOutput>): Option<MState>
    reads attrs.Values, automaton
  {
    if symbol in attrs then Some(attrs[symbol].state) else automaton.initialState
  }

  /**
   * MethodicalInput.__get__ and doInput: get the transitioner, run the input
   * method's body, take the transition, then feed each output's value to the
   * collector recorded for the state the transition started from.
   */
  method DoInput(input: MInput, oself: Instance, args: seq<Value>, bodyRaises: bool,
                 call: (MOutput, seq<Value>) -> Value)
    returns (r: Result<Value, MethodicalError>, emitted: seq<MOutput>)
    requires input.symbol in oself.attrs ==> oself.attrs[input.symbol].automaton == input.automaton
    modifies oself`attrs, if input.symbol in oself.attrs then {oself.attrs[input.symbol]} else {}
    ensures var start := old(StartState(oself.attrs, input.symbol, input.automaton));
            && (start.None? <==> r == Failure(NoInitialState))
            && (start.Some? ==>
                  input.symbol in oself.attrs && oself.attrs[input.symbol].automaton == input.automaton
                  && var t := oself.attrs[input.symbol];
                  && (input.symbol !in old(oself.attrs) ==> fresh(t) && oself.attrs == old(oself.attrs)[input.symbol := t])
                  && (input.symbol in old(oself.attrs) ==> oself.attrs == old(oself.attrs))
                  && (r == Failure(InputBodyRaised) <==> bodyRaises)
                  && (bodyRaises ==> t.state == start.value)
                  && (r.Failure? && r.error.Lookup? ==>
                        t.state == start.value
                        && Allows(input.automaton.transitions, input.automaton.fallback, start.value, input, Failure(r.error.error)))
                  && (r.Success? || r.error.MissingCollector? ==>
                        Allows(input.automaton.transitions, input.automaton.fallback, start.value, input,
                               Success(Outcome(t.state, emitted))))
                  && (r.Failure? && r.error.MissingCollector? ==> r.error.state == start.value && start.value !in input.collectors)
                  && (r.Success? ==> start.value in input.collectors
                                     && r.value == input.collectors[start.value](OutputValues(emitted, args, call)))
                  && (r.Success? <==>
                        !bodyRaises && start.value in input.collectors
                        && (Matching(input.automaton.transitions, start.value, input) != {} || input.automaton.fallback.Some?)))
    ensures old(StartState(oself.attrs, input.symbol, input.automaton)).None? ==> oself.attrs == old(oself.attrs)
    ensures r.Failure? ==> r.error.NoInitialState? || r.error.InputBodyRaised? || r.error.Lookup? || r.error.MissingCollector?
    ensures forall k ::
              (k in old(oself.attrs) && k != input.symbol
               && !(input.symbol in old(oself.attrs) && old(oself.attrs[input.symbol]) == old(oself.attrs[k]))) ==>
              k in oself.attrs && oself.attrs[k] == old(oself.attrs[k]) && oself.attrs[k].state == old(oself.attrs[k].state)
  {
    emitted := [];
    var got := TransitionerFromInstance(oself, input.symbol, input.automaton);
    if got.Failure? {
      return Failure(got.error), emitted;
    }
    var t := got.value;
    if bodyRaises {
      return Failure(InputBodyRaised), emitted;
    }
    var previous := t.state;
    var step := t.Transition(input);
    if step.Failure? {
      return Failure(Lookup(step.error)), emitted;
    }
    emitted := step.value;
    assert Transition(previous, input, t.state, emitted) in input.automaton.transitions ==>
           Transition(previous, input, t.state, emitted) in Matching(input.automaton.transitions, previous, input);
    if previous !in input.collectors {
      return Failure(MissingCollector(previous)), emitted;
    }
    var collector := input.collectors[previous];
    return Success(collector(OutputValues(emitted, args, call))), emitted;
  }

  /** The serializer: the serialized value of the instance's current state. */
  method Serialize(machine: MethodicalMachine, oself: Instance) returns (r: Result<Option<string>, MethodicalError>)
    modifies oself`attrs
    ensures var start := old(StartState(oself.attrs, machine.symbol, machine.automaton));
            && (r.Success? <==> start.Some?)
            && (r.Success? ==> r.value == start.value.serialized && machine.symbol in oself.attrs
                               && oself.attrs[machine.symbol].state == start.value)
            && (r.Failure? ==> r.error == NoInitialState && oself.attrs == old(oself.attrs))
    ensures oself.attrs == old(oself.attrs)
            || (machine.symbol !in old(oself.attrs) && machine.symbol in oself.attrs && fresh(oself.attrs[machine.symbol])
                && oself.attrs == old(oself.attrs)[machine.symbol := oself.attrs[machine.symbol]])
  {
    var got := TransitionerFromInstance(oself, machine.symbol, machine.automaton);
    if got.Failure? {
      return Failure(got.error);
    }
    return Success(got.value.state.serialized);
  }

  /**
   * The map the unserializer builds from serialized value to state, over the
   * states that occur in some transition; when two states share a value the
   * iteration order decides which one is kept.
   */
  method SerialMapping(states: set<MState>) returns (m: map<Option<string>, MState>)
    ensures m.Keys == set s | s in states :: s.serialized
    ensures forall v :: v in m ==> m[v] in states && m[v].serialized == v
  {
    m := map[];
    var rest := states;
    while rest != {}
      invariant rest <= states
      invariant m.Keys == set s | s in states - rest :: s.serialized
      invariant forall v :: v in m ==> m[v] in states - rest && m[v].serialized == v
      decreases rest
    {
      var s :| s in rest;
      m := m[s.serialized := s];
      rest := rest - {s};
    }
  }

  /** No two of the states share a serialized value. */
  predicate SerializationInjective(states: set<MState>)
  {
    forall s1, s2 :: s1 in states && s2 in states && s1.serialized == s2.serialized ==> s1 == s2
  }

  /** With distinct serialized values the mapping sends each state's value back to that state. */
  lemma MappingRecoversState(states: set<MState>, m: map<Option<string>, MState>, s: MState)
    requires m.Keys == set s | s in states :: s.serialized
    requires forall v :: v in m ==> m[v] in states && m[v].serialized == v
    requires SerializationInjective(states)
    requires s in states
    ensures s.serialized in m && m[s.serialized] == s
  {
    assert s.serialized in m.Keys;
  }

  /** A value is a key of the mapping exactly when some state has it. */
  lemma MappingKeys(states: set<MState>, m: map<Option<string>, MState>, value: Option<string>)
    requires m.Keys == set s | s in states :: s.serialized
    ensures value in m <==> exists s :: s in states && s.serialized == value
  {
  }

  /**
   * The assignment through the mapping: a value the mapping lacks raises
   * KeyError before the transitioner's state is touched.
   */
  method MoveToSerialized(t: Transitioner<MState, MInput, MOutput>, m: map<Option<string>, MState>,
                          ghost states: set<MState>, value: Option<string>)
    returns (r: Result<(), MethodicalError>)
    requires m.Keys == set s | s in states :: s.serialized
    requires forall v :: v in m ==> m[v] in states && m[v].serialized == v
    modifies t`state
    ensures r == Failure(UnknownSerialization(value)) <==> forall s :: s in states ==> s.serialized != value
    ensures r.Failure? ==> r == Failure(UnknownSerialization(value)) && t.state == old(t.state)
    ensures r.Success? ==>
              && t.state in states && t.state.serialized == value
              && (SerializationInjective(states) ==> forall s :: s in states && s.serialized == value ==> t.state == s)
  {
    MappingKeys(states, m, value);
    if value !in m {
      return Failure(UnknownSerialization(value));
    }
    t.state := m[value];
    forall s | s in states && s.serialized == value && SerializationInjective(states)
      ensures m[value] == s
    {
      MappingRecoversState(states, m, s);
    }
    return Success(());
  }

  /**
   * The unserializer: find the state with that serialized value and put the
   * instance's transitioner in it. The transitioner is fetched, and if need be
   * created and stored, before the value is looked up.
   */
  method Unserialize(machine: MethodicalMachine, oself: Instance, value: Option<string>)
    returns (r: Result<(), MethodicalError>)
    modifies oself`attrs, if machine.symbol in oself.attrs then {oself.attrs[machine.symbol]} else {}
    ensures var start := old(StartState(oself.attrs, machine.symbol, machine.automaton));
            var states := StateSymbols(machine.automaton.transitions);
            && (start.None? <==> r == Failure(NoInitialState))
            && (start.None? ==> oself.attrs == old(oself.attrs))
            && (start.Some? ==> machine.symbol in oself.attrs)
            && (r == Failure(UnknownSerialization(value)) <==> start.Some? && forall s :: s in states ==> s.serialized != value)
            && (r.Failure? ==> r.error == NoInitialState || r.error == UnknownSerialization(value))
            && (r.Success? ==>
                  var now := oself.attrs[machine.symbol].state;
                  && now in states && now.serialized == value
                  && (SerializationInjective(states) ==> forall s :: s in states && s.serialized == value ==> now == s))
            && (r == Failure(UnknownSerialization(value)) ==> oself.attrs[machine.symbol].state == start.value)
    ensures oself.attrs == old(oself.attrs)
            || (machine.symbol !in old(oself.attrs) && machine.symbol in oself.attrs && fresh(oself.attrs[machine.symbol])
                && oself.attrs == old(oself.attrs)[machine.symbol := oself.attrs[machine.symbol]])
    ensures forall k ::
              (k in old(oself.attrs) && k != machine.symbol
               && !(machine.symbol in old(oself.attrs) && old(oself.attrs[machine.symbol]) == old(oself.attrs[k]))) ==>
              k in oself.attrs && oself.attrs[k] == old(oself.attrs[k]) && oself.attrs[k].state == old(oself.attrs[k].state)
  {
    var m := SerialMapping(machine.automaton.States());
    var got := TransitionerFromInstance(oself, machine.symbol, machine.automaton);
    if got.Failure? {
      return Failure(got.error);
    }
    label fetched:
    r := MoveToSerialized(got.value, m, StateSymbols(machine.automaton.transitions), value);
    forall k | k in old(oself.attrs) && k != machine.symbol
               && !(machine.symbol in old(oself.attrs) && old(oself.attrs[machine.symbol]) == old(oself.attrs[k]))
      ensures k in oself.attrs && oself.attrs[k] == old(oself.attrs[k]) && oself.attrs[k].state == old(oself.attrs[k].state)
    {
      assert oself.attrs[k] == old(oself.attrs[k]) != got.value;
      assert old@fetched(oself.attrs[k].state) == old(oself.attrs[k].state);
    }
  }

  /**
   * Serializing and then unserializing the value restores the state, when the
   * state occurs in some transition and no two states share a serialized value.
   */
  method SerializeRoundTrip(machine: MethodicalMachine, oself: Instance) returns (r: Result<(), MethodicalError>)
    modifies oself`attrs, if machine.symbol in oself.attrs then {oself.attrs[machine.symbol]} else {}
    ensures var start := old(StartState(oself.attrs, machine.symbol, machine.automaton));
            var states := StateSymbols(machine.automaton.transitions);
            start.Some? && start.value in states && SerializationInjective(states) ==>
              r.Success? && machine.symbol in oself.attrs && oself.attrs[machine.symbol].state == start.value
  {
    var v := Serialize(machine, oself);
    if v.Failure? {
      return Failure(v.error);
    }
    r := Unserialize(machine, oself, v.value);
  }
}
