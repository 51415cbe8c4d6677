/**
 * The decorator-based front end (automat/_typical.py): state classes whose
 * handlers declare transitions, the build step that turns them into an
 * automaton and a table of state builders, and the machine instance that
 * keeps a cluster of live state objects, building and evicting them as
 * inputs arrive.
 */
module Typical {
  import opened Wrappers
  import opened Core
  import opened TypicalParams

  /** A handler: the output method's name, the input it handles, its parameters (self excluded), its enter factory. */
  datatype HandlerDecl = HandlerDecl(output: string, input: string, params: seq<Param>, enter: Option<Factory>)

  /** A state class: its constructor, its handlers (in attribute order), and the persist flag put on it by state(). */
  datatype StateClass = StateClass(factory: Factory, handlers: seq<HandlerDecl>, persist: bool)

  /** An inputs protocol: its identity and the methods it actually defines. */
  datatype Protocol = Protocol(ref: TypeRef, methods: set<string>)

  function Name(c: StateClass): string
  {
    c.factory.name
  }

  /** The default error state: no handlers, not persistent. */
  const DefaultErrorState: StateClass := StateClass(Factory("ErrorState", []), [], false)

  /** The state a handler enters: its enter factory, or its own class. */
  function Target(c: StateClass, h: HandlerDecl): Factory
  {
    if h.enter.Some? then h.enter.value else c.factory
  }

  /** Outputs are output-method names; the unhandled fallback produces None. */
  type Output = Option<string>
  type Rule = Transition<string, string, Output>

  /** A handler accepted during the build, with the class it belongs to. */
  datatype Entry = Entry(cls: StateClass, handler: HandlerDecl)

  function EntryTransition(e: Entry): Rule
  {
    Transition(Name(e.cls), e.handler.input, Target(e.cls, e.handler).name, [Some(e.handler.output)])
  }

  /** The state builder of a handler is found through the state object's class and the output name. */
  function BuilderKey(e: Entry): (string, string)
  {
    (Name(e.cls), e.handler.output)
  }

  /** The handlers of one class that handle an input of protocol p, in order. */
  function HandlerEntries(p: Protocol, c: StateClass, hs: seq<HandlerDecl>): seq<Entry>
  {
    if hs == [] then []
    else HandlerEntries(p, c, hs[..|hs| - 1]) + (if hs[|hs| - 1].input in p.methods then [Entry(c, hs[|hs| - 1])] else [])
  }

  function ClassEntries(p: Protocol, cs: seq<StateClass>): seq<Entry>
  {
    if cs == [] then []
    else ClassEntries(p, cs[..|cs| - 1]) + HandlerEntries(p, cs[|cs| - 1], cs[|cs| - 1].handlers)
  }

  /** The accepted handlers in build order: protocol by protocol, class by class. */
  function AllEntries(ps: seq<Protocol>, cs: seq<StateClass>): seq<Entry>
  {
    if ps == [] then []
    else AllEntries(ps[..|ps| - 1], cs) + ClassEntries(ps[|ps| - 1], cs)
  }

  function TransitionSet(es: seq<Entry>): set<Rule>
  {
    set e | e in es :: EntryTransition(e)
  }

  lemma TransitionSetAppend(es: seq<Entry>, e: Entry)
    ensures TransitionSet(es + [e]) == TransitionSet(es) + {EntryTransition(e)}
  {
    assert forall x :: x in es + [e] <==> x in es || x == e;
  }

  function StateNames(cs: seq<StateClass>): set<string>
  {
    set c | c in cs :: Name(c)
  }

  function ProtocolRefs(ps: seq<Protocol>): set<TypeRef>
  {
    set p | p in ps :: p.ref
  }

  function EntryBuilder(e: Entry, coreType: TypeRef, names: set<string>, refs: set<TypeRef>): StateBuilder
  {
    BuildStateBuilder(coreType, Target(e.cls, e.handler), names, e.handler.params, refs)
  }

  /** The builders attached to the output methods; a later entry with the same key replaces an earlier one. */
  function BuildersOf(es: seq<Entry>, coreType: TypeRef, names: set<string>, refs: set<TypeRef>)
    : map<(string, string), StateBuilder>
  {
    if es == [] then map[]
    else BuildersOf(es[..|es| - 1], coreType, names, refs)[BuilderKey(es[|es| - 1]) := EntryBuilder(es[|es| - 1], coreType, names, refs)]
  }

  /** The persist flag of each state class, by class name. */
  function PersistOf(cs: seq<StateClass>): map<string, bool>
  {
    if cs == [] then map[]
    else PersistOf(cs[..|cs| - 1])[Name(cs[|cs| - 1]) := cs[|cs| - 1].persist]
  }

  lemma {:induction false} HandlerEntriesMembership(p: Protocol, c: StateClass, hs: seq<HandlerDecl>, e: Entry)
    ensures e in HandlerEntries(p, c, hs) <==> e.cls == c && e.handler in hs && e.handler.input in p.methods
    decreases |hs|
  {
    if hs != [] {
      var front := hs[..|hs| - 1];
      assert hs == front + [hs[|hs| - 1]];
      HandlerEntriesMembership(p, c, front, e);
    }
  }

  lemma {:induction false} ClassEntriesMembership(p: Protocol, cs: seq<StateClass>, e: Entry)
    ensures e in ClassEntries(p, cs) <==> e.cls in cs && e.handler in e.cls.handlers && e.handler.input in p.methods
    decreases |cs|
  {
    if cs != [] {
      var front := cs[..|cs| - 1];
      assert cs == front + [cs[|cs| - 1]];
      ClassEntriesMembership(p, front, e);
      HandlerEntriesMembership(p, cs[|cs| - 1], cs[|cs| - 1].handlers, e);
    }
  }

  lemma {:induction false} AllEntriesMembership(ps: seq<Protocol>, cs: seq<StateClass>, e: Entry)
    ensures e in AllEntries(ps, cs) <==>
            e.cls in cs && e.handler in e.cls.handlers && exists p :: p in ps && e.handler.input in p.methods
    decreases |ps|
  {
    if ps != [] {
      var front := ps[..|ps| - 1];
      var last := ps[|ps| - 1];
      assert ps == front + [last];
      AllEntriesMembership(front, cs, e);
      ClassEntriesMembership(last, cs, e);
      if e in AllEntries(ps, cs) {
        if e in ClassEntries(last, cs) {
          assert last in ps && e.handler.input in last.methods;
        }
      }
    }
  }

  /**
   * The transitions of a built class are exactly one per handler whose input
   * one of the protocols defines: from the class, on that input, to the
   * handler's target, producing the handler's name.
   */
  lemma DeclaredTransitions(ps: seq<Protocol>, cs: seq<StateClass>, t: Rule)
    ensures t in TransitionSet(AllEntries(ps, cs)) <==>
            exists c, h :: c in cs && h in c.handlers && (exists p :: p in ps && h.input in p.methods)
                           && t == Transition(Name(c), h.input, Target(c, h).name, [Some(h.output)])
  {
    if t in TransitionSet(AllEntries(ps, cs)) {
      var e :| e in AllEntries(ps, cs) && t == EntryTransition(e);
      AllEntriesMembership(ps, cs, e);
    }
    if exists c, h :: c in cs && h in c.handlers && (exists p :: p in ps && h.input in p.methods)
                      && t == Transition(Name(c), h.input, Target(c, h).name, [Some(h.output)]) {
      var c, h :| c in cs && h in c.handlers && (exists p :: p in ps && h.input in p.methods)
                  && t == Transition(Name(c), h.input, Target(c, h).name, [Some(h.output)]);
      AllEntriesMembership(ps, cs, Entry(c, h));
    }
  }

  /**
   * Every lookup in a built class succeeds with exactly one output: a handler
   * name from a declared transition, or None from the error fallback, taken
   * only when nothing matches.
   */
  lemma BuiltLookupShape(es: seq<Entry>, errorName: string, s: string, i: string,
                         r: Result<Outcome<string, Output>, CoreError<string, string>>)
    requires Allows(TransitionSet(es), Some(Outcome(errorName, [None])), s, i, r)
    ensures r.Success? && |r.value.outputs| == 1
    ensures r.value.outputs[0].None? ==> r.value.outState == errorName && Matching(TransitionSet(es), s, i) == {}
    ensures r.value.outputs[0].Some? ==>
              exists e :: e in es && EntryTransition(e) == Transition(s, i, r.value.outState, r.value.outputs)
  {
    if Transition(s, i, r.value.outState, r.value.outputs) in TransitionSet(es) {
      var e :| e in es && EntryTransition(e) == Transition(s, i, r.value.outState, r.value.outputs);
    }
  }

  /** Every accepted handler has a state builder under its class name and output name. */
  lemma {:induction false} BuilderKeys(es: seq<Entry>, coreType: TypeRef, names: set<string>, refs: set<TypeRef>)
    ensures BuildersOf(es, coreType, names, refs).Keys == set e | e in es :: BuilderKey(e)
    decreases |es|
  {
    if es != [] {
      var front := es[..|es| - 1];
      assert es == front + [es[|es| - 1]];
      BuilderKeys(front, coreType, names, refs);
    }
  }

  predicate DistinctNames(cs: seq<StateClass>)
  {
    forall i, j :: 0 <= i < j < |cs| ==> Name(cs[i]) != Name(cs[j])
  }

  /** With distinct class names, each state's persist flag is the one its state() call gave it. */
  lemma {:induction false} PersistOfDistinct(cs: seq<StateClass>)
    requires DistinctNames(cs)
    ensures PersistOf(cs).Keys == StateNames(cs)
    ensures forall k :: 0 <= k < |cs| ==> PersistOf(cs)[Name(cs[k])] == cs[k].persist
    decreases |cs|
  {
    if cs != [] {
      var front := cs[..|cs| - 1];
      assert cs == front + [cs[|cs| - 1]];
      assert DistinctNames(front);
      PersistOfDistinct(front);
    }
  }

  /** What a built class hands to each instance: the builders, the persist flags and the error state's factory. */
  datatype Table = Table(builders: map<(string, string), StateBuilder>, persist: map<string, bool>, errorFactory: Factory)

  /** A machine instance's state: current state name, core attributes, cluster, live objects, next fresh identity. */
  datatype MachineState = MachineState(state: string, core: map<string, Value>, cluster: map<string, ObjId>,
                                       objects: map<ObjId, StateObject>, nextId: nat)

  /** Every cluster entry names a live object, identities are below nextId, and no object serves two state names. */
  predicate WellFormed(m: MachineState)
  {
    && (forall n :: n in m.cluster ==> m.cluster[n] in m.objects)
    && (forall id :: id in m.objects ==> id < m.nextId)
    && (forall a, b :: a in m.cluster && b in m.cluster && a != b ==> m.cluster[a] != m.cluster[b])
  }

  /** What a handler body does when it runs: return a value, updating the core and its own object's fields, or raise. */
  datatype RunOutcome = Returned(value: Value, core: map<string, Value>, fields: map<string, Value>) | Raised

  /** The handler bodies: given its state object, output name, call arguments and the core. */
  type HandlerRun = (StateObject, string, map<string, Value>, map<string, Value>) -> RunOutcome

  datatype Handled = Handled(after: MachineState, result: Result<Value, Fault>)

  /** Storing a freshly built object under a state name. */
  function Store(m: MachineState, name: string, obj: StateObject): (r: MachineState)
    ensures r.cluster == m.cluster[name := m.nextId] && r.objects == m.objects[m.nextId := obj]
    ensures r.nextId == m.nextId + 1 && r.state == m.state && r.core == m.core
  {
    m.(cluster := m.cluster[name := m.nextId], objects := m.objects[m.nextId := obj], nextId := m.nextId + 1)
  }

  /**
   * One call of an input method: the reference definition of the input
   * method's body, parameterised by the lookup the automaton made (which it
   * does not consult when the current state has no live object).
   */
  function Step(t: Table, m: MachineState, input: string, args: map<string, Value>,
                lookup: Result<Outcome<string, Output>, CoreError<string, string>>, run: HandlerRun): Handled
    requires WellFormed(m)
  {
    if m.state !in m.cluster then Handled(m, Failure(KeyError(m.state)))
    else match lookup
      case Failure(_) => Handled(m, Failure(NoTransitionFault(m.state, input)))
      case Success(o) =>
        var advanced := m.(state := o.outState);
        if |o.outputs| != 1 then Handled(advanced, Failure(UnpackError))
        else match o.outputs[0]
          case None => EnterErrorState(t, advanced, m.state, input)
          case Some(out) => Dispatch(t, advanced, m.state, args, out, run)
  }

  /** The unhandled case: a fresh error-state object replaces whatever the fallback state had, then the input raises. */
  function EnterErrorState(t: Table, a: MachineState, oldName: string, input: string): Handled
  {
    match Construct(t.errorFactory, map[])
    case Failure(f) => Handled(a, Failure(f))
    case Success(obj) => Handled(Store(a, a.state, obj), Failure(Unhandled(oldName, input)))
  }

  /**
   * The handled case, once the machine has advanced to a.state: find the old
   * object's output method and its builder, build the new state's object if
   * the cluster has none, then run the handler.
   */
  function Dispatch(t: Table, a: MachineState, oldName: string, args: map<string, Value>, out: string, run: HandlerRun)
    : Handled
    requires WellFormed(a) && oldName in a.cluster
  {
    var oldId := a.cluster[oldName];
    var oldObj := a.objects[oldId];
    if (oldObj.cls, out) !in t.builders then Handled(a, Failure(AttributeError(out)))
    else if a.state in a.cluster then Invoke(t, a, oldName, oldId, oldObj, args, out, run)
    else match RunBuilder(t.builders[(oldObj.cls, out)], args, Context(a.cluster, a.core))
      case Failure(f) => Handled(a, Failure(f))
      case Success(obj) => Invoke(t, Store(a, a.state, obj), oldName, oldId, oldObj, args, out, run)
  }

  /** Run the old object's handler, then evict the old object if the state changed and its class does not persist. */
  function Invoke(t: Table, b: MachineState, oldName: string, oldId: ObjId, oldObj: StateObject,
                  args: map<string, Value>, out: string, run: HandlerRun): Handled
  {
    match run(oldObj, out, args, b.core)
    case Raised => Handled(b, Failure(HandlerRaised))
    case Returned(v, core', fields') =>
      var ran := b.(core := core', objects := b.objects[oldId := StateObject(oldObj.cls, fields')]);
      if b.state == oldName then Handled(ran, Success(v))
      else if oldObj.cls !in t.persist then Handled(ran, Failure(AttributeError("__persistState__")))
      else if t.persist[oldObj.cls] then Handled(ran, Success(v))
      else Handled(ran.(cluster := ran.cluster - {oldName}), Success(v))
  }

  /** Storing under the next fresh identity keeps the cluster well formed. */
  lemma StoreKeepsWellFormed(m: MachineState, name: string, obj: StateObject)
    requires WellFormed(m)
    ensures WellFormed(Store(m, name, obj))
  {
    var r := Store(m, name, obj);
    forall a, b | a in r.cluster && b in r.cluster && a != b ensures r.cluster[a] != r.cluster[b] {
      if a != name && b != name {
        assert r.cluster[a] == m.cluster[a] && r.cluster[b] == m.cluster[b];
      } else if a == name {
        assert m.cluster[b] in m.objects;
      } else {
        assert m.cluster[a] in m.objects;
      }
    }
  }

  /** Running the handler changes no state name, no identity counter, and at most drops the old state's entry. */
  lemma InvokeFrame(t: Table, b: MachineState, oldName: string, oldId: ObjId, oldObj: StateObject,
                    args: map<string, Value>, out: string, run: HandlerRun)
    requires WellFormed(b) && oldId in b.objects
    ensures var h := Invoke(t, b, oldName, oldId, oldObj, args, out, run);
            && WellFormed(h.after)
            && h.after.state == b.state && h.after.nextId == b.nextId
            && h.after.objects.Keys == b.objects.Keys
            && (forall id :: id in b.objects && id != oldId ==> h.after.objects[id] == b.objects[id])
            && (h.after.cluster == b.cluster || (b.state != oldName && h.after.cluster == b.cluster - {oldName}))
  {
    match run(oldObj, out, args, b.core)
    case Raised =>
    case Returned(v, core', fields') =>
      var ran := b.(core := core', objects := b.objects[oldId := StateObject(oldObj.cls, fields')]);
      assert ran.objects.Keys == b.objects.Keys;
      assert WellFormed(ran);
      var evicted := ran.(cluster := ran.cluster - {oldName});
      assert WellFormed(evicted);
  }

  /** An input method keeps the cluster well formed. */
  lemma StepKeepsWellFormed(t: Table, m: MachineState, input: string, args: map<string, Value>,
                            lookup: Result<Outcome<string, Output>, CoreError<string, string>>, run: HandlerRun)
    requires WellFormed(m)
    ensures WellFormed(Step(t, m, input, args, lookup, run).after)
  {
    if m.state in m.cluster && lookup.Success? && |lookup.value.outputs| == 1 {
      var o := lookup.value;
      var a := m.(state := o.outState);
      match o.outputs[0]
      case None =>
        if Construct(t.errorFactory, map[]).Success? {
          StoreKeepsWellFormed(a, a.state, Construct(t.errorFactory, map[]).value);
        }
      case Some(out) =>
        DispatchFrame(t, a, m.state, args, out, run);
    }
  }

  /** Dispatch builds at most one object, under the new state's name, with the next fresh identity. */
  lemma DispatchFrame(t: Table, a: MachineState, oldName: string, args: map<string, Value>, out: string, run: HandlerRun)
    requires WellFormed(a) && oldName in a.cluster
    ensures var h := Dispatch(t, a, oldName, args, out, run);
            var oldId := a.cluster[oldName];
            var cls := a.objects[oldId].cls;
            && WellFormed(h.after) && h.after.state == a.state
            && ((cls, out) !in t.builders ==> h == Handled(a, Failure(AttributeError(out))))
            && ((cls, out) in t.builders && a.state in a.cluster ==>
                  h == Invoke(t, a, oldName, oldId, a.objects[oldId], args, out, run))
            && ((cls, out) in t.builders && a.state !in a.cluster ==>
                  var b := RunBuilder(t.builders[(cls, out)], args, Context(a.cluster, a.core));
                  && (b.Failure? ==> h == Handled(a, Failure(b.error)))
                  && (b.Success? ==> h == Invoke(t, Store(a, a.state, b.value), oldName, oldId, a.objects[oldId], args, out, run)))
  {
    var oldId := a.cluster[oldName];
    var cls := a.objects[oldId].cls;
    if (cls, out) in t.builders {
      if a.state in a.cluster {
        InvokeFrame(t, a, oldName, oldId, a.objects[oldId], args, out, run);
      } else {
        var b := RunBuilder(t.builders[(cls, out)], args, Context(a.cluster, a.core));
        if b.Success? {
          StoreKeepsWellFormed(a, a.state, b.value);
          InvokeFrame(t, Store(a, a.state, b.value), oldName, oldId, a.objects[oldId], args, out, run);
        }
      }
    }
  }

  /**
   * The target state's object is built only when the cluster has none: an
   * existing object is reused, and a new one gets the next fresh identity
   * and is built from the cluster and core as they were before the call.
   */
  lemma StepBuildsOnlyWhenAbsent(t: Table, m: MachineState, input: string, args: map<string, Value>,
                                 o: Outcome<string, Output>, out: string, run: HandlerRun)
    requires WellFormed(m) && m.state in m.cluster
    requires o.outputs == [Some(out)]
    ensures var h := Step(t, m, input, args, Success(o), run);
            var cls := m.objects[m.cluster[m.state]].cls;
            && h.after.state == o.outState
            && ((cls, out) !in t.builders ==> h == Handled(m.(state := o.outState), Failure(AttributeError(out))))
            && (o.outState in m.cluster ==>
                  h.after.nextId == m.nextId && o.outState in h.after.cluster
                  && h.after.cluster[o.outState] == m.cluster[o.outState])
            && (o.outState !in m.cluster && (cls, out) in t.builders ==>
                  var b := RunBuilder(t.builders[(cls, out)], args, Context(m.cluster, m.core));
                  && (b.Failure? ==> h == Handled(m.(state := o.outState), Failure(b.error)))
                  && (b.Success? ==>
                        h.after.nextId == m.nextId + 1 && o.outState in h.after.cluster
                        && h.after.cluster[o.outState] == m.nextId && h.after.objects[m.nextId] == b.value))
  {
    var a := m.(state := o.outState);
    var oldId := m.cluster[m.state];
    var cls := m.objects[oldId].cls;
    DispatchFrame(t, a, m.state, args, out, run);
    if (cls, out) in t.builders {
      if o.outState in m.cluster {
        InvokeFrame(t, a, m.state, oldId, m.objects[oldId], args, out, run);
      } else {
        var b := RunBuilder(t.builders[(cls, out)], args, Context(m.cluster, m.core));
        if b.Success? {
          StoreKeepsWellFormed(a, a.state, b.value);
          assert oldId in m.objects;
          InvokeFrame(t, Store(a, a.state, b.value), m.state, oldId, m.objects[oldId], args, out, run);
        }
      }
    }
  }

  /**
   * A handled input that succeeded reaches the handler with the machine
   * advanced and, when the target had no object, the new object stored; the
   * old state's entry and object are as they were.
   */
  lemma StepReachesInvoke(t: Table, m: MachineState, input: string, args: map<string, Value>,
                          o: Outcome<string, Output>, out: string, run: HandlerRun)
    returns (b: MachineState)
    requires WellFormed(m) && m.state in m.cluster
    requires o.outputs == [Some(out)]
    requires Step(t, m, input, args, Success(o), run).result.Success?
    ensures WellFormed(b) && b.state == o.outState && b.core == m.core
    ensures o.outState in b.cluster && m.state in b.cluster && b.cluster[m.state] == m.cluster[m.state]
    ensures forall n :: n != o.outState ==>
              (n in b.cluster <==> n in m.cluster) && (n in m.cluster ==> b.cluster[n] == m.cluster[n])
    ensures o.outState in m.cluster ==> b.cluster == m.cluster && b.nextId == m.nextId
    ensures m.cluster[m.state] in b.objects && b.objects[m.cluster[m.state]] == m.objects[m.cluster[m.state]]
    ensures Step(t, m, input, args, Success(o), run)
            == Invoke(t, b, m.state, m.cluster[m.state], m.objects[m.cluster[m.state]], args, out, run)
  {
    var a := m.(state := o.outState);
    var oldId := m.cluster[m.state];
    assert Step(t, m, input, args, Success(o), run) == Dispatch(t, a, m.state, args, out, run);
    DispatchFrame(t, a, m.state, args, out, run);
    if o.outState in m.cluster {
      b := a;
    } else {
      var built := RunBuilder(t.builders[(m.objects[oldId].cls, out)], args, Context(a.cluster, a.core));
      b := Store(a, a.state, built.value);
      StoreKeepsWellFormed(a, a.state, built.value);
      assert oldId < m.nextId;
    }
  }

  /** A handler run that returned gives its value and core, and evicts the old entry unless the state is kept or persists. */
  lemma InvokeReturned(t: Table, b: MachineState, oldName: string, oldId: ObjId, oldObj: StateObject,
                       args: map<string, Value>, out: string, run: HandlerRun)
    requires Invoke(t, b, oldName, oldId, oldObj, args, out, run).result.Success?
    ensures var h := Invoke(t, b, oldName, oldId, oldObj, args, out, run);
            var ran := run(oldObj, out, args, b.core);
            && ran.Returned? && h.result.value == ran.value && h.after.core == ran.core
            && h.after.nextId == b.nextId
            && (b.state != oldName ==> oldObj.cls in t.persist)
            && (b.state == oldName || t.persist[oldObj.cls] ==> h.after.cluster == b.cluster)
            && (b.state != oldName && !t.persist[oldObj.cls] ==> h.after.cluster == b.cluster - {oldName})
  {
    match run(oldObj, out, args, b.core)
    case Returned(_, _, _) =>
  }

  /**
   * After a handled input that returned, the old state's object stays in the
   * cluster exactly when the state did not change or its class persists; no
   * other state name gains or loses its object.
   */
  lemma StepEviction(t: Table, m: MachineState, input: string, args: map<string, Value>,
                     o: Outcome<string, Output>, out: string, run: HandlerRun)
    requires WellFormed(m) && m.state in m.cluster
    requires o.outputs == [Some(out)]
    requires Step(t, m, input, args, Success(o), run).result.Success?
    ensures var h := Step(t, m, input, args, Success(o), run);
            var cls := m.objects[m.cluster[m.state]].cls;
            && (m.state in h.after.cluster <==> o.outState == m.state || t.persist[cls])
            && o.outState in h.after.cluster
            && (forall n :: n != m.state && n != o.outState ==>
                  (n in h.after.cluster <==> n in m.cluster) && (n in m.cluster ==> h.after.cluster[n] == m.cluster[n]))
            && (o.outState == m.state ==> h.after.cluster == m.cluster && h.after.nextId == m.nextId)
  {
    var b := StepReachesInvoke(t, m, input, args, o, out, run);
    InvokeReturned(t, b, m.state, m.cluster[m.state], m.objects[m.cluster[m.state]], args, out, run);
  }

  /** The value an input method returns is that of the old state object's handler, run on the core as it was. */
  lemma StepRunsOldHandler(t: Table, m: MachineState, input: string, args: map<string, Value>,
                           o: Outcome<string, Output>, out: string, run: HandlerRun)
    requires WellFormed(m) && m.state in m.cluster
    requires o.outputs == [Some(out)]
    requires Step(t, m, input, args, Success(o), run).result.Success?
    ensures var oldObj := m.objects[m.cluster[m.state]];
            var ran := run(oldObj, out, args, m.core);
            && ran.Returned?
            && Step(t, m, input, args, Success(o), run).result.value == ran.value
            && Step(t, m, input, args, Success(o), run).after.core == ran.core
  {
    var b := StepReachesInvoke(t, m, input, args, o, out, run);
    InvokeReturned(t, b, m.state, m.cluster[m.state], m.objects[m.cluster[m.state]], args, out, run);
  }

  /**
   * A handler that raises leaves the machine in the new state, with the new
   * state's object built and the old state's object not evicted.
   */
  lemma StepHandlerRaised(t: Table, m: MachineState, input: string, args: map<string, Value>,
                          o: Outcome<string, Output>, out: string, run: HandlerRun)
    requires WellFormed(m) && m.state in m.cluster
    requires o.outputs == [Some(out)]
    requires var cls := m.objects[m.cluster[m.state]].cls;
             (cls, out) in t.builders
             && (o.outState in m.cluster || RunBuilder(t.builders[(cls, out)], args, Context(m.cluster, m.core)).Success?)
             && run(m.objects[m.cluster[m.state]], out, args, m.core) == Raised
    ensures var h := Step(t, m, input, args, Success(o), run);
            && h.result == Failure(HandlerRaised)
            && h.after.state == o.outState
            && o.outState in h.after.cluster && m.state in h.after.cluster
            && h.after.cluster[m.state] == m.cluster[m.state]
  {
  }

  /**
   * An unhandled input stores a fresh error-state object under the fallback
   * state, raises with the old state and the input, and keeps the old
   * state's object.
   */
  lemma StepUnhandled(t: Table, m: MachineState, input: string, args: map<string, Value>,
                      errorName: string, run: HandlerRun)
    requires WellFormed(m) && m.state in m.cluster
    requires Construct(t.errorFactory, map[]).Success?
    ensures var h := Step(t, m, input, args, Success(Outcome(errorName, [None])), run);
            && h.result == Failure(Unhandled(m.state, input))
            && h.after.state == errorName
            && h.after.cluster == m.cluster[errorName := m.nextId]
            && h.after.objects[m.nextId] == Construct(t.errorFactory, map[]).value
            && h.after.objects[m.nextId].cls == t.errorFactory.name
            && (errorName != m.state ==> h.after.cluster[m.state] == m.cluster[m.state])
  {
  }

  /**
   * When building the new state's object fails, the machine has already
   * moved to the new state and has no object for it, so every later input
   * raises KeyError and changes nothing.
   */
  lemma StepFailedBuildIsStuck(t: Table, m: MachineState, input: string, args: map<string, Value>,
                               o: Outcome<string, Output>, out: string, run: HandlerRun,
                               input2: string, args2: map<string, Value>,
                               lookup2: Result<Outcome<string, Output>, CoreError<string, string>>, run2: HandlerRun)
    requires WellFormed(m) && m.state in m.cluster
    requires o.outputs == [Some(out)] && o.outState !in m.cluster
    requires var cls := m.objects[m.cluster[m.state]].cls;
             (cls, out) in t.builders && RunBuilder(t.builders[(cls, out)], args, Context(m.cluster, m.core)).Failure?
    ensures var h := Step(t, m, input, args, Success(o), run);
            && h.result.Failure? && h.after == m.(state := o.outState)
            && WellFormed(h.after)
            && Step(t, h.after, input2, args2, lookup2, run2) == Handled(h.after, Failure(KeyError(o.outState)))
  {
  }

  /** One class's handlers under one protocol: a transition for each handler whose input the protocol defines. */
  method AddHandlerTransitions(automaton: Automaton<string, string, Output>, p: Protocol, c: StateClass, entries: seq<Entry>)
    returns (entries': seq<Entry>)
    requires automaton.transitions == TransitionSet(entries)
    modifies automaton`transitions
    ensures entries' == entries + HandlerEntries(p, c, c.handlers)
    ensures automaton.transitions == TransitionSet(entries')
  {
    entries' := entries;
    var k := 0;
    while k < |c.handlers|
      invariant 0 <= k <= |c.handlers|
      invariant entries' == entries + HandlerEntries(p, c, c.handlers[..k])
      invariant automaton.transitions == TransitionSet(entries')
    {
      var h := c.handlers[k];
      if h.input in p.methods {
        automaton.AddTransition(Name(c), h.input, Target(c, h).name, [Some(h.output)]);
        TransitionSetAppend(entries', Entry(c, h));
        entries' := entries' + [Entry(c, h)];
      }
      assert c.handlers[..k + 1][..k] == c.handlers[..k];
      k := k + 1;
    }
    assert c.handlers[..|c.handlers|] == c.handlers;
  }

  /** One protocol's pass over the state classes, recording each class name among the state factories. */
  method AddProtocolTransitions(automaton: Automaton<string, string, Output>, p: Protocol, cs: seq<StateClass>,
                                entries: seq<Entry>, names: set<string>)
    returns (entries': seq<Entry>, names': set<string>)
    requires automaton.transitions == TransitionSet(entries)
    modifies automaton`transitions
    ensures entries' == entries + ClassEntries(p, cs)
    ensures automaton.transitions == TransitionSet(entries')
    ensures names' == names + StateNames(cs)
  {
    entries', names' := entries, names;
    var j := 0;
    while j < |cs|
      invariant 0 <= j <= |cs|
      invariant entries' == entries + ClassEntries(p, cs[..j])
      invariant automaton.transitions == TransitionSet(entries')
      invariant names' == names + StateNames(cs[..j])
    {
      var c := cs[j];
      names' := names' + {Name(c)};
      ghost var before := ClassEntries(p, cs[..j]);
      entries' := AddHandlerTransitions(automaton, p, c, entries');
      assert cs[..j + 1][..j] == cs[..j] && cs[..j + 1][j] == c;
      assert ClassEntries(p, cs[..j + 1]) == before + HandlerEntries(p, c, c.handlers);
      assert entries' == entries + ClassEntries(p, cs[..j + 1]);
      assert StateNames(cs[..j + 1]) == StateNames(cs[..j]) + {Name(c)} by {
        assert cs[..j + 1] == cs[..j] + [c];
      }
      j := j + 1;
    }
    assert cs[..|cs|] == cs;
  }

  /** The first pass of the build: every protocol, in order, over every state class. */
  method AddAllTransitions(automaton: Automaton<string, string, Output>, ps: seq<Protocol>, cs: seq<StateClass>)
    returns (entries: seq<Entry>, names: set<string>)
    requires automaton.transitions == {}
    modifies automaton`transitions
    ensures entries == AllEntries(ps, cs)
    ensures automaton.transitions == TransitionSet(entries)
    ensures names == if ps == [] then {} else StateNames(cs)
  {
    names, entries := {}, [];
    var i := 0;
    while i < |ps|
      invariant 0 <= i <= |ps|
      invariant entries == AllEntries(ps[..i], cs)
      invariant automaton.transitions == TransitionSet(entries)
      invariant names == if i == 0 then {} else StateNames(cs)
    {
      entries, names := AddProtocolTransitions(automaton, ps[i], cs, entries, names);
      assert ps[..i + 1][..i] == ps[..i];
      i := i + 1;
    }
    assert ps[..|ps|] == ps;
  }

  /** The second pass of the build: a state builder for every accepted handler, now that all state names are known. */
  method AttachBuilders(entries: seq<Entry>, coreType: TypeRef, names: set<string>, refs: set<TypeRef>)
    returns (builders: map<(string, string), StateBuilder>)
    ensures builders == BuildersOf(entries, coreType, names, refs)
  {
    builders := map[];
    var n := 0;
    while n < |entries|
      invariant 0 <= n <= |entries|
      invariant builders == BuildersOf(entries[..n], coreType, names, refs)
    {
      var e := entries[n];
      builders := builders[BuilderKey(e) := EntryBuilder(e, coreType, names, refs)];
      assert entries[..n + 1][..n] == entries[..n];
      n := n + 1;
    }
    assert entries[..|entries|] == entries;
  }

  /** The machine instance: the automaton's cursor, the core and the cluster of live state objects. */
  class TypicalInstance {
    const cls: TypicalClass
    const transitioner: Transitioner<string, string, Output>
    var core: map<string, Value>
    var cluster: map<string, ObjId>
    var objects: map<ObjId, StateObject>
    var nextId: nat

    constructor (cls: TypicalClass, transitioner: Transitioner<string, string, Output>, core: map<string, Value>,
                 initial: StateObject)
      ensures this.cls == cls && this.transitioner == transitioner && this.core == core
      ensures cluster == map[transitioner.state := 0] && objects == map[0 := initial] && nextId == 1
    {
      this.cls := cls;
      this.transitioner := transitioner;
      this.core := core;
      cluster := map[transitioner.state := 0];
      objects := map[0 := initial];
      nextId := 1;
    }

    function Current(): MachineState
      reads this, transitioner
    {
      MachineState(transitioner.state, core, cluster, objects, nextId)
    }

    predicate Valid()
      reads this, transitioner
    {
      transitioner.automaton == cls.automaton && WellFormed(Current())
    }

    /**
     * An input method: look up the transition, advance, build the new state's
     * object if needed, run the old state's handler, evict the old state's
     * object if it does not persist. The outcome is Step's, for the lookup
     * the automaton made.
     */
    method HandleInput(input: string, args: map<string, Value>, run: HandlerRun)
      returns (r: Result<Value, Fault>, lookup: Result<Outcome<string, Output>, CoreError<string, string>>)
      requires Valid()
      modifies this, transitioner
      ensures Valid()
      ensures old(transitioner.state) in old(cluster) ==>
                Allows(cls.automaton.transitions, cls.automaton.fallback, old(transitioner.state), input, lookup)
      ensures Handled(Current(), r) == Step(cls.table, old(Current()), input, args, lookup, run)
    {
      var oldName := transitioner.state;
      lookup := Failure(NoTransition(oldName, input));
      if oldName !in cluster {
        return Failure(KeyError(oldName)), lookup;
      }
      var step := transitioner.Transition(input);
      if step.Failure? {
        lookup := Failure(step.error);
        return Failure(NoTransitionFault(oldName, input)), lookup;
      }
      lookup := Success(Outcome(transitioner.state, step.value));
      if |step.value| != 1 {
        return Failure(UnpackError), lookup;
      }
      match step.value[0]
      case None =>
        r := EnterError(oldName, input);
      case Some(out) =>
        r := DispatchOutput(oldName, args, out, run);
    }

    /** errorState() is called with no arguments and stored under the fallback state before the input raises. */
    method EnterError(oldName: string, input: string) returns (r: Result<Value, Fault>)
      requires Valid()
      modifies this
      ensures Valid() && transitioner.state == old(transitioner.state)
      ensures Handled(Current(), r) == EnterErrorState(cls.table, old(Current()), oldName, input)
    {
      var err := Construct(cls.table.errorFactory, map[]);
      if err.Failure? {
        return Failure(err.error);
      }
      cluster := cluster[transitioner.state := nextId];
      objects := objects[nextId := err.value];
      nextId := nextId + 1;
      r := Failure(Unhandled(oldName, input));
    }

    method DispatchOutput(oldName: string, args: map<string, Value>, out: string, run: HandlerRun)
      returns (r: Result<Value, Fault>)
      requires Valid() && oldName in cluster
      modifies this
      ensures Valid() && transitioner.state == old(transitioner.state)
      ensures Handled(Current(), r) == Dispatch(cls.table, old(Current()), oldName, args, out, run)
    {
      var oldId := cluster[oldName];
      var oldObj := objects[oldId];
      if (oldObj.cls, out) !in cls.table.builders {
        return Failure(AttributeError(out));
      }
      var newName := transitioner.state;
      ghost var a := Current();
      if newName !in cluster {
        var built := Build(cls.table.builders[(oldObj.cls, out)], args, Context(cluster, core));
        if built.Failure? {
          return Failure(built.error);
        }
        StoreKeepsWellFormed(a, newName, built.value);
        cluster := cluster[newName := nextId];
        objects := objects[nextId := built.value];
        nextId := nextId + 1;
        assert Current() == Store(a, newName, built.value);
        assert oldId in objects && objects[oldId] == oldObj;
      }
      r := InvokeHandler(oldName, oldId, oldObj, args, out, run);
    }

    method InvokeHandler(oldName: string, oldId: ObjId, oldObj: StateObject, args: map<string, Value>, out: string,
                         run: HandlerRun) returns (r: Result<Value, Fault>)
      requires Valid() && oldId in objects
      modifies this
      ensures Valid() && transitioner.state == old(transitioner.state)
      ensures Handled(Current(), r) == Invoke(cls.table, old(Current()), oldName, oldId, oldObj, args, out, run)
    {
      match run(oldObj, out, args, core)
      case Raised =>
        r := Failure(HandlerRaised);
      case Returned(v, core', fields') =>
        core := core';
        objects := objects[oldId := StateObject(oldObj.cls, fields')];
        if transitioner.state != oldName {
          if oldObj.cls !in cls.table.persist {
            return Failure(AttributeError("__persistState__"));
          }
          if !cls.table.persist[oldObj.cls] {
            cluster := cluster - {oldName};
          }
        }
        r := Success(v);
    }
  }

  /** A built class: the automaton, the initial state and its builder, and the table for its instances. */
  class TypicalClass {
    const automaton: Automaton<string, string, Output>
    const initialState: string
    const initialBuilder: StateBuilder
    const table: Table

    constructor (automaton: Automaton<string, string, Output>, initialState: string, initialBuilder: StateBuilder,
                 table: Table)
      ensures this.automaton == automaton && this.initialState == initialState
      ensures this.initialBuilder == initialBuilder && this.table == table
    {
      this.automaton := automaton;
      this.initialState := initialState;
      this.initialBuilder := initialBuilder;
      this.table := table;
    }

    /**
     * Instantiating the class: given the core built from the arguments, start
     * at the initial state and build its object from an empty cluster and
     * the same arguments.
     */
    method Call(initArgs: map<string, Value>, core: map<string, Value>) returns (r: Result<TypicalInstance, Fault>)
      ensures var b := RunBuilder(initialBuilder, initArgs, Context(map[], core));
              && (r.Success? <==> b.Success?)
              && (r.Failure? ==> r.error == b.error)
              && (r.Success? ==>
                    && fresh(r.value) && fresh(r.value.transitioner)
                    && r.value.cls == this && r.value.Valid()
                    && r.value.Current() == MachineState(initialState, core, map[initialState := 0], map[0 := b.value], 1))
    {
      var transitioner := new Transitioner(automaton, initialState);
      var built := Build(initialBuilder, initArgs, Context(map[], core));
      if built.Failure? {
        return Failure(built.error);
      }
      var instance := new TypicalInstance(this, transitioner, core, built.value);
      r := Success(instance);
    }
  }

  /** The decorator-based builder: the inputs protocol, the core type and its constructor's parameters. */
  class TypicalBuilder {
    const protocol: Protocol
    const privateProtocols: seq<Protocol>
    const coreType: TypeRef
    const coreParams: seq<Param>
    var stateClasses: seq<StateClass>
    var built: bool
    var errorState: StateClass

    constructor (protocol: Protocol, privateProtocols: seq<Protocol>, coreType: TypeRef, coreParams: seq<Param>)
      ensures this.protocol == protocol && this.privateProtocols == privateProtocols
      ensures this.coreType == coreType && this.coreParams == coreParams
      ensures stateClasses == [] && !built && errorState == DefaultErrorState
    {
      this.protocol := protocol;
      this.privateProtocols := privateProtocols;
      this.coreType := coreType;
      this.coreParams := coreParams;
      stateClasses := [];
      built := false;
      errorState := DefaultErrorState;
    }

    /** The public protocol first, then the private ones. */
    function Protocols(): (ps: seq<Protocol>)
      ensures |ps| >= 1 && ps[0] == protocol
    {
      [protocol] + privateProtocols
    }

    /** state(persist, error): mark the class, then make it the error state or append it to the states. */
    method State(factory: Factory, handlers: seq<HandlerDecl>, persist: bool, error: bool) returns (c: StateClass)
      modifies this`stateClasses, this`errorState
      ensures c == StateClass(factory, handlers, persist)
      ensures error ==> errorState == c && stateClasses == old(stateClasses)
      ensures !error ==> stateClasses == old(stateClasses) + [c] && errorState == old(errorState)
    {
      c := StateClass(factory, handlers, persist);
      if error {
        errorState := c;
      } else {
        stateClasses := stateClasses + [c];
      }
    }

    /**
     * buildClass: refuse a second build; add the error fallback; add one
     * transition per handler whose input a protocol defines; attach a state
     * builder to each; make the first state the initial one.
     */
    method BuildClass() returns (r: Result<TypicalClass, Fault>)
      modifies this`built
      ensures built
      ensures old(built) ==> r == Failure(BuiltTwice)
      ensures !old(built) && stateClasses == [] ==> r == Failure(NoStates)
      ensures !old(built) && stateClasses != [] ==>
                var cs := stateClasses + [errorState];
                var es := AllEntries(Protocols(), cs);
                var refs := ProtocolRefs(Protocols());
                && r.Success? && fresh(r.value) && fresh(r.value.automaton)
                && r.value.automaton.transitions == TransitionSet(es)
                && r.value.automaton.fallback == Some(Outcome(Name(errorState), [None]))
                && r.value.initialState == Name(stateClasses[0])
                && r.value.initialBuilder == BuildStateBuilder(coreType, stateClasses[0].factory, StateNames(cs), coreParams, refs)
                && r.value.table == Table(BuildersOf(es, coreType, StateNames(cs), refs), PersistOf(cs), errorState.factory)
    {
      if built {
        return Failure(BuiltTwice);
      }
      built := true;
      var automaton := new Automaton<string, string, Output>();
      automaton.UnhandledTransition(Name(errorState), [None]);
      var ps := Protocols();
      var cs := stateClasses + [errorState];
      var entries, names := AddAllTransitions(automaton, ps, cs);
      var refs := ProtocolRefs(ps);
      var builders := AttachBuilders(entries, coreType, names, refs);
      if stateClasses == [] {
        return Failure(NoStates);
      }
      var initial := BuildStateBuilder(coreType, stateClasses[0].factory, names, coreParams, refs);
      var tc := new TypicalClass(automaton, Name(stateClasses[0]), initial, Table(builders, PersistOf(cs), errorState.factory));
      r := Success(tc);
    }
  }

  /**
   * The scenarios of test_unsatisfiedDependency and test_buildTwice: a state
   * needing a float attribute the core lacks builds fine, fails with
   * AttributeError on instantiation, and a second build is refused.
   */
  method UnsatisfiedDependencyScenario()
  {
    var float := TypeRef(2, "float");
    var builder := new TypicalBuilder(Protocol(TypeRef(0, "Empty"), {}), [], TypeRef(1, "Core"), []);
    var foo := Param("foo", Annotated(float), None);
    var c := builder.State(Factory("StateWithReq", [foo]), [], true, false);
    var x := builder.BuildClass();
    assert x.Success?;
    var cls := x.value;
    assert builder.stateClasses + [builder.errorState] == [c, DefaultErrorState];
    assert "float" !in StateNames([c, DefaultErrorState]);
    assert builder.Protocols() == [Protocol(TypeRef(0, "Empty"), {})];
    assert float !in ProtocolRefs(builder.Protocols());
    assert NeedsSupplier(foo, []);
    var names := StateNames([c, DefaultErrorState]);
    var refs := ProtocolRefs(builder.Protocols());
    assert SupplierFor(foo, names, TypeRef(1, "Core"), refs) == CoreAttribute("foo");
    assert [foo][1..] == [];
    assert ValueSuppliers([foo], [], names, TypeRef(1, "Core"), refs) == [("foo", CoreAttribute("foo"))];
    assert cls.initialBuilder.suppliers == [("foo", CoreAttribute("foo"))];
    var instance := cls.Call(map[], map[]);
    assert instance == Failure(AttributeError("foo"));
    var again := builder.BuildClass();
    assert again == Failure(BuiltTwice);
  }
}
