/**
 * Where the constructor parameters of a state class come from
 * (automat/_typical.py: _valueSuppliers, the four supplier closures,
 * _stateBuilder and _buildStateBuilder), over explicit parameter descriptors.
 */
module TypicalParams {
  import opened Wrappers

  /** Identity of a state object inside one machine instance. */
  type ObjId = nat

  /** A class or protocol: compared by identity (id), looked up in the state table by name. */
  datatype TypeRef = TypeRef(id: nat, name: string)

  /** A parameter's annotation; an unannotated parameter carries inspect.Parameter.empty,
   * the class inspect._empty, whose __name__ is "_empty". */
  datatype Annotation = Empty | Annotated(t: TypeRef)

  function AnnotationName(a: Annotation): string
  {
    match a
    case Empty => "_empty"
    case Annotated(t) => t.name
  }

  /** The values that flow into state constructors. */
  datatype Value =
    | IntValue(i: int)
    | StrValue(s: string)
    | ObjValue(id: ObjId)
    | CoreValue
    | MachineValue
    | NoValue

  datatype Param = Param(name: string, annotation: Annotation, default: Option<Value>)

  /** A state factory: a state class or an enter callable, with its parameters (self excluded). */
  datatype Factory = Factory(name: string, params: seq<Param>)

  /** A state object: the name of the factory that built it and its constructor arguments. */
  datatype StateObject = StateObject(cls: string, fields: map<string, Value>)

  /** The four value builders of _valueSuppliers. */
  datatype Supplier = OtherState(state: string) | CoreObject | SyntheticSelf | CoreAttribute(attr: string)

  /** The exceptions the typical front end raises. */
  datatype Fault =
    | KeyError(key: string)
    | AttributeError(name: string)
    | MissingArgument(factory: string, param: string)
    | UnexpectedArgument(factory: string)
    | NoTransitionFault(state: string, input: string)
    | UnpackError
    | Unhandled(state: string, input: string)
    | HandlerRaised
    | BuiltTwice
    | NoStates

  function Names(ps: seq<Param>): set<string>
  {
    set p | p in ps :: p.name
  }

  /** The first parameter of that name. */
  function ParamNamed(ps: seq<Param>, n: string): (p: Param)
    requires n in Names(ps)
    ensures p in ps && p.name == n
  {
    if ps[0].name == n then ps[0] else ParamNamed(ps[1..], n)
  }

  /**
   * A factory parameter must be supplied when the transition does not pass it,
   * or passes it with a different annotation while the factory gives it no default.
   */
  predicate NeedsSupplier(p: Param, transition: seq<Param>)
  {
    p.name !in Names(transition)
    || (ParamNamed(transition, p.name).annotation != p.annotation && p.default.None?)
  }

  /** The priority order of _valueSuppliers: another state, the core, the machine, a core attribute. */
  function SupplierFor(p: Param, stateNames: set<string>, coreType: TypeRef, protocols: set<TypeRef>): Supplier
  {
    if AnnotationName(p.annotation) in stateNames then OtherState(AnnotationName(p.annotation))
    else if p.annotation == Annotated(coreType) then CoreObject
    else if p.annotation.Annotated? && p.annotation.t in protocols then SyntheticSelf
    else CoreAttribute(p.name)
  }

  /** _valueSuppliers: one supplier per factory parameter that needs one, in parameter order. */
  function ValueSuppliers(factory: seq<Param>, transition: seq<Param>, stateNames: set<string>,
                          coreType: TypeRef, protocols: set<TypeRef>): seq<(string, Supplier)>
  {
    if factory == [] then []
    else
      var rest := ValueSuppliers(factory[1..], transition, stateNames, coreType, protocols);
      if NeedsSupplier(factory[0], transition) then
        [(factory[0].name, SupplierFor(factory[0], stateNames, coreType, protocols))] + rest
      else rest
  }

  /**
   * ValueSuppliers yields exactly the factory parameters that need a supplier,
   * each paired with the supplier the priority order picks for it.
   */
  lemma {:induction false} ValueSuppliersExact(factory: seq<Param>, transition: seq<Param>, stateNames: set<string>,
                                               coreType: TypeRef, protocols: set<TypeRef>)
    ensures var r := ValueSuppliers(factory, transition, stateNames, coreType, protocols);
            && (forall k :: 0 <= k < |r| ==>
                  exists p :: p in factory && NeedsSupplier(p, transition)
                              && r[k] == (p.name, SupplierFor(p, stateNames, coreType, protocols)))
            && (forall p :: p in factory && NeedsSupplier(p, transition) ==>
                  (p.name, SupplierFor(p, stateNames, coreType, protocols)) in r)
  {
    if factory != [] {
      var tail := factory[1..];
      ValueSuppliersExact(tail, transition, stateNames, coreType, protocols);
      var rest := ValueSuppliers(tail, transition, stateNames, coreType, protocols);
      var r := ValueSuppliers(factory, transition, stateNames, coreType, protocols);
      var head := (factory[0].name, SupplierFor(factory[0], stateNames, coreType, protocols));
      var needs := NeedsSupplier(factory[0], transition);
      assert r == if needs then [head] + rest else rest;
      forall k | 0 <= k < |r|
        ensures exists p :: p in factory && NeedsSupplier(p, transition)
                            && r[k] == (p.name, SupplierFor(p, stateNames, coreType, protocols))
      {
        if needs && k == 0 {
          assert factory[0] in factory;
        } else {
          var j := if needs then k - 1 else k;
          assert r[k] == rest[j];
          var p :| p in tail && NeedsSupplier(p, transition)
                   && rest[j] == (p.name, SupplierFor(p, stateNames, coreType, protocols));
          assert p in factory;
        }
      }
      forall p | p in factory && NeedsSupplier(p, transition)
        ensures (p.name, SupplierFor(p, stateNames, coreType, protocols)) in r
      {
        if p != factory[0] {
          var m :| 0 <= m < |factory| && factory[m] == p;
          assert tail[m - 1] == p;
        }
      }
    }
  }

  /** Each supplier kind is chosen exactly when the higher-priority kinds do not apply. */
  lemma SupplierPriority(p: Param, stateNames: set<string>, coreType: TypeRef, protocols: set<TypeRef>)
    ensures var s := SupplierFor(p, stateNames, coreType, protocols);
            && (s.OtherState? <==> AnnotationName(p.annotation) in stateNames)
            && (s.OtherState? ==> s.state == AnnotationName(p.annotation))
            && (s.CoreObject? <==> AnnotationName(p.annotation) !in stateNames && p.annotation == Annotated(coreType))
            && (s.SyntheticSelf? <==> AnnotationName(p.annotation) !in stateNames && p.annotation != Annotated(coreType)
                                      && p.annotation.Annotated? && p.annotation.t in protocols)
            && (s.CoreAttribute? ==> s.attr == p.name)
    ensures p.annotation == Empty ==>
              var s := SupplierFor(p, stateNames, coreType, protocols);
              if "_empty" in stateNames then s == OtherState("_empty") else s == CoreAttribute(p.name)
  {
  }

  /** What a value builder can see: the machine's current cluster and its core's attributes. */
  datatype Context = Context(cluster: map<string, ObjId>, core: map<string, Value>)

  /** Running one value builder. */
  function Supply(s: Supplier, ctx: Context): (r: Result<Value, Fault>)
    ensures s.OtherState? ==> (r.Success? <==> s.state in ctx.cluster)
                              && (r.Success? ==> r.value == ObjValue(ctx.cluster[s.state]))
                              && (r.Failure? ==> r.error == KeyError(s.state))
    ensures s.CoreObject? ==> r == Success(CoreValue)
    ensures s.SyntheticSelf? ==> r == Success(MachineValue)
    ensures s.CoreAttribute? ==> (r.Success? <==> s.attr in ctx.core)
                                 && (r.Success? ==> r.value == ctx.core[s.attr])
                                 && (r.Failure? ==> r.error == AttributeError(s.attr))
  {
    match s
    case OtherState(n) => if n in ctx.cluster then Success(ObjValue(ctx.cluster[n])) else Failure(KeyError(n))
    case CoreObject => Success(CoreValue)
    case SyntheticSelf => Success(MachineValue)
    case CoreAttribute(a) => if a in ctx.core then Success(ctx.core[a]) else Failure(AttributeError(a))
  }

  /** The call arguments whose names the factory takes. */
  function Restrict(args: map<string, Value>, wanted: set<string>): map<string, Value>
  {
    map k | k in args && k in wanted :: args[k]
  }

  /** Writing each supplier's value over the arguments, stopping at the first one that raises. */
  function ApplySuppliers(kw: map<string, Value>, sups: seq<(string, Supplier)>, ctx: Context): Result<map<string, Value>, Fault>
    decreases |sups|
  {
    if sups == [] then Success(kw)
    else match Supply(sups[0].1, ctx)
      case Failure(e) => Failure(e)
      case Success(v) => ApplySuppliers(kw[sups[0].0 := v], sups[1..], ctx)
  }

  /** The keyword arguments _stateBuilder passes to the factory. */
  function BoundArguments(wanted: set<string>, args: map<string, Value>, sups: seq<(string, Supplier)>, ctx: Context)
    : Result<map<string, Value>, Fault>
  {
    ApplySuppliers(Restrict(args, wanted), sups, ctx)
  }

  function SupplierNames(sups: seq<(string, Supplier)>): set<string>
  {
    set k | 0 <= k < |sups| :: sups[k].0
  }

  predicate DistinctSupplierNames(sups: seq<(string, Supplier)>)
  {
    forall i, j :: 0 <= i < j < |sups| ==> sups[i].0 != sups[j].0
  }

  /** ValueSuppliers names each parameter at most once when the factory's parameter names are distinct. */
  predicate DistinctParamNames(ps: seq<Param>)
  {
    forall i, j :: 0 <= i < j < |ps| ==> ps[i].name != ps[j].name
  }

  /** Every name ValueSuppliers yields belongs to a factory parameter. */
  lemma {:induction false} SuppliedNamesWithin(factory: seq<Param>, transition: seq<Param>, stateNames: set<string>,
                                               coreType: TypeRef, protocols: set<TypeRef>)
    ensures forall k :: 0 <= k < |ValueSuppliers(factory, transition, stateNames, coreType, protocols)| ==>
              ValueSuppliers(factory, transition, stateNames, coreType, protocols)[k].0 in Names(factory)
  {
    if factory != [] {
      var tail := factory[1..];
      SuppliedNamesWithin(tail, transition, stateNames, coreType, protocols);
      var rest := ValueSuppliers(tail, transition, stateNames, coreType, protocols);
      var r := ValueSuppliers(factory, transition, stateNames, coreType, protocols);
      assert factory[0].name in Names(factory) by { assert factory[0] in factory; }
      forall n | n in Names(tail) ensures n in Names(factory) {
        var p :| p in tail && p.name == n;
        assert p in factory;
      }
      forall k | 0 <= k < |r| ensures r[k].0 in Names(factory) {
        if NeedsSupplier(factory[0], transition) {
          if k > 0 {
            assert r[k] == rest[k - 1];
          }
        } else {
          assert r[k] == rest[k];
        }
      }
    }
  }

  lemma {:induction false} ValueSuppliersDistinct(factory: seq<Param>, transition: seq<Param>, stateNames: set<string>,
                                                  coreType: TypeRef, protocols: set<TypeRef>)
    requires DistinctParamNames(factory)
    ensures DistinctSupplierNames(ValueSuppliers(factory, transition, stateNames, coreType, protocols))
  {
    if factory != [] {
      var tail := factory[1..];
      assert DistinctParamNames(tail) by {
        forall i, j | 0 <= i < j < |tail| ensures tail[i].name != tail[j].name {
          assert tail[i] == factory[i + 1] && tail[j] == factory[j + 1];
        }
      }
      assert factory[0].name !in Names(tail) by {
        forall p | p in tail ensures p.name != factory[0].name {
          var m :| 0 <= m < |tail| && tail[m] == p;
          assert factory[m + 1] == p;
        }
      }
      ValueSuppliersDistinct(tail, transition, stateNames, coreType, protocols);
      SuppliedNamesWithin(tail, transition, stateNames, coreType, protocols);
      var rest := ValueSuppliers(tail, transition, stateNames, coreType, protocols);
      var r := ValueSuppliers(factory, transition, stateNames, coreType, protocols);
      if NeedsSupplier(factory[0], transition) {
        assert r == [(factory[0].name, SupplierFor(factory[0], stateNames, coreType, protocols))] + rest;
        forall i, j | 0 <= i < j < |r| ensures r[i].0 != r[j].0 {
          assert r[j] == rest[j - 1];
          assert rest[j - 1].0 in Names(tail);
          if i > 0 {
            assert r[i] == rest[i - 1];
          }
        }
      } else {
        assert r == rest;
      }
    }
  }

  /**
   * Where each argument the factory receives comes from: supplier values win,
   * call arguments the factory does not name are dropped, the rest are passed
   * through; building fails exactly when some supplier fails.
   */
  lemma {:induction false} ApplySuppliersSources(kw: map<string, Value>, sups: seq<(string, Supplier)>, ctx: Context)
    requires DistinctSupplierNames(sups)
    ensures var r := ApplySuppliers(kw, sups, ctx);
            && (r.Failure? <==> exists k :: 0 <= k < |sups| && Supply(sups[k].1, ctx).Failure?)
            && (r.Success? ==>
                  r.value.Keys == kw.Keys + SupplierNames(sups)
                  && (forall k :: 0 <= k < |sups| ==> r.value[sups[k].0] == Supply(sups[k].1, ctx).value)
                  && (forall n :: n in kw && n !in SupplierNames(sups) ==> r.value[n] == kw[n]))
    decreases |sups|
  {
    if sups != [] {
      var tail := sups[1..];
      SuppliersTail(sups);
      match Supply(sups[0].1, ctx)
      case Failure(e) =>
      case Success(v) =>
        var kw' := kw[sups[0].0 := v];
        ApplySuppliersSources(kw', tail, ctx);
        var r := ApplySuppliers(kw', tail, ctx);
        assert ApplySuppliers(kw, sups, ctx) == r;
        if r.Failure? {
          var k :| 0 <= k < |tail| && Supply(tail[k].1, ctx).Failure?;
          assert sups[k + 1] == tail[k];
        } else {
          forall k | 0 <= k < |sups| ensures Supply(sups[k].1, ctx).Success? {
            if k > 0 {
              assert sups[k] == tail[k - 1];
            }
          }
          forall k | 0 <= k < |sups| ensures r.value[sups[k].0] == Supply(sups[k].1, ctx).value {
            if k > 0 {
              assert sups[k] == tail[k - 1];
            }
          }
        }
    }
  }

  /** Splitting a supplier list with distinct names into its head and its tail. */
  lemma SuppliersTail(sups: seq<(string, Supplier)>)
    requires sups != [] && DistinctSupplierNames(sups)
    ensures DistinctSupplierNames(sups[1..])
    ensures SupplierNames(sups) == {sups[0].0} + SupplierNames(sups[1..])
    ensures sups[0].0 !in SupplierNames(sups[1..])
  {
    var tail := sups[1..];
    forall i, j | 0 <= i < j < |tail| ensures tail[i].0 != tail[j].0 {
      assert tail[i] == sups[i + 1] && tail[j] == sups[j + 1];
    }
    forall n | n in SupplierNames(sups) ensures n in {sups[0].0} + SupplierNames(tail) {
      var k :| 0 <= k < |sups| && sups[k].0 == n;
      if k > 0 { assert tail[k - 1].0 == n; }
    }
    forall n | n in SupplierNames(tail) ensures n in SupplierNames(sups) && n != sups[0].0 {
      var k :| 0 <= k < |tail| && tail[k].0 == n;
      assert sups[k + 1].0 == n;
    }
  }

  /** The factory call: every parameter gets its keyword argument or its default; extra or missing ones raise. */
  function Construct(f: Factory, kw: map<string, Value>): (r: Result<StateObject, Fault>)
    ensures r.Success? <==> kw.Keys <= Names(f.params) && forall p :: p in f.params ==> p.name in kw || p.default.Some?
    ensures r.Success? ==> r.value.cls == f.name && r.value.fields.Keys == Names(f.params)
    ensures r.Success? ==> forall n :: n in kw ==> r.value.fields[n] == kw[n]
    ensures r.Success? ==> forall p :: p in f.params && p.name !in kw ==> r.value.fields[p.name] == ParamNamed(f.params, p.name).default.value
  {
    if !(kw.Keys <= Names(f.params)) then Failure(UnexpectedArgument(f.name))
    else match FirstMissing(f.params, kw)
      case Some(p) => Failure(MissingArgument(f.name, p.name))
      case None =>
        Success(StateObject(f.name, map n | n in Names(f.params) :: if n in kw then kw[n] else ParamNamed(f.params, n).default.value))
  }

  /** The first parameter with neither a keyword argument nor a default. */
  function FirstMissing(ps: seq<Param>, kw: map<string, Value>): (r: Option<Param>)
    ensures r.None? <==> forall p :: p in ps ==> p.name in kw || p.default.Some?
    ensures r.Some? ==> r.value in ps && r.value.name !in kw && r.value.default.None?
  {
    if ps == [] then None
    else if ps[0].name !in kw && ps[0].default.None? then Some(ps[0])
    else
      assert forall p :: p in ps ==> p == ps[0] || p in ps[1..];
      FirstMissing(ps[1..], kw)
  }

  /** A state builder: the transition's parameters (self excluded), the factory, the suppliers. */
  datatype StateBuilder = StateBuilder(transition: seq<Param>, factory: Factory, suppliers: seq<(string, Supplier)>)

  /** _buildStateBuilder: the suppliers are decided once, when the class is built. */
  function BuildStateBuilder(coreType: TypeRef, factory: Factory, stateNames: set<string>, transition: seq<Param>,
                             protocols: set<TypeRef>): (b: StateBuilder)
    ensures b.transition == transition && b.factory == factory
    ensures b.suppliers == ValueSuppliers(factory.params, transition, stateNames, coreType, protocols)
  {
    StateBuilder(transition, factory, ValueSuppliers(factory.params, transition, stateNames, coreType, protocols))
  }

  /** Calling a state builder: bind, drop, supply, then call the factory. */
  function RunBuilder(b: StateBuilder, args: map<string, Value>, ctx: Context): Result<StateObject, Fault>
  {
    match BoundArguments(Names(b.factory.params), args, b.suppliers, ctx)
    case Failure(e) => Failure(e)
    case Success(kw) => Construct(b.factory, kw)
  }

  /**
   * A supplier-filled parameter gets the supplier's value even when the factory
   * declares a default for it, and even when the call passed a value of that name.
   */
  lemma SuppliedBeatsDefault(b: StateBuilder, args: map<string, Value>, ctx: Context, k: nat)
    requires DistinctSupplierNames(b.suppliers)
    requires k < |b.suppliers|
    requires RunBuilder(b, args, ctx).Success?
    ensures Supply(b.suppliers[k].1, ctx).Success?
    ensures b.suppliers[k].0 in RunBuilder(b, args, ctx).value.fields
    ensures RunBuilder(b, args, ctx).value.fields[b.suppliers[k].0] == Supply(b.suppliers[k].1, ctx).value
  {
    ApplySuppliersSources(Restrict(args, Names(b.factory.params)), b.suppliers, ctx);
    assert b.suppliers[k].0 in SupplierNames(b.suppliers);
  }

  /** A call argument the factory takes and no supplier overrides reaches the object unchanged. */
  lemma PassedArgumentKept(b: StateBuilder, args: map<string, Value>, ctx: Context, n: string)
    requires DistinctSupplierNames(b.suppliers)
    requires n in args && n in Names(b.factory.params) && n !in SupplierNames(b.suppliers)
    requires RunBuilder(b, args, ctx).Success?
    ensures RunBuilder(b, args, ctx).value.fields[n] == args[n]
  {
    ApplySuppliersSources(Restrict(args, Names(b.factory.params)), b.suppliers, ctx);
  }

  /** Building fails before the factory is called exactly when one of the suppliers raises. */
  lemma BuilderFailsOnSupplier(b: StateBuilder, args: map<string, Value>, ctx: Context)
    requires DistinctSupplierNames(b.suppliers)
    ensures BoundArguments(Names(b.factory.params), args, b.suppliers, ctx).Failure?
            <==> exists k :: 0 <= k < |b.suppliers| && Supply(b.suppliers[k].1, ctx).Failure?
  {
    ApplySuppliersSources(Restrict(args, Names(b.factory.params)), b.suppliers, ctx);
  }

  /**
   * _stateBuilder's body: delete the unwanted call arguments one by one, then
   * write each supplier's value, then call the factory.
   */
  method Build(b: StateBuilder, args: map<string, Value>, ctx: Context) returns (r: Result<StateObject, Fault>)
    ensures r == RunBuilder(b, args, ctx)
  {
    var wanted := Names(b.factory.params);
    var bound := args;
    var unwanted := bound.Keys - wanted;
    while unwanted != {}
      invariant unwanted <= args.Keys
      invariant bound == map k | k in args && (k in wanted || k in unwanted) :: args[k]
      decreases unwanted
    {
      var k :| k in unwanted;
      bound := map n | n in bound && n != k :: bound[n];
      unwanted := unwanted - {k};
    }
    assert bound == Restrict(args, wanted);
    var i := 0;
    while i < |b.suppliers|
      invariant 0 <= i <= |b.suppliers|
      invariant ApplySuppliers(Restrict(args, wanted), b.suppliers, ctx) == ApplySuppliers(bound, b.suppliers[i..], ctx)
    {
      var (name, supplier) := b.suppliers[i];
      var v := Supply(supplier, ctx);
      if v.Failure? {
        assert b.suppliers[i..][0] == b.suppliers[i];
        return Failure(v.error);
      }
      assert b.suppliers[i..][1..] == b.suppliers[i + 1..];
      bound := bound[name := v.value];
      i := i + 1;
    }
    r := Construct(b.factory, bound);
  }
}
