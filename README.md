# automat, modelled in Dafny

This project models the core of automat, a Python library for finite-state machines, and proves properties of that model. It has four pieces:

- **Core** (`core.dfy`, from `automat/_core.py`). The `Automaton` is a set of transitions, each a 4-tuple (in-state, input, out-state, outputs). It has a lookup and derived enumerations: the input alphabet, the output alphabet and the states. The `Transitioner` is an automaton plus a current state that advances one input at a time.
- **Methodical** (`methodical.dfy`, from `automat/_methodical.py`). This is the method-based front end:
  - states, inputs and outputs are declared with decorators;
  - `upon` declares a transition and rejects signature mismatches;
  - an input call runs the transition, calls the outputs in order and feeds their values to a collector;
  - a per-instance transitioner is created lazily;
  - a serializer and an unserializer pair map a state to its `serialized` value and back.
- **Typical** (`typical_params.dfy` and `typical.dfy`, from `automat/_typical.py`). This is the decorator-based front end:
  - state classes declare handlers for protocol inputs;
  - `buildClass` turns the classes into an automaton plus a table of state builders;
  - each machine instance keeps a *cluster*, a map from state name to live state object;
  - for each input, the instance advances, builds the target state's object lazily, runs the old state's handler, and evicts the old object unless it persists.

  `TypicalParams` covers the resolver that decides where each state-constructor parameter comes from:
  - the call's arguments;
  - another state's live object;
  - the core;
  - the machine itself;
  - an attribute of the core.
- **Visualize** (`visualize.dfy`, from the label helpers of `automat/_visualize.py`). These are the Graphviz quoting and HTML-like label builders: `_gvquote`, `_gvhtml`, `elementMaker`, `tableMaker` and `_stateAsString`.

`wrappers.dfy` holds `Option` and `Result`. A `Failure` in a `Result` stands for the exception the Python code raises.

## Modelling decisions

- **States, inputs and outputs** are opaque equality types in `Core`.
- **Lookup is nondeterministic.** `outputForInput` scans a Python set and returns the first match. `addTransition` does not reject a second transition for the same (state, input) pair.
  - The lookup is specified by `Core.Allows`: the answer is *some* matching transition, so the scan order stays unspecified.
  - Determinism is proved under an explicit uniqueness invariant, `Core.Deterministic`.
  - No duplicate check was added.
- **Unhandled-input fallback.** `Automaton` has an optional fallback (out-state, outputs), used when nothing matches. `automat/_typical.py:586` calls `unhandledTransition`, which `automat/_core.py` does not define. With no fallback, the model is exactly the lookup of `automat/_core.py:93-102`.
- **Initial state.** `Automaton.initialState` is the attribute that `MethodicalMachine.state` assigns (`automat/_methodical.py:190`).
- **Call arguments** reach the typical layer already bound to parameter names. `Signature.bind` is not part of this model.
- **Decorated methods by value.** `Methodical.MethodRef` is a method's name and argument spec, and states, inputs and outputs compare through it. Python compares the function objects by identity, so two distinct functions with the same name and spec (a method redefined in a class body, say) are one method in the model.
- **Handler and output bodies** are opaque.
  - A typical handler is a function parameter. It either raises, or returns a value together with the new core attributes and its own object's new fields.
  - Methodical output bodies are a function from (output, arguments) to value. Whether the input method's own body raises is a boolean parameter.
- **Handler order.** Typical state classes list their handlers as a sequence. `_stateOutputs` enumerates them in `dir()` order, which affects only the order of build entries.
- **Builder lookup.** A handler's state builder is keyed by (state-class name, output-method name). This matches `getattr(oldStateObject, outputMethodName).__stateBuilder__` (`automat/_typical.py:338-339`).
- **Persist flag.** `__persistState__` is looked up by state-class name (`Typical.PersistOf`). Evicting an object built by an enter factory that was never declared with `state()` therefore fails with AttributeError, as the missing class attribute does at `automat/_typical.py:347`.
- **Default error state.** The default `ErrorState` (`automat/_typical.py:439-445`) is `Typical.DefaultErrorState`, a class with no handlers and with persist false.
- **Specification versus code.** The docstring of `MethodicalMachine.state` (`automat/_methodical.py:170-172`) calls a second initial state an error. The code simply overwrites `automaton.initialState`, and the model follows the code: the last declaration wins.

## Model

| member | source | states |
|---|---|---|
| Core.Automaton.constructor | automat/_core.py:19-24 | a new automaton has no transitions, no initial states, no fallback and no initial state attribute |
| Core.Automaton.AddTransition | automat/_core.py:27-33 | set insertion of the 4-tuple; adding an identical tuple again leaves the set unchanged |
| Core.Automaton.UnhandledTransition | automat/_typical.py:586 | records the (out-state, outputs) answer given when no transition matches |
| Core.Automaton.AllTransitions | automat/_core.py:36-40 | returns exactly the stored transitions |
| Core.Automaton.AddInitialState | automat/_core.py:43-47 | the initial states grow by exactly the given state |
| Core.Automaton.InitialStates | automat/_core.py:86-90 | returns exactly the states passed to AddInitialState |
| Core.Automaton.InputAlphabet | automat/_core.py:50-55 | is InputSymbols of the transitions, so exactly the inputs that occur in them |
| Core.Automaton.OutputAlphabet | automat/_core.py:58-68 | is OutputSymbols of the transitions, so exactly the outputs that occur in them |
| Core.Automaton.States | automat/_core.py:71-83 | is StateSymbols of the transitions, so exactly the in- and out-states that occur in them |
| Core.InputSymbols | automat/_core.py:50-55 | an input is in the alphabet iff some stored transition has it |
| Core.OutputSymbols | automat/_core.py:58-68 | an output is in the alphabet iff it is in the output sequence of some stored transition |
| Core.StateSymbols | automat/_core.py:71-83 | a state is listed iff it is the in-state or the out-state of some stored transition |
| Core.InputsOfAdd | automat/_core.py:27-33 | adding a transition extends the input alphabet by exactly its input |
| Core.OutputsOfAdd | automat/_core.py:27-33 | adding a transition extends the output alphabet by exactly its outputs |
| Core.StatesOfAdd | automat/_core.py:27-33 | adding a transition extends the states by exactly its in-state and out-state |
| Core.SingleTransitionSymbols | automat/_core.py:50-83 | a single transition gives exactly its input, its outputs, and its in- and out-states |
| Core.Allows | automat/_core.py:93-102 | reference definition of a permitted lookup answer: a stored transition from (state, input); or, when none matches, the fallback; or NoTransition(state, input) when none matches and there is no fallback. OutputForInput is proved to return such an answer; EveryMatchIsAllowed, OnlyMatchIsReturned, DeterministicLookup and LookupWithinAlphabets are about it |
| Core.Automaton.OutputForInput | automat/_core.py:93-102 | the result is some transition matching (state, input), else the fallback, else NoTransition naming both; it fails iff nothing matches and there is no fallback |
| Core.LookupWithinAlphabets | automat/_core.py:93-102 | a successful lookup without fallback lies inside the input alphabet, the states and the output alphabet |
| Core.EveryMatchIsAllowed | automat/_core.py:97-100 | every matching transition is a possible answer, and the lookup cannot then fail |
| Core.OnlyMatchIsReturned | automat/_core.py:93-100 | when exactly one transition has the pair, the lookup returns its out-state and outputs |
| Core.AddToUnhandledPair | automat/_core.py:27-33 | adding a transition for an unhandled pair makes it the only match for that pair |
| Core.DeterministicLookup | automat/_core.py:93-100 | under the uniqueness invariant, any two lookups of the same pair agree |
| Core.AddKeepsDeterministicIff | automat/_core.py:27-33 | an insertion keeps uniqueness iff no different transition with the same pair is stored |
| Core.Transitioner.constructor | automat/_core.py:111-113 | the cursor starts at the given state over the given automaton |
| Core.Transitioner.Transition | automat/_core.py:116-123 | on success the state becomes an allowed out-state and its outputs are returned; on failure the state is unchanged |
| Methodical.MInput.constructor | automat/_methodical.py:71-78 | an input starts with no collectors |
| Methodical.MethodicalMachine.constructor | automat/_methodical.py:143-146 | a machine owns a fresh empty automaton and a symbol |
| Methodical.MethodicalMachine.State | automat/_methodical.py:185-191 | the state records machine, method and serialized value; initial sets the automaton's initial state, the last declaration winning |
| Methodical.MethodicalMachine.Input | automat/_methodical.py:202-205 | an input is bound to the machine's automaton and symbol, with no collectors |
| Methodical.MethodicalMachine.Output | automat/_methodical.py:219-220 | an output is bound to the machine and the method, so outputs of two machines never compare equal |
| Methodical.MethodicalMachine.OneTransition | automat/_methodical.py:224-245 | adds exactly (start, input, end, outputs) and records the collector under the start state, overwriting an earlier one |
| Methodical.FirstMismatch | automat/_methodical.py:41-53 | None iff every output's argument spec equals the input's; otherwise an output whose spec differs |
| Methodical.Upon | automat/_methodical.py:35-54 | fails iff some output's spec differs, naming the input and the first mismatching output, with automaton and collectors untouched; otherwise adds the transition and the collector |
| Methodical.StartState | automat/_methodical.py:57-68 | reference definition of the state an instance's transitioner has before a call: the stored transitioner's state, else the automaton's initial state, else none. DoInput, Serialize, Unserialize and SerializeRoundTrip state their results against it |
| Methodical.TransitionerFromInstance | automat/_methodical.py:57-68 | returns the stored transitioner when there is one; otherwise creates one at the initial state and stores it; fails when there is no initial state |
| Methodical.OutputValues | automat/_methodical.py:95-96 | one value per output, in declared order, each from the same arguments; DoInput hands exactly these to the collector |
| Methodical.DoInput | automat/_methodical.py:86-96 | fails only with the missing initial state, the body raising, NoTransition or a missing collector; succeeds exactly when the body returns, a transition or the fallback applies and the pre-transition state has a collector, and then returns that collector applied to the outputs' values in order; the state stays put when the body raises or no transition applies; only the transitioner under the input's symbol may change, so other machines' transitioners keep their state |
| Methodical.Serialize | automat/_methodical.py:253-258 | passes the serialized value of the current state, creating the transitioner if needed |
| Methodical.SerialMapping | automat/_methodical.py:271-273 | the mapping's keys are exactly the states' serialized values, each mapped to a state with that value |
| Methodical.MappingRecoversState | automat/_methodical.py:271-276 | with distinct serialized values, the mapping sends each state's value back to that state |
| Methodical.MappingKeys | automat/_methodical.py:271-276 | a value is a key of the mapping exactly when some state occurring in a transition carries it |
| Methodical.MoveToSerialized | automat/_methodical.py:276 | the mapping lookup raises KeyError (UnknownSerialization) before touching the state exactly when no state has the value; otherwise the state becomes one with that value |
| Methodical.Unserialize | automat/_methodical.py:269-277 | fails with NoInitialState iff there is neither a transitioner nor an initial state; fails with UnknownSerialization iff no state occurring in a transition has the value, leaving the state as it was; otherwise the state becomes such a state, the unique one when values are distinct; only the symbol entry may be added to the attributes, and other transitioners keep their state |
| Methodical.SerializeRoundTrip | automat/_methodical.py:253-277 | serializing then unserializing restores a state that occurs in a transition, when serialized values are distinct |
| TypicalParams.ParamNamed | automat/_typical.py:230-234 | finds a parameter with the given name |
| TypicalParams.NeedsSupplier | automat/_typical.py:224-236 | reference definition of "this factory parameter needs a supplier": the transition does not pass it, or passes it with a different annotation while the factory has no default. ValueSuppliersExact is stated with it |
| TypicalParams.SupplierFor | automat/_typical.py:244-262 | reference definition of the supplier priority order; SupplierPriority proves each kind is chosen exactly when the higher-priority kinds do not apply |
| TypicalParams.ValueSuppliers | automat/_typical.py:216-262 | reference definition of _valueSuppliers, in factory parameter order; ValueSuppliersExact, ValueSuppliersDistinct and SuppliedNamesWithin are proved about it |
| TypicalParams.ValueSuppliersExact | automat/_typical.py:216-262 | yields exactly the factory parameters that the transition does not pass, or passes with a different annotation while the factory has no default, each with the supplier the priority order picks |
| TypicalParams.SupplierPriority | automat/_typical.py:244-262 | a state-class annotation gives that state's object; else the core type gives the core; else a protocol gives the machine; else the core attribute of the same name; an unannotated parameter is looked up by the annotation name `_empty` (the `__name__` of `inspect.Parameter.empty`) |
| TypicalParams.ValueSuppliersDistinct | automat/_typical.py:224-239 | each parameter is supplied at most once |
| TypicalParams.SuppliedNamesWithin | automat/_typical.py:239-262 | every supplied name is a factory parameter name |
| TypicalParams.Supply | automat/_typical.py:144-186 | other state: that cluster entry, or KeyError; core; the machine; core attribute: that attribute, or AttributeError; ApplySuppliersSources lifts this to the bound arguments |
| TypicalParams.Restrict | automat/_typical.py:195-206 | reference definition of dropping the call arguments the factory does not take; ApplySuppliersSources and PassedArgumentKept are about it |
| TypicalParams.ApplySuppliers | automat/_typical.py:207-210 | reference definition of writing each supplier's value over the arguments, in order, stopping at the first that raises; ApplySuppliersSources and BuilderFailsOnSupplier are proved about it |
| TypicalParams.BoundArguments | automat/_typical.py:204-210 | reference definition of the keyword arguments the factory receives: the restricted call arguments with the supplier values written over them; SuppliedBeatsDefault and PassedArgumentKept are about it |
| TypicalParams.ApplySuppliersSources | automat/_typical.py:204-210 | supplier values overwrite same-named arguments, the other arguments pass through, and it fails iff some supplier fails |
| TypicalParams.FirstMissing | automat/_typical.py:211 | finds a parameter with neither an argument nor a default, iff one exists |
| TypicalParams.Construct | automat/_typical.py:211 | the factory call succeeds iff no argument is unexpected and no required one is missing; each field gets its argument, else its default |
| TypicalParams.BuildStateBuilder | automat/_typical.py:265-309 | the suppliers are fixed when the class is built, from the factory and transition signatures; ValueSuppliersExact says which they are |
| TypicalParams.SuppliedBeatsDefault | automat/_typical.py:204-211 | a supplier-filled parameter gets the supplier's value, not the factory default and not a same-named call argument |
| TypicalParams.PassedArgumentKept | automat/_typical.py:204-206 | a call argument the factory takes and no supplier overrides reaches the object unchanged |
| TypicalParams.BuilderFailsOnSupplier | automat/_typical.py:207-210 | building fails before the factory call exactly when a supplier fails |
| TypicalParams.RunBuilder | automat/_typical.py:197-211 | reference definition of calling a state builder: bound arguments then the factory; Build is proved equal to it, and SuppliedBeatsDefault, PassedArgumentKept and BuilderFailsOnSupplier are about it |
| TypicalParams.Build | automat/_typical.py:189-213 | deletes the unwanted arguments, writes each supplier's value, then calls the factory, agreeing with RunBuilder |
| Typical.HandlerEntries | automat/_typical.py:510-615 | reference definition of one class's accepted handlers for one protocol, in declaration order; HandlerEntriesMembership characterises it |
| Typical.ClassEntries | automat/_typical.py:599-615 | reference definition of one protocol's pass over every state class; ClassEntriesMembership characterises it |
| Typical.AllEntries | automat/_typical.py:597-615 | reference definition of the accepted handlers in build order, protocol by protocol; AllEntriesMembership, DeclaredTransitions and BuilderKeys are about it |
| Typical.BuildersOf | automat/_typical.py:622-637 | reference definition of the attached builders, a later entry with the same (class, output) key replacing an earlier one; AttachBuilders is proved equal to it and BuilderKeys gives its keys |
| Typical.HandlerEntriesMembership | automat/_typical.py:507-532 | a handler is accepted for a protocol iff it belongs to the class and the protocol defines its input |
| Typical.ClassEntriesMembership | automat/_typical.py:599-615 | an entry is accepted in one protocol's pass iff its class is declared, it has the handler, and the protocol defines the input |
| Typical.AllEntriesMembership | automat/_typical.py:597-615 | an entry is accepted iff its class is declared, it has the handler, and some protocol defines the input |
| Typical.DeclaredTransitions | automat/_typical.py:597-615 | the built transitions are exactly one per accepted handler: from the class, on its input, to its target, producing its name |
| Typical.BuiltLookupShape | automat/_typical.py:330 | every lookup in a built class succeeds with one output: a declared handler's name, or None from the error fallback when nothing matches |
| Typical.BuilderKeys | automat/_typical.py:624-637 | every accepted handler gets a state builder keyed by its class and output name, and nothing else does |
| Typical.PersistOf | automat/_typical.py:685 | reference definition of the persist flag by class name; PersistOfDistinct proves each class keeps the flag state() gave it |
| Typical.PersistOfDistinct | automat/_typical.py:685 | with distinct class names, every class's persist flag is the one state() gave it |
| Typical.Store | automat/_typical.py:341-343 | a new object goes under the next fresh identity and the state name points at it; StoreKeepsWellFormed proves the result is still well formed |
| Typical.StoreKeepsWellFormed | automat/_typical.py:341-343 | storing a new object keeps the cluster well formed |
| Typical.InvokeFrame | automat/_typical.py:344-349 | running the handler changes no state name and no identity; it at most drops the old entry |
| Typical.InvokeReturned | automat/_typical.py:344-350 | a handler that returned gives its value and core; the old entry is dropped iff the state changed and its class does not persist |
| Typical.DispatchFrame | automat/_typical.py:338-344 | the output method is looked up on the old object; the new object is built only if absent, and building fails before the handler runs |
| Typical.StepReachesInvoke | automat/_typical.py:328-344 | a successful handled input reaches the old object's handler with the machine advanced, the target object present, and the old entry and object unchanged |
| Typical.Step | automat/_typical.py:327-350 | reference definition of one input method call: KeyError without an old object, NoTransitionFault, the one-output unpacking, then EnterErrorState or Dispatch. HandleInput is proved equal to it; StepKeepsWellFormed, StepBuildsOnlyWhenAbsent, StepEviction, StepRunsOldHandler, StepHandlerRaised, StepUnhandled and StepFailedBuildIsStuck are proved about it |
| Typical.EnterErrorState | automat/_typical.py:333-337 | reference definition of the unhandled case: a fresh error object stored under the fallback state, then Unhandled(old, input); EnterError is proved equal to it and StepUnhandled is about it |
| Typical.Dispatch | automat/_typical.py:338-343 | reference definition of finding the old object's builder and building the target's object only when it has none; DispatchOutput is proved equal to it, and DispatchFrame and StepBuildsOnlyWhenAbsent are about it |
| Typical.Invoke | automat/_typical.py:344-350 | reference definition of running the old object's handler and then evicting the old entry on a change of state when its class does not persist; InvokeHandler is proved equal to it, and InvokeFrame and InvokeReturned are about it |
| Typical.StepKeepsWellFormed | automat/_typical.py:327-350 | an input call keeps every cluster entry naming a live object, and no object serves two names |
| Typical.StepBuildsOnlyWhenAbsent | automat/_typical.py:338-343 | an existing target entry is reused; a missing one gets exactly one new object under the next identity, built from the cluster and core as they were before the call |
| Typical.StepEviction | automat/_typical.py:345-349 | after a returned handler, the old entry survives iff the state is unchanged or its class persists; other entries are untouched; a self-transition changes nothing |
| Typical.StepRunsOldHandler | automat/_typical.py:338-350 | the value returned is the old object's handler's value, and the new core is the handler's |
| Typical.StepHandlerRaised | automat/_typical.py:340-344 | a raising handler leaves the machine advanced, with the new entry built and the old one not evicted |
| Typical.StepUnhandled | automat/_typical.py:333-337 | an unhandled input stores a fresh error-state object under the fallback state and raises Unhandled(old state, input); the machine stays in the error state |
| Typical.StepFailedBuildIsStuck | automat/_typical.py:340-343 | a failed build leaves the machine advanced with no object for the new state, so every later input raises KeyError |
| Typical.TypicalInstance.constructor | automat/_typical.py:417-429 | the cluster holds the initial object under the initial state, with identity 0 |
| Typical.TypicalInstance.HandleInput | automat/_typical.py:327-350 | the lookup is allowed by the automaton, the outcome and the new instance state are Step's, and the cluster stays well formed |
| Typical.TypicalInstance.EnterError | automat/_typical.py:333-337 | agrees with EnterErrorState |
| Typical.TypicalInstance.DispatchOutput | automat/_typical.py:338-343 | agrees with Dispatch |
| Typical.TypicalInstance.InvokeHandler | automat/_typical.py:344-350 | agrees with Invoke |
| Typical.TypicalClass.constructor | automat/_typical.py:398-415 | records the automaton, the initial state, its builder and the table |
| Typical.TypicalClass.Call | automat/_typical.py:417-429 | instantiation succeeds iff the initial builder does, on an empty cluster; the instance starts in the initial state holding that object |
| Typical.TypicalBuilder.constructor | automat/_typical.py:560-576 | no states, not built, and the default error state (no handlers, not persistent) |
| Typical.TypicalBuilder.Protocols | automat/_typical.py:597 | the public protocol comes first, then the private ones |
| Typical.TypicalBuilder.State | automat/_typical.py:676-692 | with error it replaces the error state and leaves the state list unchanged; otherwise it appends to the list |
| Typical.AddHandlerTransitions | automat/_typical.py:602-615 | adds one transition per handler of the class whose input the protocol defines |
| Typical.AddProtocolTransitions | automat/_typical.py:598-615 | one protocol's pass over all classes, recording every class name as a state factory |
| Typical.AddAllTransitions | automat/_typical.py:597-621 | the first build pass adds exactly the transitions of all accepted handlers and records every state name |
| Typical.AttachBuilders | automat/_typical.py:622-637 | attaches a state builder to every accepted handler after all state names are known |
| Typical.TypicalBuilder.BuildClass | automat/_typical.py:578-674 | a second build fails with BuiltTwice; an empty state list fails with NoStates; otherwise the transitions are the declared ones, the fallback is (error state, [None]), the first state is initial and its builder uses the core's constructor parameters |
| Visualize.EscapeWellFormed | automat/_visualize.py:10-11 | every '"' in the escaped text is preceded by a backslash |
| Visualize.UnescapeEscape | automat/_visualize.py:10-11 | escaping is undone by unescaping |
| Visualize.Escape | automat/_visualize.py:11 | reference definition of `replace('"', r'\"')`; EscapeWellFormed, UnescapeEscape, EscapeConcat and NoQuotesEscape are proved about it |
| Visualize.GvQuote | automat/_visualize.py:10-11 | reference definition of _gvquote; GvQuoteWellFormed, GvQuoteInjective and QuoteNoQuotes are proved about it |
| Visualize.GvQuoteWellFormed | automat/_visualize.py:10-11 | the result starts and ends with '"', every inner quote is escaped, and the inside unescapes to the argument |
| Visualize.GvQuoteInjective | automat/_visualize.py:10-11 | different strings quote differently |
| Visualize.EscapeConcat | automat/_visualize.py:11 | escaping works character by character |
| Visualize.NoQuotesEscape | automat/_visualize.py:11 | text without '"' is unchanged by escaping |
| Visualize.QuoteNoQuotes | automat/_visualize.py:10-11 | text without '"' is just wrapped in double quotes |
| Visualize.GvHtml | automat/_visualize.py:14-15 | the argument wrapped in angle brackets, unescaped, unlike GvQuote |
| Visualize.LexLessIrreflexive | automat/_visualize.py:23 | the key order used for sorting is irreflexive |
| Visualize.LexLessTransitive | automat/_visualize.py:23 | the key order is transitive |
| Visualize.LexLessTotal | automat/_visualize.py:23 | the key order is total on distinct keys |
| Visualize.Insert | automat/_visualize.py:23 | inserting adds exactly the one attribute |
| Visualize.InsertMembers | automat/_visualize.py:23 | an element of an insertion result is the inserted attribute or was already present |
| Visualize.InsertSorted | automat/_visualize.py:23 | inserting a new key into a sorted list keeps it sorted |
| Visualize.SortAttrs | automat/_visualize.py:23 | sorting permutes the attributes |
| Visualize.SortAttrsSorted | automat/_visualize.py:23 | sorting distinct keys gives increasing keys |
| Visualize.SortedUnique | automat/_visualize.py:23 | two sorted permutations of the same attributes are equal |
| Visualize.SortedTail | automat/_visualize.py:23 | dropping the first attribute keeps a list sorted |
| Visualize.SortedHeads | automat/_visualize.py:23 | two sorted permutations start with the same attribute |
| Visualize.SortedTails | automat/_visualize.py:23 | two arrangements of the same attributes with equal heads have tails that are arrangements of each other |
| Visualize.ElementMakerOrderIndependent | automat/_visualize.py:18-28 | the element text does not depend on the order in which the attributes were given |
| Visualize.FormattedAttrs | automat/_visualize.py:22-23 | reference definition of the attribute text: key=quoted value for each attribute sorted by key, joined by single spaces; ElementMakerOrderIndependent is about it |
| Visualize.ElementMaker | automat/_visualize.py:18-28 | reference definition of elementMaker; ElementMakerOrderIndependent and ElementMakerNoAttrs are proved about it |
| Visualize.ElementMakerNoAttrs | automat/_visualize.py:25-28 | with no attributes and no children the element is "<name ></name>", keeping the space |
| Visualize.NatToString | automat/_visualize.py:37 | the decimal text is non-empty and all digits |
| Visualize.NatToStringValue | automat/_visualize.py:37 | the decimal text reads back as the number |
| Visualize.TableMaker | automat/_visualize.py:31-60 | a table with one row when there are no output labels, two otherwise |
| Visualize.TableInputRow | automat/_visualize.py:35-45 | the first row is one td cell holding the input label, with colspan absent for no labels and the decimal count otherwise |
| Visualize.TableOutputRow | automat/_visualize.py:47-58 | with labels, the second row has one td cell per label, holding the labels in order |
| Visualize.OutputCellsLeaves | automat/_visualize.py:48-53 | the output cells hold the labels in order |
| Visualize.OutputCellsNoPort | automat/_visualize.py:48-53 | no output cell carries the port attribute |
| Visualize.TablePortCell | automat/_visualize.py:39-45 | exactly one cell carries the port, and it is the td of the first row |
| Visualize.Render | automat/_visualize.py:31-60 | reference definition of the text tableMaker produces with its default `_E=elementMaker`: each element node is elementMaker of its name, its rendered children and its attributes; TableMakerText, RenderInputCell and RenderOutputCell are proved about it |
| Visualize.RenderAllPointwise | automat/_visualize.py:24 | the rendered children are the children rendered one by one, in order |
| Visualize.RenderInputCell | automat/_visualize.py:35-45 | the input label cell is elementMaker's td, with color, port and (when there are outputs) colspan, around the font element with face menlo-italic holding the label |
| Visualize.RenderOutputCell | automat/_visualize.py:47-53 | an output label cell is elementMaker's pink td around the font element with point-size 9 holding the label |
| Visualize.RenderOutputCells | automat/_visualize.py:47-53 | the output row's children render to one output cell per label, in order |
| Visualize.RenderTableRows | automat/_visualize.py:55-60 | the rendered rows are the input row and, only when there are output labels, the output row |
| Visualize.TableMakerText | automat/_visualize.py:31-60 | the rendered table is elementMaker's table around the input row holding the rendered input cell and, when there are output labels, an output row holding one rendered output cell per label, in order |
| Visualize.StateAsString | automat/_visualize.py:63-82 | success returns the "name = value" rows joined by newlines, which contain no ':'; it fails iff the joined text contains ':' |
| Visualize.JoinContains | automat/_visualize.py:74 | a character not in the separator occurs in the join iff it occurs in some part |
| Visualize.StateAsStringRefusesColon | automat/_visualize.py:72-81 | the text is refused iff some name or value contains ':' |

## Left out

- `makeDigraph` and `tool` in `automat/_visualize.py`. They drive the graphviz library, argparse and file rendering.
- Runtime reflection:
  - `_liveSignature`, `inspect.signature` and `getargspec` are replaced by explicit parameter lists and argument specs;
  - `get_type_hints` and `Enter` annotations are replaced by the resolved enter factory of each handler;
  - `actuallyDefinedProtocolMethods` is replaced by each protocol's explicit method-name set;
  - the dynamic `type(...)` class synthesis, `_TypicalClass.__instancecheck__`, `@wraps` and `preserveName` have no counterpart.
- `_bindableCommonMethod` and common methods. They are thin forwarders to user code.
- Tracing. `automat/_typical.py:330` unpacks an `(outputs, tracer)` pair from `transition`, while `automat/_core.py:116-123` returns only the outputs; the model keeps the outputs and has no tracer.
- The Python set iteration order:
  - `outputForInput`'s scan is modelled as any matching transition;
  - `_valueSuppliers` iterates a set, and the model uses factory parameter order, so when several suppliers fail, which error is reported may differ;
  - the unserializer's mapping, when two states share a serialized value, keeps an unspecified one;
  - `_stateAsString` takes a sequence of pairs rather than a frozenset.
- `gensym`. The machine's attribute symbol is a constructor parameter.
- Argument binding by `Signature.bind`. Arguments arrive already bound, so binding errors are not modelled.
- Effects of user code: side effects of handler, output and input bodies beyond the returned value, the core attributes and the handler's own object; re-entrant calls from state objects back into the machine; lazy generator consumption in `doInput`.
- Methodical.DoInput: an output body cannot raise, because output values come from a total function parameter.
- Typical.TypicalInstance.HandleInput: accepts any input name. The synthetic class of `automat/_typical.py:315-352` only has methods for protocol inputs, so a name outside the protocols is an AttributeError there, whereas the model reaches the fallback and the error state.
- The literal label strings of `automat/_test/test_visualize.py`. The model states the shape of every label for all inputs rather than restating those examples.
- Example scripts, the benchmark and packaging files. They are usage demonstrations, not part of the core.
