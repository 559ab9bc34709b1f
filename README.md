# state_machine events, guards and transitions in Dafny

This project models the part of the Ruby `state_machine` library that decides and carries
out a state change. An **event** (`lib/state_machine/event.rb`) holds an ordered list of
**guards**, one per `transition` declaration. Firing the event on an object goes like this:

- The first guard that matches the object's current state is selected.
- Its `to` state is taken as the target. A lambda is evaluated on the spot. With no `to`,
  the target is the current state.
- The resulting **transition** is performed. The before-callbacks may halt it. Otherwise the
  attribute is written, the action hook (`save`) runs and its outcome is the result. The
  after-callbacks then run and cannot change that result.

A guard's matching rules are those the unit tests of `Guard` pin down
(`test/unit/guard_test.rb`). The perform protocol is the one the ActiveRecord integration
tests pin down (`test/unit/integrations/active_record_test.rb`).

Modules:

- `Wrappers`: `Option` and `Result`.
- `Errors`: `ArgumentError` for unknown option keys and `InvalidTransition` for the strict
  `name!` variant, with the messages Ruby prints.
- `OrderedSets`: Ruby's `Array#|`, an order-preserving union. It comes with its lemmas: no
  repeats, membership, and first-seen order.
- `Guards`: matchers, queries, targets, the options list, requirements, `Guard.new` and
  `matches?`.
- `GuardProperties`: the guard-test cases, each generalised to all values.
- `Transitions`: the transition record, callbacks, the machine's relevant part, the
  specification function `Run`, and the class `Record`. `Record.Perform` performs a
  transition step by step and is proved equal to `Run`.
- `TransitionProperties`: the perform contract, the step order, the machine's known states,
  and the integration-test scenarios.
- `Events`: first-match selection, `next_transition`, `can_fire?`, `fire` and `name!`
  (strict), and the known states. The class `Event` holds the guard list and the memoised
  known states; defining a guard, memoising, copying and firing are its methods.
- `EventProperties`: lemmas relating these operations.

Ruby values used as states and event names (symbols, strings, `nil`) are a type parameter
`V`. The object a guard condition is evaluated on is a type parameter `O`. A callback or
condition is a total function to `bool`, standing for the truthiness of what the Ruby block
returns.

## Model

| member | source | states |
|---|---|---|
| Errors.Error.Message | lib/state_machine/event.rb:146 | a strict-fire error reads "Cannot transition via :" + event + " from " + state, as event.rb:146 builds it; an unknown key error reads "Invalid key(s): " followed by the keys, as guard_test.rb:8-11 expects for one key; the ", " separator between several keys is assumed (Ruby's `join(', ')`) |
| Errors.Join | test/unit/guard_test.rb:8-11 | joining no parts gives the empty string, one part gives that part |
| OrderedSets.Union | lib/state_machine/event.rb:43 | no contract; defines adding a list to an accumulator element by element, skipping elements already present; its promises are proved by UnionElements, UnionNoDups, UnionFirstSeenOrder and UnionAppend |
| OrderedSets.Or | lib/state_machine/event.rb:43 | no contract; defines Ruby's `a \| b` as the union of `a + b` into nothing; OrSpec proves its promise |
| OrderedSets.OrSpec | lib/state_machine/event.rb:43 | `a \| b` has no repeats, holds exactly the elements of `a` and `b`, and keeps them in the order of first occurrence in `a + b` |
| OrderedSets.OrIsUnion | lib/state_machine/event.rb:43 | when the accumulator has no repeats, `acc \| s` adds the new elements of `s` after `acc` one by one |
| OrderedSets.UnionElements | lib/state_machine/event.rb:43 | an element is in the union iff it is in the accumulator or in the added list |
| OrderedSets.UnionNoDups | lib/state_machine/event.rb:43 | the union of a repeat-free accumulator with anything has no repeats |
| OrderedSets.UnionAppend | lib/state_machine/event.rb:43 | adding `a + b` equals adding `a` and then `b`, which is what folding `\|=` over the guards relies on |
| OrderedSets.UnionFresh | lib/state_machine/event.rb:43 | adding a repeat-free list that shares nothing with the accumulator appends it |
| OrderedSets.UnionKeepsPrefix | lib/state_machine/event.rb:43 | the union starts with the accumulator unchanged |
| OrderedSets.UnionFirstSeenOrder | lib/state_machine/event.rb:43 | the union lists elements in the order of their first occurrence in accumulator followed by the added list |
| Guards.UnrecognisedKeys | test/unit/guard_test.rb:8-11 | the keys outside the accepted set: empty iff every entry is recognised, and a key is listed iff some unrecognised entry carries it |
| Guards.ValidateKeys | lib/state_machine/event.rb:83 | `assert_valid_keys` passes iff every key is accepted, and otherwise raises `ArgumentError` naming the unaccepted keys |
| Guards.Lookup | test/unit/guard_test.rb:342-373 | finds the first recognised entry under a key, and none before it carries that key; none found means no entry carries it |
| Guards.NewGuard | test/unit/guard_test.rb:8-16 | `Guard.new` fails iff some key is not one of the eight accepted ones, the failure naming the unrecognised keys; otherwise it builds the guard |
| Guards.DimensionMatcher | test/unit/guard_test.rb:342-373 | no contract; defines one dimension's matcher as the whitelist when the positive key is given, else the blacklist when the `except_` key is given, else all; the Except...IgnoredBeside... lemmas and the whitelist and blacklist lemmas prove what it gives |
| Guards.RequirementOf | test/unit/guard_test.rb:13-16 | no contract; defines the from, to and on matchers of the options; RequirementsNormalised and DimensionsIndependent prove its meaning |
| Guards.Build | test/unit/guard_test.rb:13-16 | no contract; defines the guard built from accepted options: the requirement, the first `if` and `unless` conditions and the `to` target; RequirementsNormalised, NilRequirements and IfDecidesOverUnless prove what it builds |
| Guards.Guard.ConditionsHold | test/unit/guard_test.rb:438-484 | no contract; defines the condition check, in which `if` decides when given and `unless` otherwise; IfCondition, UnlessCondition and IfDecidesOverUnless prove its meaning |
| Guards.Guard.Matches | test/unit/guard_test.rb:19-484 | no contract; defines `matches?` as every given query dimension being accepted and the conditions holding; the whitelist, blacklist, DimensionsIndependent and AbsentDimensionsDoNotFilter lemmas prove its meaning |
| Guards.Requirement.KnownStates | test/unit/guard_test.rb:401-408 | no contract; defines a requirement's known states as the from-literals `\|` the to-literals; GuardKnownStates proves its promise |
| Guards.Guard.KnownStates | test/unit/guard_test.rb:401-408 | no contract; a guard knows its requirement's states; GuardKnownStates, KnownStatesFromThenTo and KnownStatesNotRepeated prove what it gives |
| GuardProperties.InvalidKeyRejected | test/unit/guard_test.rb:8-11 | `Guard.new(:invalid => true)` fails with the message "Invalid key(s): invalid" |
| GuardProperties.RecognisedKeysAccepted | test/unit/guard_test.rb:3-16 | options made only of recognised keys are always accepted |
| GuardProperties.RequirementsNormalised | test/unit/guard_test.rb:3-16 | `:to => idling, :from => parked` is held as the whitelists `[parked]` and `[idling]`, with target `idling` |
| GuardProperties.NoRequirementsMatchEveryQuery | test/unit/guard_test.rb:19-36 | a guard with no options matches a nil, empty or full query, and knows no states |
| GuardProperties.AbsentDimensionsDoNotFilter | test/unit/guard_test.rb:375-383 | dropping a dimension from a query never turns a match into a mismatch; the empty query matches iff the conditions hold |
| GuardProperties.FromWhitelist | test/unit/guard_test.rb:38-90 | with `from`, a given from value matches iff it is listed (nil only when listed); to and on are ignored; the listed states are known |
| GuardProperties.ToWhitelist | test/unit/guard_test.rb:92-125 | with `to`, a given to value matches iff it is the target; from and on are ignored; the target is known |
| GuardProperties.OnWhitelist | test/unit/guard_test.rb:146-194 | with `on`, a given event matches iff it is listed; event names are not known states |
| GuardProperties.FromBlacklist | test/unit/guard_test.rb:196-244 | with `except_from`, a given from value matches iff it is not listed (nil matches unless listed); the listed states are known |
| GuardProperties.ToBlacklist | test/unit/guard_test.rb:246-294 | with `except_to`, a given to value matches iff it is not listed; the listed states are known |
| GuardProperties.OnBlacklist | test/unit/guard_test.rb:296-340 | with `except_on`, a given event matches iff it is not listed; no states are known |
| GuardProperties.ExceptFromIgnoredBesideFrom | test/unit/guard_test.rb:342-351 | given both `from` and `except_from`, construction succeeds and only the whitelist decides |
| GuardProperties.ExceptToIgnoredBesideTo | test/unit/guard_test.rb:353-362 | given both `to` and `except_to`, construction succeeds and only the target decides |
| GuardProperties.ExceptOnIgnoredBesideOn | test/unit/guard_test.rb:364-373 | given both `on` and `except_on`, construction succeeds and only the whitelist decides |
| GuardProperties.DimensionsIndependent | test/unit/guard_test.rb:375-399 | with from, to and on all given, a query matches iff each dimension it gives is accepted |
| GuardProperties.GuardKnownStates | test/unit/guard_test.rb:401-408 | a guard's known states are its from-literals then its to-literals, each once, in first-seen order |
| GuardProperties.KnownStatesFromThenTo | test/unit/guard_test.rb:401-403 | `from: parked, to: idling, on: ignite` knows `[parked, idling]` |
| GuardProperties.KnownStatesNotRepeated | test/unit/guard_test.rb:405-408 | `except_from: idling, to: idling` knows `[idling]` |
| GuardProperties.KnownStatesOfList | test/unit/guard_test.rb:87-89 | a repeat-free list of states is known as given |
| GuardProperties.NilRequirements | test/unit/guard_test.rb:411-435 | `from: nil, to: nil` matches the empty query and nil/nil, does not match parked or idling, and knows `[nil]` |
| GuardProperties.IfCondition | test/unit/guard_test.rb:438-452 | with `if`, the guard matches iff the condition holds |
| GuardProperties.UnlessCondition | test/unit/guard_test.rb:454-468 | with `unless`, the guard matches iff the condition does not hold |
| GuardProperties.IfDecidesOverUnless | test/unit/guard_test.rb:470-484 | given both, in either order, the guard matches iff the `if` condition holds |
| Transitions.Scan | test/unit/integrations/active_record_test.rb:348-431 | no contract; defines a callback phase over the callbacks' verdicts: skipped ones are passed by, invoked ones are recorded, and the first failing one stops the phase; ScanMeetsSpec and ScanPrefix prove its meaning |
| Transitions.Run | test/unit/integrations/active_record_test.rb:269-431 | no contract; defines `perform` as an outcome: the result, whether the state was written, and the steps taken; BeforeFailureHalts, AfterCallbacksKeepResult, AfterCallbackFailureStops, StepsInOrder and WriteAndActionSteps prove its promises, and Record.Perform is proved equal to it |
| Transitions.MachineStates | test/unit/integrations/active_record_test.rb:341-345 | no contract; defines the machine's known states as the initial state and `otherStates` `\|` the callback filters' states; MachineStatesSpec proves its promise |
| Transitions.Record.Perform | test/unit/integrations/active_record_test.rb:269-431 | performing on a record returns `Run`'s result, writes the target state exactly when `Run` says so (otherwise the state is unchanged), and appends `Run`'s steps to the trace |
| Transitions.Record.RunBeforeCallbacks | test/unit/integrations/active_record_test.rb:348-376 | the before-callback loop halts exactly when the specified phase stops, invokes exactly the specified callbacks in order, and leaves the state alone |
| Transitions.Record.RunAfterCallbacks | test/unit/integrations/active_record_test.rb:403-431 | the after-callback loop invokes exactly the specified callbacks in order, each with the result, and leaves the state alone |
| TransitionProperties.ScanMeetsSpec | test/unit/integrations/active_record_test.rb:348-431 | a callback phase invokes, in registration order, exactly the callbacks whose filter accepts, up to and including the first that returns false, and stops iff that one exists |
| TransitionProperties.ScanPrefix | test/unit/integrations/active_record_test.rb:348-431 | every invoked callback before the one that stopped the phase passed; an unstopped phase had every accepting callback pass |
| TransitionProperties.BeforeFailureHalts | test/unit/integrations/active_record_test.rb:348-376 | the state is not written iff some accepting before-callback returns false; then the result is false, only before-callbacks ran, and none after the failing one |
| TransitionProperties.AfterCallbacksKeepResult | test/unit/integrations/active_record_test.rb:378-431 | once written, the result is the action's outcome (true without an action) whatever the after-callbacks return, and each after-callback is handed that result |
| TransitionProperties.AfterCallbackFailureStops | test/unit/integrations/active_record_test.rb:403-431 | no after-callback registered after an accepting one that returns false is invoked |
| TransitionProperties.ResultIndependentOfAfterCallbacks | test/unit/integrations/active_record_test.rb:403-418 | replacing the after-callbacks changes neither whether the state is written nor the result |
| TransitionProperties.StepsInOrder | test/unit/integrations/active_record_test.rb:518-566 | before-callbacks, the state write, the action and after-callbacks happen in that order, and each callback list in registration order |
| TransitionProperties.WriteAndActionSteps | test/unit/integrations/active_record_test.rb:365-371 | the state is written iff the perform gets past the before-callbacks, and the action runs iff the state was written and there is an action |
| TransitionProperties.MachineStatesSpec | test/unit/integrations/active_record_test.rb:341-345 | the machine knows, each once, exactly its initial state, its other states (the caller's list, which is where the events' known states belong) and the states named in callback filters |
| TransitionProperties.FailedBeforeCallbackScenario | test/unit/integrations/active_record_test.rb:348-376 | with a false then a true before-callback: result false, state not written, action not run, one callback invoked |
| TransitionProperties.FailedActionScenario | test/unit/integrations/active_record_test.rb:378-401 | a failing save gives result false, with the state already written |
| TransitionProperties.FailedAfterCallbackScenario | test/unit/integrations/active_record_test.rb:403-431 | with a false then a true after-callback: result true, state written, saved, one after-callback invoked with true |
| TransitionProperties.MixedCallbacksScenario | test/unit/integrations/active_record_test.rb:518-566 | a before- and an after-callback run before and after the write and save respectively |
| TransitionProperties.CallbackStatesScenario | test/unit/integrations/active_record_test.rb:341-345 | `before_transition :to => 'error'` on a machine starting at "off" makes it know exactly "error" and "off" |
| Events.NewEventGuard | lib/state_machine/event.rb:82-87 | `transition` fails iff some key is outside to/from/except_from/if/unless, naming those keys; otherwise it yields exactly the guard `Guard.new` builds |
| Events.FirstMatch | lib/state_machine/event.rb:102 | `find` yields the first guard matching the current state, with none before it matching; nothing iff no guard matches |
| Events.NextTransition | lib/state_machine/event.rb:99-108 | no transition iff no guard matches; otherwise the transition from the current state, named after the event, to the first matching guard's target |
| Events.CanFire | lib/state_machine/event.rb:93-95 | `can_fire?` holds iff some guard matches the current state |
| Events.TargetOf | lib/state_machine/event.rb:104-105 | no contract; defines the target as the guard's `to`, evaluated now when it is a lambda, else the current state; FirstMatchingGuardWins, LoopbackScenario and DeferredTargetScenario prove its use |
| Events.FireOutcome | lib/state_machine/event.rb:113-119 | no contract; defines `fire`'s outcome as nothing, with result false, without a transition, else the perform's outcome; FireAndStrict proves both branches |
| Events.StateAfterFire | lib/state_machine/event.rb:113-119 | no contract; defines the attribute after `fire` as the target when the perform wrote it, else the current state; FireAndStrict and StrictAfterFailedAction prove what it gives |
| Events.FoldKnownStates | lib/state_machine/event.rb:43 | no contract; defines `guards.inject(acc) {\|states, guard\| states \|= guard.known_states}`; FoldIsUnion ties it to the union of all guards' states |
| Events.GuardsKnownStates | lib/state_machine/event.rb:42-44 | no contract; defines the event's known states as the fold from nothing; EventKnownStates and KnownStatesAfterTransition prove its promises |
| Events.Strict | lib/state_machine/event.rb:145-147 | the strict variant fails iff `fire` returned false, with `InvalidTransition` naming the event and the state after firing; otherwise it returns true |
| Events.Event.AddTransition | lib/state_machine/event.rb:82-87 | on success the new guard is appended to the event's guards; on failure they are unchanged; the memoised known states are left as they are |
| Events.Event.KnownStates | lib/state_machine/event.rb:42-44 | returns the memoised states if any, else computes them from the guards and memoises them; an up-to-date memo stays up to date |
| Events.Event.Copy | lib/state_machine/event.rb:34-38 | the copy is a new event with the same guards and no memoised states |
| Events.Event.Fire | lib/state_machine/event.rb:113-119 | firing performs the selected transition on the record, with its result, state and steps; without a transition it returns false and changes nothing |
| Events.Event.FireStrict | lib/state_machine/event.rb:145-147 | the strict fire does what `fire` does and fails exactly when it returned false, naming the state the record is in afterwards |
| EventProperties.EventRefusesGuardOnlyKeys | lib/state_machine/event.rb:82-83 | `on` and `except_to` are accepted by `Guard.new` but refused by `transition` with "Invalid key(s)" naming both |
| EventProperties.EventGuardFromTo | lib/state_machine/event.rb:82-87 | `transition :from => parked, :to => idling` yields the guard whitelisting `parked` and leading to `idling` |
| EventProperties.FirstMatchingGuardWins | lib/state_machine/event.rb:57-59 | a matching guard preceded only by non-matching guards decides the transition |
| EventProperties.LaterGuardsNeverOverride | lib/state_machine/event.rb:57-59 | appending guards never changes the transition an earlier matching guard selects |
| EventProperties.CanFireIffNextTransition | lib/state_machine/event.rb:93-95 | `can_fire?` holds iff `next_transition` finds one |
| EventProperties.FireAndStrict | lib/state_machine/event.rb:113-119 | with no transition, `fire` is false and changes nothing, and the strict variant fails naming the current state; otherwise `fire` is the perform's result and the strict variant succeeds iff it is true |
| EventProperties.StrictAfterFailedAction | lib/state_machine/event.rb:145-147 | when the action fails, the strict error and its message name the target state, already written, not the state fired from |
| EventProperties.IgniteScenario | lib/state_machine/event.rb:99-108 | `ignite` from parked to idling leads from parked to idling, and cannot fire from idling |
| EventProperties.FirstOfTwoGuardsScenario | lib/state_machine/event.rb:57-59 | of two guards from parked, the first declared decides |
| EventProperties.LoopbackScenario | lib/state_machine/event.rb:104 | a guard without `to` leads back to the current state |
| EventProperties.DeferredTargetScenario | lib/state_machine/event.rb:61-69 | a lambda target is evaluated each time, so the same event leads to different states at different moments |
| EventProperties.EventKnownStates | lib/state_machine/event.rb:40-44 | the event knows, each once, exactly the states some guard knows, in first-seen order through the guards |
| EventProperties.KnownStatesAfterTransition | lib/state_machine/event.rb:42-44 | with one more guard, the known states are the old ones followed by the guard's new ones |
| EventProperties.CopyIsIndependent | lib/state_machine/event.rb:34-38 | defining a transition on a copy leaves the original's guards and memoised states as they were, and the copy starts with no memo |

Behaviours of the code recorded here:

- `known_states` is memoised with `||=`, and `transition` does not clear the memo. A guard
  defined after the first `known_states` call is therefore missing from the memo.
  `Event.KnownStates` keeps this behaviour: the memo agrees with the guards only while no
  guard is added.
- The strict variant builds its message only after `fire` has returned, from the
  attribute's value at that point. When the action fails, the state has already been written
  (active_record_test.rb:378-401), so the message names the target state.
- Giving both `from` and `except_from` (likewise `to` and `except_to`, `on` and
  `except_on`) is not an error, and the `except_` key is ignored (guard_test.rb:342-373).
  Giving both `if` and `unless` is not an error, and `if` decides (guard_test.rb:470-484).

## Left out

- A list-valued `:to` (guard_test.rb:127-144) is not modelled. `next_transition` takes
  `requirements[:to]` as one value (event.rb:104-105), so a guard's target is a single state
  or a lambda.
- guard_test.rb:14 shows that even a single `:to => :idling` is stored as the list
  `[:idling]`, and event.rb:104 would then take that list as the target. The model does not
  follow this mismatch: a guard holds the to-whitelist `In([idling])` for matching and,
  separately, the target `Literal(idling)` that `next_transition` uses.
- A lambda target names no literal state. Such a guard whitelists nothing in its to
  dimension and adds no known states.
- `:to => nil` is not modelled as a loopback. Ruby's `||` at event.rb:104 treats a nil target
  as absent, whereas `Literal(nil)` leads to `nil`.
- Repeated keys and key order are not modelled as a Ruby hash has them. The options are a
  list of entries, which may repeat a key. `Guards.Lookup` takes the first entry under a key,
  whereas a Ruby hash literal keeps the last. `Guards.UnrecognisedKeys` lists a repeated
  unknown key once per entry, whereas `options.keys - valid` lists it once. The order of the
  keys in an "Invalid key(s)" message is the order the entries are given, as in an
  insertion-ordered hash. For options without repeated keys, which is all a Ruby hash can
  hold, the model and the code agree.
- An `Unknown(key)` entry may carry a key the guard accepts, such as `Unknown("from")`. The model
  refuses it, so `Guards.NewGuard` and `Events.NewEventGuard` fail for it. A Ruby hash cannot
  give that error, because an entry under `:from` is always accepted. Options built only from
  the typed entries for the accepted keys, and from `Unknown` for the others, are exactly the
  Ruby hashes; for them model and code agree.
- The ", " separator between several unknown keys in an "Invalid key(s)" message is assumed
  from Ruby's `join(', ')`. The module that builds that message is not part of this model; the
  tests show a message with a single key only.
- The clock read by a lambda target is the `now: Moment` parameter.
- `add_actions` (event.rb:124-149) is not modelled: the metaprogrammed `can_<name>?`,
  `next_<name>_transition`, `<name>` and `<name>!` methods and the machine registry lookup.
  `Event.Fire` and `Event.FireStrict` stand for the last two.
- Callback arity conventions, the callback's `self` (active_record_test.rb:277-339) and
  `*args` passed to `fire` and to the action are not modelled.
- `if`/`unless` options on callback filters are not modelled. A callback filter is a from/to/on
  requirement.
- Observers (active_record_test.rb:433-516, including the observer entries of the mixed order
  at 518-566) are not modelled.
- Persistence, the `new_record?` flag, validations and transactions are not modelled. The
  action is an opaque function returning whether it succeeded.
- The `state?` predicate and its error for unknown states are not modelled. Nor are the
  GraphViz drawing (guard_test.rb:491-598), the DataMapper integration and eval_helpers.
- TransitionProperties.MachineStatesSpec: the machine's states are given as a set without
  repeats. `Machine` holds no events, so the states the events know reach the machine only
  through `otherStates`, which the caller fills in. Their order is not stated, since active_record_test.rb:344 compares them sorted.
- Exceptions raised by conditions, callbacks or actions are not modelled; every such
  function returns a value.
- The tests refer to `StateMachine::Guard` while event.rb lives in
  `PluginAWeek::StateMachine`. Module names play no part in the model.
