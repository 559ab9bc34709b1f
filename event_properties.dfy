/**
 * What an event promises: first-match selection, the loopback and deferred targets, firing
 * and its strict variant, and the known states as the ordered union of the guards' states.
 */
module EventProperties {
  import opened Wrappers
  import opened Errors
  import opened OrderedSets
  import opened Guards
  import opened Transitions
  import opened Events

  /** Keys a guard accepts but an event does not (`on`, `except_on`, `except_to`) are refused by
      `transition`, and the error names them in the order given. */
  lemma EventRefusesGuardOnlyKeys<O, V>(events: seq<V>, states: seq<V>)
    ensures NewGuard<O, V>([On(events), ExceptTo(states)]).Success?
    ensures NewEventGuard<O, V>([On(events), ExceptTo(states)]) == Failure(ArgumentError(["on", "except_to"]))
  {
    var ss: seq<Setting<O, V>> := [On(events), ExceptTo(states)];
    assert ss[1..] == [ExceptTo(states)] && ss[1..][1..] == [];
    assert UnrecognisedKeys(ss[1..][1..], EventKeys) == [];
    assert UnrecognisedKeys(ss[1..], EventKeys) == ["except_to"];
    assert UnrecognisedKeys(ss, EventKeys) == ["on", "except_to"];
    assert forall i :: 0 <= i < |ss| ==> Recognised(ss[i], GuardKeys);
  }

  /** `transition :from => parked, :to => idling` gives the guard whitelisting `parked` as from
      state and leading to `idling`. */
  lemma EventGuardFromTo<O, V>(parked: V, idling: V)
    ensures NewEventGuard<O, V>([From([parked]), To(Literal(idling))]) ==
      Success(Guard(Requirement(In([parked]), In([idling]), All), None, None, Some(Literal(idling))))
  {
    var ss: seq<Setting<O, V>> := [From([parked]), To(Literal(idling))];
    assert ss[1..] == [To(Literal(idling))];
    assert Lookup(ss, "to") == Some(1);
    assert forall i :: 0 <= i < |ss| ==> Recognised(ss[i], EventKeys);
  }

  /** A guard that matches, preceded only by guards that do not, decides the transition: from
      the current state, named after the event, to that guard's target. */
  lemma FirstMatchingGuardWins<O, V>(guards: seq<Guard<O, V>>, attribute: string, name: V, obj: O, current: V, now: Moment, i: nat)
    requires i < |guards| && guards[i].Matches(obj, FromQuery(current))
    requires forall j :: 0 <= j < i ==> !guards[j].Matches(obj, FromQuery(current))
    ensures NextTransition(guards, attribute, name, obj, current, now) ==
      Some(Transition(obj, attribute, name, current, TargetOf(guards[i], current, now)))
  {
    var r := FirstMatch(guards, obj, current);
    assert r.Some?;
    assert !(r.value < i) && !(i < r.value);
  }

  /** Appending guards never changes the transition an earlier matching guard selects. */
  lemma LaterGuardsNeverOverride<O, V>(guards: seq<Guard<O, V>>, more: seq<Guard<O, V>>, attribute: string, name: V, obj: O, current: V, now: Moment)
    requires NextTransition(guards, attribute, name, obj, current, now).Some?
    ensures NextTransition(guards + more, attribute, name, obj, current, now) ==
      NextTransition(guards, attribute, name, obj, current, now)
  {
    var i := FirstMatch(guards, obj, current).value;
    assert forall j :: 0 <= j <= i ==> (guards + more)[j] == guards[j];
    FirstMatchingGuardWins(guards, attribute, name, obj, current, now, i);
    FirstMatchingGuardWins(guards + more, attribute, name, obj, current, now, i);
  }

  /** `can_fire?` holds exactly when `next_transition` finds a transition, at any moment. */
  lemma CanFireIffNextTransition<O, V>(guards: seq<Guard<O, V>>, attribute: string, name: V, obj: O, current: V, now: Moment)
    ensures CanFire(guards, obj, current) <==> NextTransition(guards, attribute, name, obj, current, now).Some?
  {
  }

  /** Without a transition, `fire` returns false, performs nothing and leaves the state; the
      strict variant then fails naming the event and that state. With one, `fire` returns what
      performing it returns, and the strict variant fails exactly when that is false. */
  lemma FireAndStrict<O, V>(m: Machine<O, V>, next: Option<Transition<O, V>>, name: V, current: V)
    ensures next.None? ==> FireOutcome(m, next) == Outcome(false, false, [])
    ensures next.None? ==> StateAfterFire(m, next, current) == current
    ensures next.None? ==>
      Strict(FireOutcome(m, next).result, name, StateAfterFire(m, next, current)) == Failure(InvalidTransition(name, current))
    ensures next.Some? ==> FireOutcome(m, next).result == Run(m, next.value).result
    ensures next.Some? ==> (Strict(FireOutcome(m, next).result, name, StateAfterFire(m, next, current)).Success?
                            <==> Run(m, next.value).result)
  {
  }

  /** When the action fails, the state has already been written, so the strict variant's error
      names the target state rather than the state the event was fired from. */
  lemma StrictAfterFailedAction<O, V>(obj: O, attribute: string, name: V, parked: V, idling: V, render: V -> string)
    requires parked != idling
    ensures var g := Guard(Requirement(In([parked]), In([idling]), All), None, None, Some(Literal(idling)));
            var m := Machine(attribute, None, [], [], [], Some((t: Transition<O, V>) => false));
            var next := NextTransition([g], attribute, name, obj, parked, 0);
            && next == Some(Transition(obj, attribute, name, parked, idling))
            && Strict(FireOutcome(m, next).result, name, StateAfterFire(m, next, parked)) ==
               Failure(InvalidTransition(name, idling))
            && Strict(FireOutcome(m, next).result, name, StateAfterFire(m, next, parked)).error.Message(render, render) ==
               "Cannot transition via :" + render(name) + " from " + render(idling)
  {
  }

  /** `transition :from => parked, :to => idling` on `ignite`: from `parked` the event leads to
      `idling`; from `idling` it cannot fire. */
  lemma IgniteScenario<O, V>(obj: O, attribute: string, ignite: V, parked: V, idling: V, now: Moment)
    requires parked != idling
    ensures var g := NewEventGuard<O, V>([From([parked]), To(Literal(idling))]).value;
            && NextTransition([g], attribute, ignite, obj, parked, now) == Some(Transition(obj, attribute, ignite, parked, idling))
            && NextTransition([g], attribute, ignite, obj, idling, now).None?
            && !CanFire([g], obj, idling)
  {
    EventGuardFromTo<O, V>(parked, idling);
  }

  /** Two guards from `parked`, to `idling` and then to `first_gear`: the first one decides. */
  lemma FirstOfTwoGuardsScenario<O, V>(obj: O, attribute: string, ignite: V, parked: V, idling: V, firstGear: V, now: Moment)
    ensures var g1 := Guard(Requirement(In([parked]), In([idling]), All), None, None, Some(Literal(idling)));
            var g2 := Guard(Requirement(In([parked]), In([firstGear]), All), None, None, Some(Literal(firstGear)));
            NextTransition([g1, g2], attribute, ignite, obj, parked, now) == Some(Transition(obj, attribute, ignite, parked, idling))
  {
  }

  /** A guard without `to` loops back: the transition leads to the current state. */
  lemma LoopbackScenario<O, V>(obj: O, attribute: string, park: V, parked: V, now: Moment)
    ensures var g := NewEventGuard<O, V>([From([parked])]).value;
            NextTransition([g], attribute, park, obj, parked, now) == Some(Transition(obj, attribute, park, parked, parked))
  {
    var ss: seq<Setting<O, V>> := [From([parked])];
    assert forall i :: 0 <= i < |ss| ==> Recognised(ss[i], EventKeys);
  }

  /** A deferred `to` is evaluated each time a transition is selected, so the same event leads
      to different states at different moments. */
  lemma DeferredTargetScenario<O>(obj: O, attribute: string, now1: Moment, now2: Moment)
    ensures var g := Guard(Requirement(All, All, All), None, None, Some(Deferred((n: Moment) => n as int)));
            && NextTransition([g], attribute, 0, obj, 7, now1) == Some(Transition(obj, attribute, 0, 7, now1 as int))
            && NextTransition([g], attribute, 0, obj, 7, now2) == Some(Transition(obj, attribute, 0, 7, now2 as int))
  {
  }

  lemma {:induction false} FoldIsUnion<O, V>(acc: seq<V>, guards: seq<Guard<O, V>>)
    requires NoDups(acc)
    ensures FoldKnownStates(acc, guards) == Union(acc, AllGuardStates(guards))
    decreases |guards|
  {
    if guards != [] {
      var first := guards[0].KnownStates();
      OrIsUnion(acc, first);
      UnionNoDups(acc, first);
      FoldIsUnion(Union(acc, first), guards[1..]);
      UnionAppend(acc, first, AllGuardStates(guards[1..]));
    }
  }

  lemma {:induction false} AllGuardStatesAppend<O, V>(guards: seq<Guard<O, V>>, g: Guard<O, V>)
    ensures AllGuardStates(guards + [g]) == AllGuardStates(guards) + g.KnownStates()
    decreases |guards|
  {
    if guards == [] {
      assert [] + [g] == [g] && [g][1..] == [];
    } else {
      assert (guards + [g])[0] == guards[0] && (guards + [g])[1..] == guards[1..] + [g];
      AllGuardStatesAppend(guards[1..], g);
    }
  }

  lemma {:induction false} AllGuardStatesElements<O, V>(guards: seq<Guard<O, V>>, x: V)
    ensures x in AllGuardStates(guards) <==> exists i :: 0 <= i < |guards| && x in guards[i].KnownStates()
    decreases |guards|
  {
    if guards != [] {
      AllGuardStatesElements(guards[1..], x);
      assert forall i :: 1 <= i < |guards| ==> guards[i] == guards[1..][i - 1];
      if x in AllGuardStates(guards[1..]) {
        var i :| 0 <= i < |guards[1..]| && x in guards[1..][i].KnownStates();
        assert x in guards[i + 1].KnownStates();
      }
    }
  }

  /** An event's known states: every state some guard knows, none repeated, in the order of
      first occurrence going through the guards in declaration order. */
  lemma EventKnownStates<O, V>(guards: seq<Guard<O, V>>)
    ensures NoDups(GuardsKnownStates(guards))
    ensures forall x :: x in GuardsKnownStates(guards) <==>
      exists i :: 0 <= i < |guards| && x in guards[i].KnownStates()
    ensures InFirstSeenOrder(GuardsKnownStates(guards), AllGuardStates(guards))
  {
    FoldIsUnion([], guards);
    UnionNoDups([], AllGuardStates(guards));
    UnionFirstSeenOrder([], AllGuardStates(guards));
    assert [] + AllGuardStates(guards) == AllGuardStates(guards);
    forall x ensures x in GuardsKnownStates(guards) <==> exists i :: 0 <= i < |guards| && x in guards[i].KnownStates() {
      UnionElements([], AllGuardStates(guards), x);
      AllGuardStatesElements(guards, x);
    }
  }

  /** Defining one more guard adds its states after the ones already known. */
  lemma KnownStatesAfterTransition<O, V>(guards: seq<Guard<O, V>>, g: Guard<O, V>)
    ensures GuardsKnownStates(guards + [g]) == Or(GuardsKnownStates(guards), g.KnownStates())
  {
    FoldIsUnion([], guards + [g]);
    FoldIsUnion([], guards);
    AllGuardStatesAppend(guards, g);
    UnionAppend([], AllGuardStates(guards), g.KnownStates());
    EventKnownStates(guards);
    OrIsUnion(GuardsKnownStates(guards), g.KnownStates());
  }

  /** A copy shares nothing with the original: defining a transition on the copy leaves the
      original's guards and memoised states as they were. */
  method CopyIsIndependent<O, V>(attribute: string, name: V, first: seq<Setting<O, V>>, second: seq<Setting<O, V>>)
    returns (original: seq<Guard<O, V>>, originalCache: Option<seq<V>>, copied: seq<Guard<O, V>>, copiedCache: Option<seq<V>>)
    requires NewEventGuard(first).Success? && NewEventGuard(second).Success?
    ensures original == [NewEventGuard(first).value]
    ensures originalCache == Some(GuardsKnownStates(original))
    ensures copied == [NewEventGuard(first).value, NewEventGuard(second).value]
    ensures copiedCache == None
  {
    var e := new Event<O, V>(attribute, name);
    var _ := e.AddTransition(first);
    var _ := e.KnownStates();
    var c := e.Copy();
    var _ := c.AddTransition(second);
    original, originalCache, copied, copiedCache := e.guards, e.knownCache, c.guards, c.knownCache;
  }
}
