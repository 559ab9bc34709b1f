/**
 * What a guard promises, stated over `NewGuard` and `Guard.Matches`/`Guard.KnownStates`.
 * Each lemma generalises one group of assertions about guards to all values, objects
 * and queries.
 */
module GuardProperties {
  import opened Wrappers
  import opened Errors
  import opened OrderedSets
  import opened Guards

  /** An unrecognised key is refused, and the error message names it. */
  lemma InvalidKeyRejected<O, V>(name: V -> string, inspect: V -> string)
    ensures NewGuard<O, V>([Unknown("invalid")]) == Failure(ArgumentError(["invalid"]))
    ensures NewGuard<O, V>([Unknown("invalid")]).error.Message(name, inspect) == "Invalid key(s): invalid"
  {
    var s: Setting<O, V> := Unknown("invalid");
    assert !Recognised(s, GuardKeys);
    assert [s][1..] == [];
    assert UnrecognisedKeys([s], GuardKeys) == ["invalid"] + UnrecognisedKeys<O, V>([], GuardKeys) == ["invalid"];
    assert ValidateKeys<O, V>([s], GuardKeys) == Some(ArgumentError(["invalid"]));
  }

  /** Every recognised key is accepted. */
  lemma RecognisedKeysAccepted<O, V>(settings: seq<Setting<O, V>>)
    requires forall i :: 0 <= i < |settings| ==> !settings[i].Unknown?
    ensures NewGuard(settings).Success?
  {
    forall i | 0 <= i < |settings| ensures Recognised(settings[i], GuardKeys) {
      assert settings[i].Key() in GuardKeys;
    }
  }

  /** A single `to` and a single `from` state are held as one-element whitelists, and the `to`
      state is the guard's target. */
  lemma RequirementsNormalised<O, V>(idling: V, parked: V)
    ensures NewGuard<O, V>([To(Literal(idling)), From([parked])]) ==
      Success(Guard(Requirement(In([parked]), In([idling]), All), None, None, Some(Literal(idling))))
  {
    var ss: seq<Setting<O, V>> := [To(Literal(idling)), From([parked])];
    RecognisedKeysAccepted(ss);
    assert ss[1..] == [From([parked])] && ss[1..][1..] == [];
    assert Lookup(ss, "from") == Some(1);
    assert Lookup(ss, "if") == None && Lookup(ss, "unless") == None;
    assert RequirementOf(ss) == Requirement(In([parked]), In([idling]), All);
  }

  /** A guard with no requirements matches every query, however much of it is given. */
  lemma NoRequirementsMatchEveryQuery<O, V>(obj: O, q: Query<V>)
    ensures NewGuard<O, V>([]).Success?
    ensures NewGuard<O, V>([]).value.Matches(obj, q)
    ensures NewGuard<O, V>([]).value.KnownStates() == []
  {
  }

  /** Leaving a dimension out of a query never turns a match into a mismatch, and the empty
      query matches exactly when the conditions hold. */
  lemma AbsentDimensionsDoNotFilter<O, V>(g: Guard<O, V>, obj: O, q: Query<V>)
    ensures g.Matches(obj, q) ==> g.Matches(obj, q.(from := None))
    ensures g.Matches(obj, q) ==> g.Matches(obj, q.(to := None))
    ensures g.Matches(obj, q) ==> g.Matches(obj, q.(on := None))
    ensures g.Matches(obj, EmptyQuery()) <==> g.ConditionsHold(obj)
  {
  }

  /** A list without repeats is its own union with nothing. */
  lemma KnownStatesOfList<V>(states: seq<V>)
    requires NoDups(states)
    ensures Or(states, []) == states
  {
    OrIsUnion(states, []);
  }

  /** `from` whitelist: a present from value matches iff it is listed (so `nil` matches only
      when `nil` is listed); other dimensions are ignored. */
  lemma FromWhitelist<O, V>(states: seq<V>, obj: O, q: Query<V>)
    ensures NewGuard<O, V>([From(states)]).Success?
    ensures NewGuard<O, V>([From(states)]).value.Matches(obj, q) <==>
      q.from.None? || q.from.value in states
    ensures NoDups(states) ==> NewGuard<O, V>([From(states)]).value.KnownStates() == states
  {
    if NoDups(states) {
      KnownStatesOfList(states);
    }
  }

  /** `to` whitelist: a present to value matches iff it is the target state. */
  lemma ToWhitelist<O, V>(state: V, obj: O, q: Query<V>)
    ensures NewGuard<O, V>([To(Literal(state))]).Success?
    ensures NewGuard<O, V>([To(Literal(state))]).value.Matches(obj, q) <==>
      q.to.None? || q.to.value == state
    ensures NewGuard<O, V>([To(Literal(state))]).value.KnownStates() == [state]
  {
    assert [] + [state] == [state];
    UnionFresh([], [state]);
  }

  /** `on` whitelist: a present event name matches iff it is listed; event names are never
      known states. */
  lemma OnWhitelist<O, V>(events: seq<V>, obj: O, q: Query<V>)
    ensures NewGuard<O, V>([On(events)]).Success?
    ensures NewGuard<O, V>([On(events)]).value.Matches(obj, q) <==>
      q.on.None? || q.on.value in events
    ensures NewGuard<O, V>([On(events)]).value.KnownStates() == []
  {
  }

  /** `except_from` blacklist: a present from value matches iff it is not listed, so `nil`
      matches unless listed. */
  lemma FromBlacklist<O, V>(states: seq<V>, obj: O, q: Query<V>)
    ensures NewGuard<O, V>([ExceptFrom(states)]).Success?
    ensures NewGuard<O, V>([ExceptFrom(states)]).value.Matches(obj, q) <==>
      q.from.None? || q.from.value !in states
    ensures NoDups(states) ==> NewGuard<O, V>([ExceptFrom(states)]).value.KnownStates() == states
  {
    if NoDups(states) {
      KnownStatesOfList(states);
    }
  }

  /** `except_to` blacklist. */
  lemma ToBlacklist<O, V>(states: seq<V>, obj: O, q: Query<V>)
    ensures NewGuard<O, V>([ExceptTo(states)]).Success?
    ensures NewGuard<O, V>([ExceptTo(states)]).value.Matches(obj, q) <==>
      q.to.None? || q.to.value !in states
    ensures NoDups(states) ==> NewGuard<O, V>([ExceptTo(states)]).value.KnownStates() == states
  {
    if NoDups(states) {
      assert [] + states == states;
      UnionFresh([], states);
    }
  }

  /** `except_on` blacklist; event names are never known states. */
  lemma OnBlacklist<O, V>(events: seq<V>, obj: O, q: Query<V>)
    ensures NewGuard<O, V>([ExceptOn(events)]).Success?
    ensures NewGuard<O, V>([ExceptOn(events)]).value.Matches(obj, q) <==>
      q.on.None? || q.on.value !in events
    ensures NewGuard<O, V>([ExceptOn(events)]).value.KnownStates() == []
  {
  }

  /** Where each key is found in a two-entry options list. */
  lemma LookupTwo<O, V>(s0: Setting<O, V>, s1: Setting<O, V>)
    ensures forall key :: !s0.Unknown? && s0.Key() == key ==> Lookup([s0, s1], key) == Some(0)
    ensures forall key :: (s0.Unknown? || s0.Key() != key) && !s1.Unknown? && s1.Key() == key ==>
      Lookup([s0, s1], key) == Some(1)
    ensures forall key :: (s0.Unknown? || s0.Key() != key) && (s1.Unknown? || s1.Key() != key) ==>
      Lookup([s0, s1], key) == None
  {
    assert [s0, s1][1..] == [s1] && [s1][1..] == [];
  }

  /** A state listed twice over is known once. */
  lemma OrSame<V>(x: V)
    ensures Or([x], [x]) == [x]
  {
    assert [x] + [x] == [x, x];
    assert [x, x][1..] == [x];
    assert [] + [x] == [x] && [x][1..] == [];
    assert Union([], [x, x]) == Union([x], [x]) == Union([x], []);
  }

  /** When the from dimension is given both as `from` and `except_from`, `except_from` is
      ignored. */
  lemma ExceptFromIgnoredBesideFrom<O, V>(a: seq<V>, b: seq<V>, obj: O, q: Query<V>)
    ensures NewGuard<O, V>([From(a), ExceptFrom(b)]).Success?
    ensures NewGuard<O, V>([From(a), ExceptFrom(b)]).value.Matches(obj, q) <==>
      q.from.None? || q.from.value in a
  {
    var ss: seq<Setting<O, V>> := [From(a), ExceptFrom(b)];
    RecognisedKeysAccepted(ss);
    LookupTwo(ss[0], ss[1]);
    assert Build(ss).requirement == Requirement(In(a), All, All);
    assert Build(ss).ifCondition.None? && Build(ss).unlessCondition.None?;
  }

  /** The same for `to` beside `except_to`. */
  lemma ExceptToIgnoredBesideTo<O, V>(t: V, b: seq<V>, obj: O, q: Query<V>)
    ensures NewGuard<O, V>([To(Literal(t)), ExceptTo(b)]).Success?
    ensures NewGuard<O, V>([To(Literal(t)), ExceptTo(b)]).value.Matches(obj, q) <==>
      q.to.None? || q.to.value == t
  {
    var ss: seq<Setting<O, V>> := [To(Literal(t)), ExceptTo(b)];
    RecognisedKeysAccepted(ss);
    LookupTwo(ss[0], ss[1]);
    assert Build(ss).requirement == Requirement(All, In([t]), All);
    assert Build(ss).ifCondition.None? && Build(ss).unlessCondition.None?;
  }

  /** The same for `on` beside `except_on`. */
  lemma ExceptOnIgnoredBesideOn<O, V>(a: seq<V>, b: seq<V>, obj: O, q: Query<V>)
    ensures NewGuard<O, V>([On(a), ExceptOn(b)]).Success?
    ensures NewGuard<O, V>([On(a), ExceptOn(b)]).value.Matches(obj, q) <==>
      q.on.None? || q.on.value in a
  {
    var ss: seq<Setting<O, V>> := [On(a), ExceptOn(b)];
    RecognisedKeysAccepted(ss);
    LookupTwo(ss[0], ss[1]);
    assert Build(ss).requirement == Requirement(All, All, In(a));
    assert Build(ss).ifCondition.None? && Build(ss).unlessCondition.None?;
  }

  /** The three dimensions are tested independently: every present one must match. */
  lemma DimensionsIndependent<O, V>(f: seq<V>, t: V, e: seq<V>, obj: O, q: Query<V>)
    ensures NewGuard<O, V>([From(f), To(Literal(t)), On(e)]).Success?
    ensures NewGuard<O, V>([From(f), To(Literal(t)), On(e)]).value.Matches(obj, q) <==>
      && (q.from.None? || q.from.value in f)
      && (q.to.None? || q.to.value == t)
      && (q.on.None? || q.on.value in e)
  {
    var ss: seq<Setting<O, V>> := [From(f), To(Literal(t)), On(e)];
    assert ss[1..] == [To(Literal(t)), On(e)] && ss[1..][1..] == [On(e)];
    assert Lookup(ss, "to") == Some(1);
    assert Lookup(ss[1..][1..], "on") == Some(0);
    assert Lookup(ss[1..], "on") == Some(1);
  }

  /** A guard's known states: its from-literals then its to-literals, each once, in the order
      first given. */
  lemma GuardKnownStates<O, V>(g: Guard<O, V>)
    ensures NoDups(g.KnownStates())
    ensures forall x :: x in g.KnownStates() <==>
      x in g.requirement.from.Literals() || x in g.requirement.to.Literals()
    ensures InFirstSeenOrder(g.KnownStates(), g.requirement.from.Literals() + g.requirement.to.Literals())
  {
    OrSpec(g.requirement.from.Literals(), g.requirement.to.Literals());
  }

  /** from then to: `from: parked, to: idling, on: ignite` knows `[parked, idling]`. */
  lemma KnownStatesFromThenTo<O, V>(parked: V, idling: V, ignite: V)
    requires parked != idling
    ensures NewGuard<O, V>([From([parked]), To(Literal(idling)), On([ignite])]).value.KnownStates()
      == [parked, idling]
  {
    var ss: seq<Setting<O, V>> := [From([parked]), To(Literal(idling)), On([ignite])];
    assert ss[1..] == [To(Literal(idling)), On([ignite])];
    assert Lookup(ss, "to") == Some(1);
    assert RequirementOf(ss).to == In([idling]);
    assert [parked] + [idling] == [parked, idling];
    UnionFresh([], [parked, idling]);
  }

  /** A state named in both dimensions is known once: `except_from: idling, to: idling`. */
  lemma KnownStatesNotRepeated<O, V>(idling: V, ignite: V)
    ensures NewGuard<O, V>([ExceptFrom([idling]), To(Literal(idling)), On([ignite])]).value.KnownStates()
      == [idling]
  {
    var ss: seq<Setting<O, V>> := [ExceptFrom([idling]), To(Literal(idling)), On([ignite])];
    RecognisedKeysAccepted(ss);
    assert ss[1..] == [To(Literal(idling)), On([ignite])];
    assert Lookup(ss, "to") == Some(1);
    assert Lookup(ss, "except_from") == Some(0);
    var r := RequirementOf(ss);
    assert r.from == NotIn([idling]) && r.to == In([idling]);
    OrSame(idling);
    assert r.KnownStates() == [idling];
  }

  /** `from: nil, to: nil`: `nil` is a state like any other; it matches itself, nothing else,
      and is known. */
  lemma NilRequirements<O, V>(nil: V, parked: V, idling: V, obj: O)
    requires parked != nil && idling != nil
    ensures NewGuard<O, V>([From([nil]), To(Literal(nil))]).value.Matches(obj, EmptyQuery())
    ensures NewGuard<O, V>([From([nil]), To(Literal(nil))]).value.Matches(obj, Query(Some(nil), Some(nil), None))
    ensures !NewGuard<O, V>([From([nil]), To(Literal(nil))]).value.Matches(obj, Query(Some(parked), None, None))
    ensures !NewGuard<O, V>([From([nil]), To(Literal(nil))]).value.Matches(obj, Query(None, Some(idling), None))
    ensures NewGuard<O, V>([From([nil]), To(Literal(nil))]).value.KnownStates() == [nil]
  {
    var ss: seq<Setting<O, V>> := [From([nil]), To(Literal(nil))];
    RecognisedKeysAccepted(ss);
    LookupTwo(ss[0], ss[1]);
    assert Build(ss) == Guard(Requirement(In([nil]), In([nil]), All), None, None, Some(Literal(nil)));
    OrSame(nil);
  }

  /** `if`: the guard matches iff the condition holds of the object. */
  lemma IfCondition<O, V>(c: O -> bool, obj: O, q: Query<V>)
    ensures NewGuard<O, V>([If(c)]).value.Matches(obj, q) <==> c(obj)
  {
  }

  /** `unless`: the guard matches iff the condition does not hold of the object. */
  lemma UnlessCondition<O, V>(c: O -> bool, obj: O, q: Query<V>)
    ensures NewGuard<O, V>([Unless(c)]).value.Matches(obj, q) <==> !c(obj)
  {
  }

  /** The guard built from an `if` and an `unless` entry, in either order. */
  lemma BothConditionsBuilt<O, V>(first: Setting<O, V>, second: Setting<O, V>, c: O -> bool, d: O -> bool)
    requires (first == If(c) && second == Unless(d)) || (first == Unless(d) && second == If(c))
    ensures NewGuard([first, second]) == Success(Guard(Requirement(All, All, All), Some(c), Some(d), None))
  {
    RecognisedKeysAccepted([first, second]);
    LookupTwo(first, second);
    assert RequirementOf([first, second]) == Requirement(All, All, All);
  }

  /** Given both, the `if` condition alone decides, whichever order they were given in. */
  lemma IfDecidesOverUnless<O, V>(c: O -> bool, d: O -> bool, obj: O, q: Query<V>)
    ensures NewGuard<O, V>([If(c), Unless(d)]).value.Matches(obj, q) <==> c(obj)
    ensures NewGuard<O, V>([Unless(d), If(c)]).value.Matches(obj, q) <==> c(obj)
  {
    BothConditionsBuilt<O, V>(If(c), Unless(d), c, d);
    BothConditionsBuilt<O, V>(Unless(d), If(c), c, d);
  }
}
