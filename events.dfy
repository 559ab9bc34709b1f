/**
 * Events: an ordered, append-only list of guards over one machine attribute.
 *
 * Selecting a transition is pure: the first guard, in declaration order, that matches the
 * object with `from` set to its current state decides the target (the guard's `to`, a
 * deferred `to` evaluated at that moment, or the current state when `to` is not given).
 * Defining guards, memoising the known states and copying an event change the event in place,
 * and firing performs the selected transition on a record; those are methods of `Event`.
 */
module Events {
  import opened Wrappers
  import opened Errors
  import opened OrderedSets
  import opened Guards
  import opened Transitions

  /** The keys `Event#transition` accepts; `Guard.new` is then given the same options. */
  const EventKeys: set<string> := {"to", "from", "except_from", "if", "unless"}

  /** The guard `Event#transition` appends for `settings`, or the `ArgumentError` it raises. */
  function NewEventGuard<O, V(==)>(settings: seq<Setting<O, V>>): (r: Result<Guard<O, V>, Error<V>>)
    ensures r.Failure? <==> exists i :: 0 <= i < |settings| && !Recognised(settings[i], EventKeys)
    ensures r.Failure? ==> r.error == ArgumentError(UnrecognisedKeys(settings, EventKeys))
    ensures r.Success? ==> r == NewGuard(settings) && r.value == Build(settings)
  {
    match ValidateKeys(settings, EventKeys)
    case Some(e) => Failure(e)
    case None =>
      assert forall i :: 0 <= i < |settings| ==> Recognised(settings[i], GuardKeys);
      NewGuard(settings)
  }

  /** The query `next_transition` asks each guard: only `from`, set to the current state. */
  function FromQuery<V>(current: V): Query<V> {
    Query(Some(current), None, None)
  }

  /** The position of the first guard that matches the object in state `current`. */
  function FirstMatch<O, V(==)>(guards: seq<Guard<O, V>>, obj: O, current: V): (r: Option<nat>)
    ensures r.Some? ==> r.value < |guards| && guards[r.value].Matches(obj, FromQuery(current))
    ensures r.Some? ==> forall j :: 0 <= j < r.value ==> !guards[j].Matches(obj, FromQuery(current))
    ensures r.None? <==> forall j :: 0 <= j < |guards| ==> !guards[j].Matches(obj, FromQuery(current))
  {
    if guards == [] then None
    else if guards[0].Matches(obj, FromQuery(current)) then Some(0)
    else
      match FirstMatch(guards[1..], obj, current)
      case None =>
        assert forall j :: 1 <= j < |guards| ==> guards[j] == guards[1..][j - 1];
        None
      case Some(i) =>
        assert forall j :: 1 <= j <= i ==> guards[j] == guards[1..][j - 1];
        Some(i + 1)
  }

  /** The state a guard leads to from `current`: its `to`, evaluated now when deferred, or
      `current` itself when the guard gives no `to`. */
  function TargetOf<O, V(==)>(g: Guard<O, V>, current: V, now: Moment): V {
    match g.target
    case None => current
    case Some(t) => t.Resolve(now)
  }

  /** `next_transition(object)` for an event `name` over `attribute`, the object being in state
      `current`. */
  function NextTransition<O, V(==)>(guards: seq<Guard<O, V>>, attribute: string, name: V, obj: O, current: V, now: Moment)
    : (r: Option<Transition<O, V>>)
    ensures r.None? <==> forall j :: 0 <= j < |guards| ==> !guards[j].Matches(obj, FromQuery(current))
    ensures r.Some? ==> exists i :: && 0 <= i < |guards| && guards[i].Matches(obj, FromQuery(current))
                                   && (forall j :: 0 <= j < i ==> !guards[j].Matches(obj, FromQuery(current)))
                                   && r.value == Transition(obj, attribute, name, current, TargetOf(guards[i], current, now))
  {
    match FirstMatch(guards, obj, current)
    case None => None
    case Some(i) => Some(Transition(obj, attribute, name, current, TargetOf(guards[i], current, now)))
  }

  /** `can_fire?(object)`. */
  function CanFire<O, V(==)>(guards: seq<Guard<O, V>>, obj: O, current: V): (r: bool)
    ensures r <==> exists i :: 0 <= i < |guards| && guards[i].Matches(obj, FromQuery(current))
  {
    FirstMatch(guards, obj, current).Some?
  }

  /** What `fire` does given the selected transition: nothing, with result false, when there
      is none; otherwise whatever performing it does. */
  function FireOutcome<O, V(==)>(m: Machine<O, V>, next: Option<Transition<O, V>>): Outcome {
    match next
    case None => Outcome(false, false, [])
    case Some(t) => Run(m, t)
  }

  /** The attribute's value once `fire` has finished. */
  function StateAfterFire<O, V(==)>(m: Machine<O, V>, next: Option<Transition<O, V>>, current: V): V {
    if next.Some? && FireOutcome(m, next).written then next.value.to else current
  }

  /** The strict variant `name!`: `fire`'s result when it is true, otherwise `InvalidTransition`
      naming the event and the attribute's value as it stands after `fire`. */
  function Strict<V>(fired: bool, name: V, stateAfter: V): (r: Result<bool, Error<V>>)
    ensures r.Failure? <==> !fired
    ensures r.Failure? ==> r.error == InvalidTransition(name, stateAfter)
    ensures r.Success? ==> r.value == fired
  {
    if fired then Success(true) else Failure(InvalidTransition(name, stateAfter))
  }

  /** `guards.inject(acc) {|states, guard| states |= guard.known_states}`. */
  function FoldKnownStates<O, V(==)>(acc: seq<V>, guards: seq<Guard<O, V>>): seq<V>
    decreases |guards|
  {
    if guards == [] then acc else FoldKnownStates(Or(acc, guards[0].KnownStates()), guards[1..])
  }

  /** The states of all guards, one guard after another, repeats included. */
  function AllGuardStates<O, V(==)>(guards: seq<Guard<O, V>>): seq<V>
    decreases |guards|
  {
    if guards == [] then [] else guards[0].KnownStates() + AllGuardStates(guards[1..])
  }

  function GuardsKnownStates<O, V(==)>(guards: seq<Guard<O, V>>): seq<V> {
    FoldKnownStates([], guards)
  }

  /** An event of the machine governing `attribute`. `knownCache` is `@known_states`. */
  class Event<O, V(==)> {
    const attribute: string
    const name: V
    var guards: seq<Guard<O, V>>
    var knownCache: Option<seq<V>>

    /** `Event.new(machine, name)`: no guards yet. */
    constructor (attribute: string, name: V)
      ensures this.attribute == attribute && this.name == name
      ensures guards == [] && knownCache == None
    {
      this.attribute := attribute;
      this.name := name;
      guards := [];
      knownCache := None;
    }

    /** The memoised known states agree with the guards. */
    predicate CacheCurrent()
      reads this
    {
      knownCache.Some? ==> knownCache.value == GuardsKnownStates(guards)
    }

    /** `transition(options)`: validates the keys, then appends the new guard and returns it.
        The memoised known states are left as they are. */
    method AddTransition(settings: seq<Setting<O, V>>) returns (r: Result<Guard<O, V>, Error<V>>)
      modifies this
      ensures r == NewEventGuard(settings)
      ensures r.Success? ==> guards == old(guards) + [r.value]
      ensures r.Failure? ==> guards == old(guards)
      ensures knownCache == old(knownCache)
    {
      r := NewEventGuard(settings);
      if r.Success? {
        guards := guards + [r.value];
      }
    }

    /** `known_states`: computed from the guards on first use and memoised. */
    method KnownStates() returns (states: seq<V>)
      modifies this
      ensures guards == old(guards)
      ensures states == if old(knownCache).Some? then old(knownCache).value else GuardsKnownStates(guards)
      ensures knownCache == Some(states)
      ensures old(CacheCurrent()) ==> states == GuardsKnownStates(guards) && CacheCurrent()
    {
      if knownCache.None? {
        knownCache := Some(GuardsKnownStates(guards));
      }
      states := knownCache.value;
    }

    /** `dup`: a new event with its own copy of the guard list and no memoised states. */
    method Copy() returns (e: Event<O, V>)
      ensures fresh(e)
      ensures e.attribute == attribute && e.name == name
      ensures e.guards == guards && e.knownCache == None
    {
      e := new Event(attribute, name);
      e.guards := guards;
    }

    /** `fire(object)` on `rec`, for this event's machine `m`. */
    method Fire(rec: Record<O, V>, m: Machine<O, V>, now: Moment) returns (result: bool)
      requires m.attribute == attribute
      modifies rec
      ensures var next := NextTransition(guards, attribute, name, rec.host, old(rec.state), now);
        && result == FireOutcome(m, next).result
        && rec.state == StateAfterFire(m, next, old(rec.state))
        && rec.trace == old(rec.trace) + FireOutcome(m, next).steps
    {
      var next := NextTransition(guards, attribute, name, rec.host, rec.state, now);
      if next.None? {
        return false;
      }
      result := rec.Perform(m, next.value);
    }

    /** `name!` on `rec`: fires, and fails when firing returned false. */
    method FireStrict(rec: Record<O, V>, m: Machine<O, V>, now: Moment) returns (r: Result<bool, Error<V>>)
      requires m.attribute == attribute
      modifies rec
      ensures var next := NextTransition(guards, attribute, name, rec.host, old(rec.state), now);
        && r == Strict(FireOutcome(m, next).result, name, rec.state)
        && rec.state == StateAfterFire(m, next, old(rec.state))
        && rec.trace == old(rec.trace) + FireOutcome(m, next).steps
    {
      var fired := Fire(rec, m, now);
      r := Strict(fired, name, rec.state);
    }
  }
}
