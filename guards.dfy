/**
 * Guards: a single transition rule. A guard holds a requirement on the from state, the to
 * state and the event name (each through a matcher), optional `if`/`unless` conditions on the
 * object, and the target state that an event reads from its `to` option.
 *
 * `O` is the object the conditions are evaluated on; `V` is the type of Ruby values used as
 * states and event names (symbols, strings and `nil` alike).
 */
module Guards {
  import opened Wrappers
  import opened Errors
  import opened OrderedSets

  /** A reading of the outside world (the clock, for `lambda {Time.now}`), taken at the moment
      a deferred target is evaluated. */
  type Moment = nat

  /** How one dimension (from, to or on) of a query is tested. */
  datatype Matcher<V(==)> =
    | All                      // the dimension was not configured
    | In(values: seq<V>)       // whitelist: `from`, `to`, `on`
    | NotIn(values: seq<V>)    // blacklist: `except_from`, `except_to`, `except_on`
  {
    predicate Accepts(v: V) {
      match this
      case All => true
      case In(vs) => v in vs
      case NotIn(vs) => v !in vs
    }

    /** The values named in the configuration, in the order given. */
    function Literals(): seq<V> {
      match this
      case All => []
      case In(vs) => vs
      case NotIn(vs) => vs
    }
  }

  /** A query value that is absent does not filter; a present one (which may be `nil`) must be
      accepted by the matcher. */
  predicate Admits<V(==)>(m: Matcher<V>, v: Option<V>) {
    v.None? || m.Accepts(v.value)
  }

  /** The context a guard is asked about: each of `from`, `to` and `on` may be left out. A Ruby
      `nil` query is the query with all three left out. */
  datatype Query<V> = Query(from: Option<V>, to: Option<V>, on: Option<V>)

  function EmptyQuery<V>(): Query<V> {
    Query(None, None, None)
  }

  /** The `to` option: a state, or a zero-argument lambda evaluated whenever a transition is
      selected. */
  datatype Target<V> = Literal(state: V) | Deferred(compute: Moment -> V) {
    function Resolve(now: Moment): V {
      match this
      case Literal(v) => v
      case Deferred(f) => f(now)
    }

    /** The state literals this target names; a lambda is no state literal. */
    function Literals(): seq<V> {
      match this
      case Literal(v) => [v]
      case Deferred(_) => []
    }
  }

  /** One entry of the options hash given to `Guard.new` or `Event#transition`. A single state
      is written as a one-element list. `Unknown(key)` is an entry under any key outside the
      recognised ones. */
  datatype Setting<!O, V> =
    | From(states: seq<V>)
    | ExceptFrom(states: seq<V>)
    | To(target: Target<V>)
    | ExceptTo(states: seq<V>)
    | On(events: seq<V>)
    | ExceptOn(events: seq<V>)
    | If(holds: O -> bool)
    | Unless(holds: O -> bool)
    | Unknown(key: string)
  {
    /** The hash key of this entry, as Ruby's `to_s` renders the symbol. */
    function Key(): string {
      match this
      case From(_) => "from"
      case ExceptFrom(_) => "except_from"
      case To(_) => "to"
      case ExceptTo(_) => "except_to"
      case On(_) => "on"
      case ExceptOn(_) => "except_on"
      case If(_) => "if"
      case Unless(_) => "unless"
      case Unknown(k) => k
    }

    /** The state or event values this entry lists (none for a condition). */
    function Values(): seq<V> {
      match this
      case From(vs) => vs
      case ExceptFrom(vs) => vs
      case To(t) => t.Literals()
      case ExceptTo(vs) => vs
      case On(vs) => vs
      case ExceptOn(vs) => vs
      case If(_) => []
      case Unless(_) => []
      case Unknown(_) => []
    }
  }

  /** The keys `Guard.new` accepts. */
  const GuardKeys: set<string> :=
    {"to", "from", "except_to", "except_from", "on", "except_on", "if", "unless"}

  predicate Recognised<O, V>(s: Setting<O, V>, valid: set<string>) {
    !s.Unknown? && s.Key() in valid
  }

  /** The keys of `settings` outside `valid`, in the order given (`options.keys - valid`). */
  function UnrecognisedKeys<O, V>(settings: seq<Setting<O, V>>, valid: set<string>): (r: seq<string>)
    ensures r == [] <==> forall i :: 0 <= i < |settings| ==> Recognised(settings[i], valid)
    ensures forall k :: k in r <==>
      exists i :: 0 <= i < |settings| && !Recognised(settings[i], valid) && settings[i].Key() == k
  {
    if settings == [] then []
    else
      var rest := UnrecognisedKeys(settings[1..], valid);
      assert forall i :: 1 <= i < |settings| ==> settings[i] == settings[1..][i - 1];
      if Recognised(settings[0], valid) then rest else [settings[0].Key()] + rest
  }

  /** `assert_valid_keys`: fails with `ArgumentError` naming every key outside `valid`. */
  function ValidateKeys<O, V>(settings: seq<Setting<O, V>>, valid: set<string>): (r: Option<Error<V>>)
    ensures r.None? <==> forall i :: 0 <= i < |settings| ==> Recognised(settings[i], valid)
    ensures r.Some? ==> r.value == ArgumentError(UnrecognisedKeys(settings, valid))
  {
    var bad := UnrecognisedKeys(settings, valid);
    if bad == [] then None else Some(ArgumentError(bad))
  }

  /** The position of the first recognised entry under `key` (a Ruby hash holds one value per
      key; the first entry stands for it). */
  function Lookup<O, V>(settings: seq<Setting<O, V>>, key: string): (r: Option<nat>)
    ensures r.Some? ==> r.value < |settings| && !settings[r.value].Unknown? && settings[r.value].Key() == key
    ensures r.Some? ==> forall j :: 0 <= j < r.value ==> settings[j].Unknown? || settings[j].Key() != key
    ensures r.None? ==> forall j :: 0 <= j < |settings| ==> settings[j].Unknown? || settings[j].Key() != key
  {
    if settings == [] then None
    else if !settings[0].Unknown? && settings[0].Key() == key then Some(0)
    else match Lookup(settings[1..], key)
      case None => None
      case Some(i) => Some(i + 1)
  }

  /** The matcher for one dimension: the whitelist under `key` when given, otherwise the
      blacklist under `exceptKey` when given, otherwise `All`. */
  function DimensionMatcher<O, V(==)>(settings: seq<Setting<O, V>>, key: string, exceptKey: string): Matcher<V> {
    match Lookup(settings, key)
    case Some(i) => In(settings[i].Values())
    case None =>
      match Lookup(settings, exceptKey)
      case Some(j) => NotIn(settings[j].Values())
      case None => All
  }

  /** A guard's requirement on the from state, the to state and the event name. */
  datatype Requirement<V(==)> = Requirement(from: Matcher<V>, to: Matcher<V>, on: Matcher<V>) {
    predicate Accepts(q: Query<V>) {
      Admits(from, q.from) && Admits(to, q.to) && Admits(on, q.on)
    }

    /** The from-literals, then the to-literals, without repeats; event names contribute
        nothing. */
    function KnownStates(): seq<V> {
      Or(from.Literals(), to.Literals())
    }
  }

  /** The requirement described by `settings` (`except_*` is ignored where the positive key is
      also given). */
  function RequirementOf<O, V(==)>(settings: seq<Setting<O, V>>): Requirement<V> {
    Requirement(
      DimensionMatcher(settings, "from", "except_from"),
      DimensionMatcher(settings, "to", "except_to"),
      DimensionMatcher(settings, "on", "except_on"))
  }

  datatype Guard<!O, V(==)> = Guard(
    requirement: Requirement<V>,
    ifCondition: Option<O -> bool>,
    unlessCondition: Option<O -> bool>,
    target: Option<Target<V>>)
  {
    /** The `if` condition must hold; otherwise the `unless` condition must not; when both are
        given the `if` condition alone decides. */
    predicate ConditionsHold(obj: O) {
      match ifCondition
      case Some(c) => c(obj)
      case None =>
        match unlessCondition
        case Some(c) => !c(obj)
        case None => true
    }

    /** `matches?(object, query)`. */
    predicate Matches(obj: O, q: Query<V>) {
      requirement.Accepts(q) && ConditionsHold(obj)
    }

    function KnownStates(): seq<V> {
      requirement.KnownStates()
    }
  }

  /** The guard described by settings whose keys are all recognised. */
  function Build<O, V(==)>(settings: seq<Setting<O, V>>): Guard<O, V> {
    var ifCondition := match Lookup(settings, "if")
      case Some(i) => (match settings[i] case If(c) => Some(c) case _ => None)
      case None => None;
    var unlessCondition := match Lookup(settings, "unless")
      case Some(i) => (match settings[i] case Unless(c) => Some(c) case _ => None)
      case None => None;
    var target := match Lookup(settings, "to")
      case Some(i) => (match settings[i] case To(t) => Some(t) case _ => None)
      case None => None;
    Guard(RequirementOf(settings), ifCondition, unlessCondition, target)
  }

  /** `Guard.new(options)`. */
  function NewGuard<O, V(==)>(settings: seq<Setting<O, V>>): (r: Result<Guard<O, V>, Error<V>>)
    ensures r.Failure? <==> exists i :: 0 <= i < |settings| && !Recognised(settings[i], GuardKeys)
    ensures r.Failure? ==> r.error == ArgumentError(UnrecognisedKeys(settings, GuardKeys))
    ensures r.Success? ==> r.value == Build(settings)
  {
    match ValidateKeys(settings, GuardKeys)
    case Some(e) => Failure(e)
    case None => Success(Build(settings))
  }
}
