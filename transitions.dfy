/**
 * Transitions and how they are performed.
 *
 * `Transition.perform` runs the machine's before-callbacks in registration order; the first
 * that returns false halts everything (result false, no state write, no action, nothing
 * after). Otherwise the target state is written, the action runs and its outcome becomes the
 * result, and the after-callbacks run in registration order, each receiving that result; an
 * after-callback that returns false stops the remaining after-callbacks but leaves the
 * result as it is.
 *
 * What a perform does is given twice: by the specification function `Run`, and by the method
 * `Record.Perform`, which does it step by step on a record and is proved to agree with `Run`.
 */
module Transitions {
  import opened Wrappers
  import opened OrderedSets
  import opened Guards

  /** `Transition.new(object, machine, event, from, to)`; the machine is identified by the
      attribute it governs. */
  datatype Transition<O, V> = Transition(object: O, attribute: string, event: V, from: V, to: V) {
    /** The query a callback's requirement filter is tested against. */
    function Context(): Query<V> {
      Query(Some(from), Some(to), Some(event))
    }
  }

  /** `before_transition(filter, callback)`: receives the object and the transition. */
  datatype BeforeCallback<!O, !V(==)> = BeforeCallback(filter: Requirement<V>, run: Transition<O, V> -> bool)

  /** `after_transition(filter, callback)`: receives the object, the transition and its result. */
  datatype AfterCallback<!O, !V(==)> = AfterCallback(filter: Requirement<V>, run: (Transition<O, V>, bool) -> bool)

  /** The part of a state machine that performing a transition consults. `action` is the hook
      invoked after the state write (`save` for a database record), if one is configured.
      `otherStates` are the states the machine knows besides its initial state and its
      callback filters' states; the machine's events are not part of this datatype, so the
      states they know count only when the caller lists them here. */
  datatype Machine<!O, !V(==)> = Machine(
    attribute: string,
    initial: Option<V>,
    otherStates: seq<V>,
    before: seq<BeforeCallback<O, V>>,
    after: seq<AfterCallback<O, V>>,
    action: Option<Transition<O, V> -> bool>)

  /** One observable step of a perform, in the order it happens. */
  datatype Step =
    | RanBefore(index: nat)               // the before-callback at `index` was invoked
    | WroteState                          // the target state was written to the attribute
    | RanAction                           // the action hook was invoked
    | RanAfter(index: nat, result: bool)  // the after-callback at `index` was invoked with `result`

  /** One callback phase: the positions of the callbacks it invoked, in order, and whether one
      of them returning false ended it. */
  datatype Phase = Phase(stopped: bool, invoked: seq<nat>)

  /** What one callback does in a phase: nothing when its filter rejects the transition,
      otherwise it is invoked and returns true or false. */
  datatype Verdict = Skipped | Passed | Failed

  /** A phase over the callbacks' verdicts from position `k` on: the callbacks not skipped are
      invoked in order until one fails. */
  function Scan(verdicts: seq<Verdict>, k: nat): Phase
    decreases |verdicts| - k
  {
    if k >= |verdicts| then Phase(false, [])
    else match verdicts[k]
      case Skipped => Scan(verdicts, k + 1)
      case Failed => Phase(true, [k])
      case Passed =>
        var rest := Scan(verdicts, k + 1);
        Phase(rest.stopped, [k] + rest.invoked)
  }

  /** A scan that has invoked `done` so far and is about to look at position `k` moves on by
      one position, or stops. */
  lemma ScanAdvance(verdicts: seq<Verdict>, k: nat, done: seq<nat>, whole: Phase)
    requires k < |verdicts|
    requires whole.stopped == Scan(verdicts, k).stopped && whole.invoked == done + Scan(verdicts, k).invoked
    ensures verdicts[k] == Skipped ==>
      whole.stopped == Scan(verdicts, k + 1).stopped && whole.invoked == done + Scan(verdicts, k + 1).invoked
    ensures verdicts[k] == Failed ==> whole.stopped && whole.invoked == done + [k]
    ensures verdicts[k] == Passed ==>
      whole.stopped == Scan(verdicts, k + 1).stopped && whole.invoked == (done + [k]) + Scan(verdicts, k + 1).invoked
  {
    if verdicts[k] == Passed {
      assert done + ([k] + Scan(verdicts, k + 1).invoked) == (done + [k]) + Scan(verdicts, k + 1).invoked;
    }
  }

  /** A scan that has looked at every position has invoked exactly `done` and did not stop. */
  lemma ScanFinished(verdicts: seq<Verdict>, done: seq<nat>, whole: Phase)
    requires whole.stopped == Scan(verdicts, |verdicts|).stopped && whole.invoked == done + Scan(verdicts, |verdicts|).invoked
    ensures !whole.stopped && whole.invoked == done
  {
    assert done + [] == done;
  }

  function BeforeVerdict<O, V(==)>(cb: BeforeCallback<O, V>, t: Transition<O, V>): Verdict {
    if !cb.filter.Accepts(t.Context()) then Skipped else if cb.run(t) then Passed else Failed
  }

  function AfterVerdict<O, V(==)>(cb: AfterCallback<O, V>, t: Transition<O, V>, result: bool): Verdict {
    if !cb.filter.Accepts(t.Context()) then Skipped else if cb.run(t, result) then Passed else Failed
  }

  function BeforeVerdicts<O, V(==)>(cbs: seq<BeforeCallback<O, V>>, t: Transition<O, V>): seq<Verdict> {
    seq(|cbs|, i requires 0 <= i < |cbs| => BeforeVerdict(cbs[i], t))
  }

  function AfterVerdicts<O, V(==)>(cbs: seq<AfterCallback<O, V>>, t: Transition<O, V>, result: bool): seq<Verdict> {
    seq(|cbs|, i requires 0 <= i < |cbs| => AfterVerdict(cbs[i], t, result))
  }

  /** The before-callbacks from position `k` on. */
  function BeforePhase<O, V(==)>(cbs: seq<BeforeCallback<O, V>>, t: Transition<O, V>, k: nat): Phase {
    Scan(BeforeVerdicts(cbs, t), k)
  }

  /** The after-callbacks from position `k` on, each given `result`. */
  function AfterPhase<O, V(==)>(cbs: seq<AfterCallback<O, V>>, t: Transition<O, V>, result: bool, k: nat): Phase {
    Scan(AfterVerdicts(cbs, t, result), k)
  }

  function BeforeSteps(invoked: seq<nat>): seq<Step> {
    seq(|invoked|, i requires 0 <= i < |invoked| => RanBefore(invoked[i]))
  }

  function AfterSteps(invoked: seq<nat>, result: bool): seq<Step> {
    seq(|invoked|, i requires 0 <= i < |invoked| => RanAfter(invoked[i], result))
  }

  lemma BeforeStepsAppend(invoked: seq<nat>, k: nat)
    ensures BeforeSteps(invoked + [k]) == BeforeSteps(invoked) + [RanBefore(k)]
  {
  }

  lemma AfterStepsAppend(invoked: seq<nat>, k: nat, result: bool)
    ensures AfterSteps(invoked + [k], result) == AfterSteps(invoked, result) + [RanAfter(k, result)]
  {
  }

  /** The whole of a perform: its result, whether the state was written, and its steps. */
  datatype Outcome = Outcome(result: bool, written: bool, steps: seq<Step>)

  function ActionSteps<O, V(==)>(m: Machine<O, V>): seq<Step> {
    if m.action.Some? then [RanAction] else []
  }

  /** What `perform` does, as a function of the machine and the transition. */
  function Run<O, V(==)>(m: Machine<O, V>, t: Transition<O, V>): Outcome {
    var before := BeforePhase(m.before, t, 0);
    if before.stopped then Outcome(false, false, BeforeSteps(before.invoked))
    else
      var result := if m.action.Some? then m.action.value(t) else true;
      var after := AfterPhase(m.after, t, result, 0);
      Outcome(result, true, BeforeSteps(before.invoked) + [WroteState] + ActionSteps(m) + AfterSteps(after.invoked, result))
  }

  /** The states the filters of `before` name, callback by callback. */
  function BeforeFilterStates<O, V(==)>(cbs: seq<BeforeCallback<O, V>>): seq<V> {
    if cbs == [] then [] else cbs[0].filter.KnownStates() + BeforeFilterStates(cbs[1..])
  }

  /** The states the filters of `after` name, callback by callback. */
  function AfterFilterStates<O, V(==)>(cbs: seq<AfterCallback<O, V>>): seq<V> {
    if cbs == [] then [] else cbs[0].filter.KnownStates() + AfterFilterStates(cbs[1..])
  }

  /** The machine's known states: the initial state, `otherStates` (where the events' known
      states belong) and the states named in callback filters, each once. */
  function MachineStates<O, V(==)>(m: Machine<O, V>): seq<V> {
    var initial := if m.initial.Some? then [m.initial.value] else [];
    Or(initial + m.otherStates, BeforeFilterStates(m.before) + AfterFilterStates(m.after))
  }

  /** A host record: `host` is what guard conditions see of it, `state` is the attribute the
      machine governs, and `trace` records every step a perform took on it. */
  class Record<O, V(==)> {
    const host: O
    var state: V
    var trace: seq<Step>

    constructor (host: O, state: V)
      ensures this.host == host && this.state == state && trace == []
    {
      this.host := host;
      this.state := state;
      trace := [];
    }

    /** `transition.perform` on this record. */
    method Perform(m: Machine<O, V>, t: Transition<O, V>) returns (result: bool)
      modifies this
      ensures result == Run(m, t).result
      ensures state == if Run(m, t).written then t.to else old(state)
      ensures trace == old(trace) + Run(m, t).steps
    {
      var halted := RunBeforeCallbacks(m.before, t);
      if halted {
        return false;
      }
      // The state is written before the action runs, and is not rolled back if it fails.
      state := t.to;
      trace := trace + [WroteState];
      if m.action.Some? {
        trace := trace + [RanAction];
        result := m.action.value(t);
      } else {
        result := true;
      }
      RunAfterCallbacks(m.after, t, result);
    }

    /** Invokes the before-callbacks in registration order until one returns false. */
    method RunBeforeCallbacks(cbs: seq<BeforeCallback<O, V>>, t: Transition<O, V>) returns (halted: bool)
      modifies this
      ensures halted == BeforePhase(cbs, t, 0).stopped
      ensures state == old(state)
      ensures trace == old(trace) + BeforeSteps(BeforePhase(cbs, t, 0).invoked)
    {
      ghost var verdicts := BeforeVerdicts(cbs, t);
      ghost var whole := Scan(verdicts, 0);
      ghost var done: seq<nat> := [];
      var k := 0;
      halted := false;
      while k < |cbs| && !halted
        invariant k <= |cbs|
        invariant state == old(state) && trace == old(trace) + BeforeSteps(done)
        invariant halted ==> whole.stopped && whole.invoked == done
        invariant !halted ==> whole.stopped == Scan(verdicts, k).stopped && whole.invoked == done + Scan(verdicts, k).invoked
        decreases |cbs| - k
      {
        // Skipped when the filter rejects the transition; otherwise invoked.
        var verdict := BeforeVerdict(cbs[k], t);
        assert verdicts[k] == verdict;
        ScanAdvance(verdicts, k, done, whole);
        if verdict != Skipped {
          BeforeStepsAppend(done, k);
          trace := trace + [RanBefore(k)];
          done := done + [k];
          halted := verdict == Failed;
        }
        k := k + 1;
      }
      if !halted {
        ScanFinished(verdicts, done, whole);
      }
    }

    /** Invokes the after-callbacks in registration order, each with `result`, until one
        returns false. */
    method RunAfterCallbacks(cbs: seq<AfterCallback<O, V>>, t: Transition<O, V>, result: bool)
      modifies this
      ensures state == old(state)
      ensures trace == old(trace) + AfterSteps(AfterPhase(cbs, t, result, 0).invoked, result)
    {
      ghost var verdicts := AfterVerdicts(cbs, t, result);
      ghost var whole := Scan(verdicts, 0);
      ghost var done: seq<nat> := [];
      var k := 0;
      var stopped := false;
      while k < |cbs| && !stopped
        invariant k <= |cbs|
        invariant state == old(state) && trace == old(trace) + AfterSteps(done, result)
        invariant stopped ==> whole.invoked == done
        invariant !stopped ==> whole.stopped == Scan(verdicts, k).stopped && whole.invoked == done + Scan(verdicts, k).invoked
        decreases |cbs| - k
      {
        // Skipped when the filter rejects the transition; otherwise invoked with the result.
        var verdict := AfterVerdict(cbs[k], t, result);
        assert verdicts[k] == verdict;
        ScanAdvance(verdicts, k, done, whole);
        if verdict != Skipped {
          AfterStepsAppend(done, k, result);
          trace := trace + [RanAfter(k, result)];
          done := done + [k];
          stopped := verdict == Failed;
        }
        k := k + 1;
      }
      if !stopped {
        ScanFinished(verdicts, done, whole);
      }
    }
  }
}
