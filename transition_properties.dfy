/**
 * What performing a transition promises, proved about `Run`.
 *
 * A callback phase is first described independently of its recursive definition
 * (`ScanSpec`): the invoked callbacks are exactly the ones not skipped, in registration
 * order, up to and including the first that returns false. The halting,
 * failed-action, failed-after-callback and ordering properties follow from those
 * descriptions.
 */
module TransitionProperties {
  import opened Wrappers
  import opened OrderedSets
  import opened Guards
  import opened Transitions

  /** Every invoked position is at least `k` and names a callback that was not skipped. */
  predicate InvokedNotSkipped(verdicts: seq<Verdict>, k: nat, ix: seq<nat>) {
    forall s :: 0 <= s < |ix| ==> k <= ix[s] < |verdicts| && verdicts[ix[s]] != Skipped
  }

  predicate Increasing(ix: seq<nat>) {
    forall s, u :: 0 <= s < u < |ix| ==> ix[s] < ix[u]
  }

  /** Every invoked callback but the last passed. */
  predicate AllButLastPassed(verdicts: seq<Verdict>, ix: seq<nat>)
    requires forall s :: 0 <= s < |ix| ==> ix[s] < |verdicts|
  {
    forall s :: 0 <= s < |ix| - 1 ==> verdicts[ix[s]] == Passed
  }

  /** The phase stopped exactly when the last invoked callback failed. */
  predicate StoppedByLast(verdicts: seq<Verdict>, p: Phase)
    requires forall s :: 0 <= s < |p.invoked| ==> p.invoked[s] < |verdicts|
  {
    p.stopped <==> |p.invoked| > 0 && verdicts[p.invoked[|p.invoked| - 1]] == Failed
  }

  /** No callback not skipped was passed over: every one from `k` on (before the last invoked,
      when the phase stopped) was invoked. */
  predicate NonePassedOver(verdicts: seq<Verdict>, k: nat, p: Phase) {
    forall j :: k <= j < |verdicts| && verdicts[j] != Skipped && (!p.stopped || (|p.invoked| > 0 && j < p.invoked[|p.invoked| - 1]))
      ==> j in p.invoked
  }

  /** Phase `p` invoked, from position `k` on, exactly the callbacks not skipped, in order,
      stopping after the first that failed. */
  predicate ScanSpec(verdicts: seq<Verdict>, k: nat, p: Phase) {
    && InvokedNotSkipped(verdicts, k, p.invoked)
    && Increasing(p.invoked)
    && AllButLastPassed(verdicts, p.invoked)
    && StoppedByLast(verdicts, p)
    && NonePassedOver(verdicts, k, p)
  }

  lemma {:induction false} ScanInvokedInOrder(verdicts: seq<Verdict>, k: nat)
    ensures InvokedNotSkipped(verdicts, k, Scan(verdicts, k).invoked) && Increasing(Scan(verdicts, k).invoked)
    decreases |verdicts| - k
  {
    if k < |verdicts| && verdicts[k] != Failed {
      ScanInvokedInOrder(verdicts, k + 1);
      if verdicts[k] == Passed {
        var ix := Scan(verdicts, k).invoked;
        var rest := Scan(verdicts, k + 1).invoked;
        assert ix == [k] + rest;
        assert forall s :: 1 <= s < |ix| ==> ix[s] == rest[s - 1];
      }
    }
  }

  lemma {:induction false} ScanStopsAtFailure(verdicts: seq<Verdict>, k: nat)
    ensures InvokedNotSkipped(verdicts, k, Scan(verdicts, k).invoked)
    ensures AllButLastPassed(verdicts, Scan(verdicts, k).invoked)
    ensures StoppedByLast(verdicts, Scan(verdicts, k))
    decreases |verdicts| - k
  {
    ScanInvokedInOrder(verdicts, k);
    if k < |verdicts| && verdicts[k] != Failed {
      ScanStopsAtFailure(verdicts, k + 1);
      if verdicts[k] == Passed {
        var ix := Scan(verdicts, k).invoked;
        var rest := Scan(verdicts, k + 1).invoked;
        assert ix == [k] + rest;
        assert forall s :: 1 <= s < |ix| ==> ix[s] == rest[s - 1];
      }
    }
  }

  lemma {:induction false} ScanPassesOverNothing(verdicts: seq<Verdict>, k: nat)
    ensures NonePassedOver(verdicts, k, Scan(verdicts, k))
    decreases |verdicts| - k
  {
    if k < |verdicts| && verdicts[k] != Failed {
      ScanPassesOverNothing(verdicts, k + 1);
      if verdicts[k] == Passed {
        var p, rest := Scan(verdicts, k), Scan(verdicts, k + 1);
        assert p.invoked == [k] + rest.invoked && p.stopped == rest.stopped;
        assert |rest.invoked| > 0 ==> p.invoked[|p.invoked| - 1] == rest.invoked[|rest.invoked| - 1];
        ScanStopsAtFailure(verdicts, k + 1);
      }
    }
  }

  lemma ScanMeetsSpec(verdicts: seq<Verdict>, k: nat)
    ensures ScanSpec(verdicts, k, Scan(verdicts, k))
  {
    ScanInvokedInOrder(verdicts, k);
    ScanStopsAtFailure(verdicts, k);
    ScanPassesOverNothing(verdicts, k);
  }

  /** Under `ScanSpec` from the start, every callback not skipped before the last one invoked
      passed, nothing after the last one was invoked, and when the phase was not stopped every
      callback not skipped passed. */
  lemma ScanPrefix(verdicts: seq<Verdict>, p: Phase)
    requires ScanSpec(verdicts, 0, p)
    ensures p.stopped ==> forall j :: 0 <= j < p.invoked[|p.invoked| - 1] && verdicts[j] != Skipped ==> verdicts[j] == Passed
    ensures p.stopped ==> forall s :: 0 <= s < |p.invoked| ==> p.invoked[s] <= p.invoked[|p.invoked| - 1]
    ensures !p.stopped ==> forall j :: 0 <= j < |verdicts| && verdicts[j] != Skipped ==> verdicts[j] == Passed
  {
    var ix, n := p.invoked, |p.invoked|;
    forall j | 0 <= j < |verdicts| && verdicts[j] != Skipped && (!p.stopped || (n > 0 && j < ix[n - 1]))
      ensures verdicts[j] == Passed
    {
      var q :| 0 <= q < n && ix[q] == j;
      assert p.stopped ==> q != n - 1;
    }
  }

  /** A before-callback that accepts the transition and returns false halts the perform: the
      result is false, the state is not written, neither the action nor any after-callback
      runs, and no before-callback registered after the first such one is invoked. Without
      such a callback the state is written. */
  lemma BeforeFailureHalts<O, V>(m: Machine<O, V>, t: Transition<O, V>)
    ensures !Run(m, t).written <==>
      exists i :: 0 <= i < |m.before| && m.before[i].filter.Accepts(t.Context()) && !m.before[i].run(t)
    ensures !Run(m, t).written ==> !Run(m, t).result
    ensures !Run(m, t).written ==> forall s :: 0 <= s < |Run(m, t).steps| ==> Run(m, t).steps[s].RanBefore?
    ensures forall i, s ::
      (0 <= i < |m.before| && m.before[i].filter.Accepts(t.Context()) && !m.before[i].run(t)
       && 0 <= s < |Run(m, t).steps| && Run(m, t).steps[s].RanBefore?) ==> Run(m, t).steps[s].index <= i
  {
    var vs := BeforeVerdicts(m.before, t);
    var b := Scan(vs, 0);
    ScanMeetsSpec(vs, 0);
    ScanPrefix(vs, b);
    assert forall i :: 0 <= i < |m.before| ==>
      (vs[i] == Failed <==> m.before[i].filter.Accepts(t.Context()) && !m.before[i].run(t));
    var steps := Run(m, t).steps;
    if b.stopped {
      var f := b.invoked[|b.invoked| - 1];
      assert vs[f] == Failed;
      assert forall s :: 0 <= s < |steps| ==> steps[s] == RanBefore(b.invoked[s]);
    }
  }

  /** Once the state is written, the result is the action's outcome (true without an action)
      whatever the after-callbacks return, and every after-callback is handed that result. */
  lemma AfterCallbacksKeepResult<O, V>(m: Machine<O, V>, t: Transition<O, V>)
    requires Run(m, t).written
    ensures Run(m, t).result == (m.action.None? || m.action.value(t))
    ensures forall s :: 0 <= s < |Run(m, t).steps| && Run(m, t).steps[s].RanAfter? ==>
      Run(m, t).steps[s].result == Run(m, t).result
  {
    var b := BeforePhase(m.before, t, 0);
    var result := Run(m, t).result;
    var a := AfterPhase(m.after, t, result, 0);
    var head := BeforeSteps(b.invoked) + [WroteState] + ActionSteps(m);
    var steps := Run(m, t).steps;
    assert steps == head + AfterSteps(a.invoked, result);
    assert forall s :: 0 <= s < |head| ==> !steps[s].RanAfter?;
  }

  /** An after-callback that accepts the transition and returns false is the last one run. */
  lemma AfterCallbackFailureStops<O, V>(m: Machine<O, V>, t: Transition<O, V>)
    requires Run(m, t).written
    ensures forall i, s ::
      (0 <= i < |m.after| && m.after[i].filter.Accepts(t.Context()) && !m.after[i].run(t, Run(m, t).result)
       && 0 <= s < |Run(m, t).steps| && Run(m, t).steps[s].RanAfter?) ==> Run(m, t).steps[s].index <= i
  {
    var b := BeforePhase(m.before, t, 0);
    var result := Run(m, t).result;
    var vs := AfterVerdicts(m.after, t, result);
    var a := Scan(vs, 0);
    ScanMeetsSpec(vs, 0);
    ScanPrefix(vs, a);
    assert forall i :: 0 <= i < |m.after| ==>
      (vs[i] == Failed <==> m.after[i].filter.Accepts(t.Context()) && !m.after[i].run(t, result));
    var head := BeforeSteps(b.invoked) + [WroteState] + ActionSteps(m);
    var steps := Run(m, t).steps;
    assert steps == head + AfterSteps(a.invoked, result);
    assert forall s :: 0 <= s < |head| ==> !steps[s].RanAfter?;
    assert forall s :: |head| <= s < |steps| ==> steps[s] == RanAfter(a.invoked[s - |head|], result);
  }

  /** The after-callbacks cannot change whether the state is written nor the result. */
  lemma ResultIndependentOfAfterCallbacks<O, V>(m: Machine<O, V>, t: Transition<O, V>, others: seq<AfterCallback<O, V>>)
    ensures Run(m.(after := others), t).written == Run(m, t).written
    ensures Run(m.(after := others), t).result == Run(m, t).result
  {
    assert m.(after := others).before == m.before;
  }

  /** Phases of a perform, in the order they happen. */
  function Rank(s: Step): nat {
    match s
    case RanBefore(_) => 0
    case WroteState => 1
    case RanAction => 2
    case RanAfter(_, _) => 3
  }

  /** Step `a` happens before step `b`: an earlier phase, or the same callback list at an
      earlier position. */
  predicate Precedes(a: Step, b: Step) {
    || Rank(a) < Rank(b)
    || (a.RanBefore? && b.RanBefore? && a.index < b.index)
    || (a.RanAfter? && b.RanAfter? && a.index < b.index)
  }

  predicate InOrder(steps: seq<Step>) {
    forall i, j :: 0 <= i < j < |steps| ==> Precedes(steps[i], steps[j])
  }

  lemma InOrderConcat(x: seq<Step>, y: seq<Step>)
    requires InOrder(x) && InOrder(y)
    requires forall i, j :: 0 <= i < |x| && 0 <= j < |y| ==> Rank(x[i]) < Rank(y[j])
    ensures InOrder(x + y)
  {
    forall i, j | 0 <= i < j < |x + y| ensures Precedes((x + y)[i], (x + y)[j]) {
      if j < |x| {
        assert (x + y)[i] == x[i] && (x + y)[j] == x[j];
      } else if i >= |x| {
        assert (x + y)[i] == y[i - |x|] && (x + y)[j] == y[j - |x|];
      } else {
        assert (x + y)[i] == x[i] && (x + y)[j] == y[j - |x|];
      }
    }
  }

  /** Every before-callback runs before the state is written, the write before the action,
      the action before every after-callback, and each callback list in registration order.
      The write and the action happen exactly when the perform was not halted. */
  lemma PhasesIncreasing<O, V>(m: Machine<O, V>, t: Transition<O, V>, result: bool)
    ensures Increasing(BeforePhase(m.before, t, 0).invoked)
    ensures Increasing(AfterPhase(m.after, t, result, 0).invoked)
  {
    ScanMeetsSpec(BeforeVerdicts(m.before, t), 0);
    ScanMeetsSpec(AfterVerdicts(m.after, t, result), 0);
  }

  lemma PhaseStepsInOrder(ix: seq<nat>, result: bool)
    requires Increasing(ix)
    ensures InOrder(BeforeSteps(ix)) && InOrder(AfterSteps(ix, result))
  {
  }

  lemma StepsInOrder<O, V>(m: Machine<O, V>, t: Transition<O, V>)
    ensures InOrder(Run(m, t).steps)
  {
    var b := BeforePhase(m.before, t, 0);
    var result := Run(m, t).result;
    var a := AfterPhase(m.after, t, result, 0);
    PhasesIncreasing(m, t, result);
    PhaseStepsInOrder(b.invoked, result);
    PhaseStepsInOrder(a.invoked, result);
    var bs := BeforeSteps(b.invoked);
    assert forall s :: 0 <= s < |bs| ==> Rank(bs[s]) == 0;
    if !b.stopped {
      var afs := AfterSteps(a.invoked, result);
      assert forall s :: 0 <= s < |afs| ==> Rank(afs[s]) == 3;
      var head := bs + [WroteState];
      assert forall s :: 0 <= s < |head| ==> Rank(head[s]) <= 1;
      InOrderConcat(bs, [WroteState]);
      var head2 := head + ActionSteps(m);
      assert forall s :: 0 <= s < |head2| ==> Rank(head2[s]) <= 2;
      InOrderConcat(head, ActionSteps(m));
      InOrderConcat(head2, afs);
      assert Run(m, t).steps == head2 + afs;
    }
  }

  /** The state is written exactly when the perform gets past the before-callbacks, and the
      action runs exactly when there is one and the state was written. */
  lemma WriteAndActionSteps<O, V>(m: Machine<O, V>, t: Transition<O, V>)
    ensures WroteState in Run(m, t).steps <==> Run(m, t).written
    ensures RanAction in Run(m, t).steps <==> Run(m, t).written && m.action.Some?
  {
    var b := BeforePhase(m.before, t, 0);
    var bs := BeforeSteps(b.invoked);
    assert forall s :: 0 <= s < |bs| ==> bs[s].RanBefore?;
    if !b.stopped {
      var result := Run(m, t).result;
      var afs := AfterSteps(AfterPhase(m.after, t, result, 0).invoked, result);
      assert forall s :: 0 <= s < |afs| ==> afs[s].RanAfter?;
      assert Run(m, t).steps == bs + [WroteState] + ActionSteps(m) + afs;
      assert Run(m, t).steps[|bs|] == WroteState;
      if m.action.Some? {
        assert Run(m, t).steps[|bs| + 1] == RanAction;
      }
    }
  }

  lemma {:induction false} BeforeFilterStatesElements<O, V>(cbs: seq<BeforeCallback<O, V>>, x: V)
    ensures x in BeforeFilterStates(cbs) <==> exists i :: 0 <= i < |cbs| && x in cbs[i].filter.KnownStates()
    decreases |cbs|
  {
    if cbs != [] {
      BeforeFilterStatesElements(cbs[1..], x);
      assert forall i :: 1 <= i < |cbs| ==> cbs[i] == cbs[1..][i - 1];
      if x in BeforeFilterStates(cbs[1..]) {
        var i :| 0 <= i < |cbs[1..]| && x in cbs[1..][i].filter.KnownStates();
        assert x in cbs[i + 1].filter.KnownStates();
      }
    }
  }

  lemma {:induction false} AfterFilterStatesElements<O, V>(cbs: seq<AfterCallback<O, V>>, x: V)
    ensures x in AfterFilterStates(cbs) <==> exists i :: 0 <= i < |cbs| && x in cbs[i].filter.KnownStates()
    decreases |cbs|
  {
    if cbs != [] {
      AfterFilterStatesElements(cbs[1..], x);
      assert forall i :: 1 <= i < |cbs| ==> cbs[i] == cbs[1..][i - 1];
      if x in AfterFilterStates(cbs[1..]) {
        var i :| 0 <= i < |cbs[1..]| && x in cbs[1..][i].filter.KnownStates();
        assert x in cbs[i + 1].filter.KnownStates();
      }
    }
  }

  /** A machine knows exactly its initial state, the caller's `otherStates` (which is where the
      events' known states belong) and the states named in its callbacks' filters, each once. */
  lemma MachineStatesSpec<O, V>(m: Machine<O, V>)
    ensures NoDups(MachineStates(m))
    ensures forall x :: x in MachineStates(m) <==>
      || m.initial == Some(x)
      || x in m.otherStates
      || (exists i :: 0 <= i < |m.before| && x in m.before[i].filter.KnownStates())
      || (exists i :: 0 <= i < |m.after| && x in m.after[i].filter.KnownStates())
  {
    var initial := if m.initial.Some? then [m.initial.value] else [];
    var named := BeforeFilterStates(m.before) + AfterFilterStates(m.after);
    OrSpec(initial + m.otherStates, named);
    forall x ensures x in MachineStates(m) <==>
      || m.initial == Some(x)
      || x in m.otherStates
      || (exists i :: 0 <= i < |m.before| && x in m.before[i].filter.KnownStates())
      || (exists i :: 0 <= i < |m.after| && x in m.after[i].filter.KnownStates())
    {
      BeforeFilterStatesElements(m.before, x);
      AfterFilterStatesElements(m.after, x);
    }
  }

  // The scenarios of the record-integration tests: a transition of `state` from "off" to
  // "on" by "turn_on", on a machine whose action succeeds unless stated otherwise.

  function AnyContext(): Requirement<string> {
    Requirement(All, All, All)
  }

  function TurnOn(): Transition<int, string> {
    Transition(0, "state", "turn_on", "off", "on")
  }

  function Saves(succeeds: bool): Option<Transition<int, string> -> bool> {
    Some((t: Transition<int, string>) => succeeds)
  }

  /** A false before-callback: not successful, state not written, action not run, and the
      second before-callback not invoked (one callback invocation in all). */
  lemma FailedBeforeCallbackScenario()
    ensures var m := Machine("state", None, [],
                             [BeforeCallback(AnyContext(), (t: Transition<int, string>) => false),
                              BeforeCallback(AnyContext(), (t: Transition<int, string>) => true)],
                             [], Saves(true));
            Run(m, TurnOn()) == Outcome(false, false, [RanBefore(0)])
  {
  }

  /** A failing action: not successful, yet the state has been written. */
  lemma FailedActionScenario()
    ensures Run(Machine("state", None, [], [], [], Saves(false)), TurnOn()) == Outcome(false, true, [WroteState, RanAction])
  {
  }

  /** A false after-callback: still successful, state written, action run, and the second
      after-callback not invoked. */
  lemma FailedAfterCallbackScenario()
    ensures var m := Machine("state", None, [], [],
                             [AfterCallback(AnyContext(), (t: Transition<int, string>, r: bool) => false),
                              AfterCallback(AnyContext(), (t: Transition<int, string>, r: bool) => true)],
                             Saves(true));
            Run(m, TurnOn()) == Outcome(true, true, [WroteState, RanAction, RanAfter(0, true)])
  {
  }

  /** One before- and one after-callback: the before-callback first, the after-callback
      last and handed the result true. */
  lemma MixedCallbacksScenario()
    ensures var m := Machine("state", None, [],
                             [BeforeCallback(AnyContext(), (t: Transition<int, string>) => true)],
                             [AfterCallback(AnyContext(), (t: Transition<int, string>, r: bool) => true)],
                             Saves(true));
            Run(m, TurnOn()) == Outcome(true, true, [RanBefore(0), WroteState, RanAction, RanAfter(0, true)])
  {
  }

  /** `before_transition :to => 'error'` on a machine whose initial state is "off": the
      machine knows exactly "error" and "off". */
  lemma CallbackStatesScenario()
    ensures var m := Machine("state", Some("off"), [],
                             [BeforeCallback(Requirement(All, In(["error"]), All), (t: Transition<int, string>) => true)],
                             [], Saves(true));
            && NoDups(MachineStates(m))
            && forall x :: x in MachineStates(m) <==> x == "error" || x == "off"
  {
    var m := Machine("state", Some("off"), [],
                     [BeforeCallback(Requirement(All, In(["error"]), All), (t: Transition<int, string>) => true)],
                     [], Saves(true));
    MachineStatesSpec(m);
    assert [] + ["error"] == ["error"] && ["error"][1..] == [];
    assert m.before[0].filter.KnownStates() == ["error"];
  }
}
