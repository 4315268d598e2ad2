/**
 A cancelled turn runs down: every goroutine has a way out, each step out decreases a measure,
 and at the end done has been closed, exactly once, so the wait in stop() ends.
 */
module Drain {
  import opened Types
  import opened ActiveTurns
  import opened TurnSystem
  import Sessions
  import Gateway
  import Runs

  function InEmit(t: Turn): set<string> {
    set id | id in t.callers && t.callers[id].phase.Emitting?
  }

  function InWait(t: Turn): set<string> {
    set id | id in t.callers && t.callers[id].phase.Waiting?
  }

  /** Steps the runner still has to take; once cancelled the agent only returns. */
  function RunnerMeasure(r: Runner): nat {
    match r
    case Running => 3
    case Offering(e) => if e.DoneEvent? then 2 else 4
    case Leaving => 1
    case Exited => 0
    case NeverRan => 0
  }

  function Measure(t: Turn): nat {
    2 * |InEmit(t)| + |InWait(t)| + RunnerMeasure(t.runner)
  }

  /** The steps of goroutines already inside the turn. New calls and new agent output are not among them. */
  predicate DrainStep(a: TurnAction) {
    !a.CallArrives? && !a.AgentSpeaks? && !a.Cancel?
  }

  lemma StepDecreases(t: Turn, a: TurnAction)
    requires Enabled(t, a) && DrainStep(a)
    ensures Measure(Apply(t, a)) < Measure(t)
    ensures RunnerMeasure(Apply(t, a).runner) <= RunnerMeasure(t.runner)
    ensures t.st.cancelled ==> Apply(t, a).st.cancelled
  {
    hide ValidCall, InEmit, InWait;
    if a.CallEmits? || a.CallEmitRefused? {
      LeavingEmit(t, a, a.id);
    } else if a.CallReceives? || a.CallSeesCancel? || a.CallDisconnects? {
      LeavingWait(t, a, a.id);
    } else {
      assert Apply(t, a).callers == t.callers;
      SameCallers(t, Apply(t, a));
    }
  }

  /** What a newcomer adds to the work: a new call, one more agent message, one more cancellation. */
  function Extra(a: TurnAction): nat {
    match a
    case CallArrives(_) => 3
    case AgentSpeaks(_) => 2
    case Cancel => 1
    case _ => 0
  }

  function ExtraOf(actions: seq<TurnAction>): nat {
    if actions == [] then 0 else Extra(actions[0]) + ExtraOf(actions[1..])
  }

  /** Every step takes one off the work left, up to what newcomers add. */
  lemma StepIsPaid(t: Turn, a: TurnAction)
    requires Enabled(t, a)
    ensures Measure(Apply(t, a)) + 1 <= Measure(t) + Extra(a)
    ensures t.st.cancelled ==> Apply(t, a).st.cancelled
  {
    hide ValidCall, InEmit, InWait;
    if DrainStep(a) {
      StepDecreases(t, a);
    } else if a.CallArrives? {
      Entering(t, a.call);
    } else {
      SameCallers(t, Apply(t, a));
    }
  }

  lemma Entering(t: Turn, call: ToolCall)
    requires Enabled(t, CallArrives(call))
    ensures var t' := Apply(t, CallArrives(call));
      |InEmit(t')| == |InEmit(t)| + 1 && InWait(t') == InWait(t) && t'.runner == t.runner
  {
    hide ValidCall, Allows, Register;
    var t' := Apply(t, CallArrives(call));
    assert t'.callers == t.callers[call.id := Caller(call, Emitting)];
    assert InEmit(t') == InEmit(t) + {call.id};
    assert InWait(t') == InWait(t);
  }

  lemma SameCallers(t: Turn, t': Turn)
    requires t'.callers == t.callers
    ensures InEmit(t') == InEmit(t) && InWait(t') == InWait(t)
  {
  }

  lemma LeavingEmit(t: Turn, a: TurnAction, id: string)
    requires Enabled(t, a) && (a == CallEmits(id) || a == CallEmitRefused(id))
    ensures var t' := Apply(t, a);
      |InEmit(t')| == |InEmit(t)| - 1 && |InWait(t')| <= |InWait(t)| + 1 && t'.runner == t.runner
  {
    var t' := Apply(t, a);
    assert InEmit(t') == InEmit(t) - {id};
    assert InWait(t') <= InWait(t) + {id};
    SubsetSize(InWait(t'), InWait(t) + {id});
  }

  lemma LeavingWait(t: Turn, a: TurnAction, id: string)
    requires Enabled(t, a) && (a == CallReceives(id) || a == CallSeesCancel(id) || a == CallDisconnects(id))
    ensures var t' := Apply(t, a);
      |InEmit(t')| == |InEmit(t)| && |InWait(t')| == |InWait(t)| - 1 && t'.runner == t.runner
  {
    var t' := Apply(t, a);
    assert InEmit(t') == InEmit(t);
    assert InWait(t') == InWait(t) - {id};
  }

  lemma {:induction false} SubsetSize(a: set<string>, b: set<string>)
    requires a <= b
    ensures |a| <= |b|
  {
    assert b == a + (b - a);
  }

  /** Nobody is left inside, and done was closed once. */
  ghost predicate Drained(t: Turn) {
    && (forall id | id in t.callers :: t.callers[id].phase.Returned?)
    && (t.runner.Exited? || t.runner.NeverRan?)
    && t.st.closes == 1
  }

  /** In a cancelled turn somebody can take a step out until everybody is out. */
  lemma NobodyIsStuck(t: Turn) returns (a: TurnAction)
    requires Inv(t) && t.st.cancelled && !Drained(t)
    ensures DrainStep(a) && Enabled(t, a)
  {
    if t.runner.Running? {
      a := AgentReturns(true);
    } else if t.runner.Offering? {
      a := RunnerEmitRefused;
    } else if t.runner.Leaving? {
      a := RunnerCloses;
    } else {
      var id :| id in t.callers && !t.callers[id].phase.Returned?;
      a := if t.callers[id].phase.Emitting? then CallEmitRefused(id) else CallSeesCancel(id);
    }
  }

  ghost predicate TurnRun(turns: seq<Turn>, actions: seq<TurnAction>) {
    && |turns| == |actions| + 1
    && forall k | 0 <= k < |actions| :: Enabled(turns[k], actions[k]) && turns[k + 1] == Apply(turns[k], actions[k])
  }

  lemma TurnRunTail(turns: seq<Turn>, actions: seq<TurnAction>)
    requires TurnRun(turns, actions) && actions != []
    ensures TurnRun(turns[1..], actions[1..])
  {
    hide Apply, Enabled;
    forall k | 0 <= k < |actions[1..]|
      ensures Enabled(turns[1..][k], actions[1..][k])
      ensures turns[1..][k + 1] == Apply(turns[1..][k], actions[1..][k])
    {
      assert turns[(k + 1) + 1] == Apply(turns[k + 1], actions[k + 1]);
    }
  }

  /**
   A cancelled turn runs down: whatever its goroutines do next is at most Measure steps long,
   not counting what newcomers bring, and when nobody inside can go on, everybody is out.
   */
  lemma {:induction false} CancellationDrains(turns: seq<Turn>, actions: seq<TurnAction>)
    requires TurnRun(turns, actions) && Inv(turns[0]) && turns[0].st.cancelled
    ensures |actions| <= Measure(turns[0]) + ExtraOf(actions)
    ensures (forall a :: !(DrainStep(a) && Enabled(Last(turns), a))) ==> Drained(Last(turns))
    decreases |actions|
  {
    hide Apply, Enabled, Inv, Drained, Measure;
    if actions == [] {
      if !Drained(turns[0]) {
        var a := NobodyIsStuck(turns[0]);
      }
    } else {
      assert turns[0 + 1] == Apply(turns[0], actions[0]);
      StepIsPaid(turns[0], actions[0]);
      ActionKeepsInv(turns[0], actions[0]);
      TurnRunTail(turns, actions);
      CancellationDrains(turns[1..], actions[1..]);
    }
  }

  /** done is closed at most once, and once closed the runner takes no step: in every reachable world. */
  lemma DoneClosesOnce(worlds: seq<Gateway.World>, actions: seq<Gateway.Action>, k: nat, i: nat)
    requires Runs.Run(worlds, actions) && k < |worlds| && i < |worlds[k].turns|
    ensures var t := worlds[k].turns[i];
      && t.st.closes <= 1
      && (t.st.closes == 1 <==> RunnerMeasure(t.runner) == 0)
      && (t.st.closes == 1 ==> !Enabled(t, RunnerCloses))
  {
    hide Gateway.HolderSound, Gateway.Shadowed, Runs.Run;
    hide Served, PendingSound, ResultsSound, EmittedSound, ExchangesSound;
    Runs.RunKeepsInv(worlds, actions, k);
  }

  /**
   The wait in stop() ends: while a handler, watcher or janitor waits, the awaited turn is
   cancelled and its runner can step; no other goroutine of the turn sets the runner back; and
   when the runner has no step left the wait is over.
   */
  lemma StopEnds(worlds: seq<Gateway.World>, actions: seq<Gateway.Action>, k: nat)
    requires Runs.Run(worlds, actions) && k < |worlds| && worlds[k].holder.Clearing?
    ensures var w := worlds[k];
      if Gateway.Enabled(w, Gateway.FinishClear) then true
      else
        && Gateway.Active(w) && Gateway.Current(w).st.cancelled
        && RunnerMeasure(Gateway.Current(w).runner) > 0
        && (exists a :: DrainStep(a) && Enabled(Gateway.Current(w), a)
              && RunnerMeasure(Apply(Gateway.Current(w), a).runner) < RunnerMeasure(Gateway.Current(w).runner))
        && (forall a | Enabled(Gateway.Current(w), a) && !a.AgentSpeaks? ::
              RunnerMeasure(Apply(Gateway.Current(w), a).runner) <= RunnerMeasure(Gateway.Current(w).runner))
  {
    hide Runs.Run, Served, PendingSound, ResultsSound, EmittedSound, ExchangesSound, Outstanding;
    hide Gateway.Apply, Gateway.Collected;
    Runs.RunKeepsInv(worlds, actions, k);
    var w := worlds[k];
    if !Gateway.Enabled(w, Gateway.FinishClear) {
      RunnerCanStep(Gateway.Current(w));
    }
  }

  lemma RunnerCanStep(t: Turn)
    requires t.st.cancelled && RunnerMeasure(t.runner) > 0
    ensures exists a :: DrainStep(a) && Enabled(t, a) && RunnerMeasure(Apply(t, a).runner) < RunnerMeasure(t.runner)
    ensures forall a | Enabled(t, a) && !a.AgentSpeaks? :: RunnerMeasure(Apply(t, a).runner) <= RunnerMeasure(t.runner)
  {
    hide ValidCall;
    var a :=
      if t.runner.Running? then AgentReturns(true) else if t.runner.Offering? then RunnerEmitRefused else RunnerCloses;
    assert DrainStep(a) && Enabled(t, a) && RunnerMeasure(Apply(t, a).runner) < RunnerMeasure(t.runner);
  }

  // The session lock is never lost.

  /** Steps that need no new request, crash, eviction or cancellation from outside. */
  predicate Finishing(a: Gateway.Action) {
    match a
    case TurnStep(_, step) => DrainStep(step)
    case FinishClear => true
    case Install => true
    case GiveUp => true
    case CheckCause => true
    case Commit(_) => true
    case _ => false
  }

  ghost predicate FinishingRun(worlds: seq<Gateway.World>, actions: seq<Gateway.Action>) {
    && |worlds| == |actions| + 1
    && forall k | 0 <= k < |actions| ::
         && Finishing(actions[k]) && Gateway.Enabled(worlds[k], actions[k])
         && worlds[k + 1] == Gateway.Apply(worlds[k], actions[k])
  }

  /** How far a handler still has to go, and how long the runner may make it wait. */
  function WayOut(w: Gateway.World): nat {
    match w.holder
    case Free => 0
    case Clearing(next) =>
      (if next.LaunchNext? then 40 else 10)
      + (if Gateway.Active(w) then RunnerMeasure(Gateway.Current(w).runner) else 0)
    case Launching(_, _) => 30
    case Consuming(_, _, _) => 20
    case Delivered(_, _, _, _) => 20
    case Committing(_, _, _, _) => 10
    case Finished(_, _, _, _) => 10
  }

  ghost predicate StepsOut(w: Gateway.World, a: Gateway.Action)
    requires Gateway.Enabled(w, a)
  {
    Finishing(a) && WayOut(Gateway.Apply(w, a)) < WayOut(w)
  }

  /** A handler always has a step that brings it nearer to releasing the lock, or its runner has. */
  lemma NextStepOut(w: Gateway.World) returns (a: Gateway.Action)
    requires Gateway.Inv(w) && !w.holder.Free?
    ensures Gateway.Enabled(w, a) && StepsOut(w, a)
  {
    LoopIsActive(w);
    hide Gateway.Inv, StepsOut, Gateway.Enabled;
    match w.holder
    case Clearing(_) => a := StepOutOfClearing(w);
    case Launching(_, _) => a := Gateway.Install; InstallGoesOn(w);
    case Consuming(_, _, _) => a := Gateway.GiveUp; GivingUpGoesOn(w);
    case Delivered(_, _, _, _) => a := Gateway.CheckCause; GivingUpGoesOn(w);
    case _ => a := Gateway.Commit(""); CommitGoesOn(w);
  }

  lemma InstallGoesOn(w: Gateway.World)
    requires w.holder.Launching?
    ensures Gateway.Enabled(w, Gateway.Install) && StepsOut(w, Gateway.Install)
  {
  }

  lemma GivingUpGoesOn(w: Gateway.World)
    ensures w.holder.Consuming? ==> Gateway.Enabled(w, Gateway.GiveUp) && StepsOut(w, Gateway.GiveUp)
    ensures w.holder.Delivered? && Gateway.Active(w) ==>
      Gateway.Enabled(w, Gateway.CheckCause) && StepsOut(w, Gateway.CheckCause)
  {
  }

  lemma CommitGoesOn(w: Gateway.World)
    requires (w.holder.Committing? && Gateway.Active(w)) || w.holder.Finished?
    ensures Gateway.Enabled(w, Gateway.Commit("")) && StepsOut(w, Gateway.Commit(""))
  {
  }

  lemma LoopIsActive(w: Gateway.World)
    requires Gateway.Inv(w)
    ensures w.holder.Consuming? || w.holder.Delivered? || w.holder.Committing? ==> Gateway.Active(w)
  {
    hide Inv, Outstanding, Gateway.Collected, Fresh, ValidCall;
  }

  lemma StepOutOfClearing(w: Gateway.World) returns (a: Gateway.Action)
    requires Gateway.Inv(w) && w.holder.Clearing?
    ensures Gateway.Enabled(w, a) && StepsOut(w, a)
    ensures var w' := Gateway.Apply(w, a); w' == Gateway.FinishedClear(w) || w' == w.(turns := w'.turns)
  {
    if Gateway.Enabled(w, Gateway.FinishClear) {
      a := Gateway.FinishClear;
    } else {
      var t := Gateway.Current(w);
      RunnerCanStep(t);
      var step :| DrainStep(step) && Enabled(t, step) && RunnerMeasure(Apply(t, step).runner) < RunnerMeasure(t.runner);
      a := Gateway.TurnStep(w.session.active.value, step);
    }
  }

  /**
   Whoever holds the session lock can give it back: from every reachable world some continuation
   without a new request, by at most WayOut steps, frees it.
   */
  lemma {:induction false} LockCanBeFreed(w: Gateway.World)
    returns (worlds: seq<Gateway.World>, actions: seq<Gateway.Action>)
    requires Gateway.Inv(w)
    ensures FinishingRun(worlds, actions) && worlds[0] == w
    ensures Last(worlds).holder.Free? && |actions| <= WayOut(w)
    decreases WayOut(w)
  {
    hide Gateway.Inv, Gateway.Apply, Gateway.Enabled, Finishing;
    if w.holder.Free? {
      worlds, actions := [w], [];
    } else {
      var a := NextStepOut(w);
      Runs.ActionKeepsInv(w, a);
      var rest, later := LockCanBeFreed(Gateway.Apply(w, a));
      worlds, actions := [w] + rest, [a] + later;
    }
  }

  lemma StepInClearing(w: Gateway.World) returns (a: Gateway.Action)
    requires Gateway.Inv(w) && w.holder.Clearing?
    ensures Finishing(a) && Gateway.Enabled(w, a)
    ensures var w' := Gateway.Apply(w, a);
      || w' == Gateway.FinishedClear(w)
      || (w' == w.(turns := w'.turns) && WayOut(w') < WayOut(w))
  {
    hide Gateway.FinishedClear;
    a := StepOutOfClearing(w);
  }

  /** A clearing or an eviction under way comes to its end, whatever the awaited turn was doing. */
  lemma {:induction false} ClearingEnds(w: Gateway.World)
    returns (worlds: seq<Gateway.World>, actions: seq<Gateway.Action>)
    requires Gateway.Inv(w) && w.holder.Clearing? && !w.holder.next.LaunchNext?
    ensures FinishingRun(worlds, actions) && worlds[0] == w
    ensures var end := Last(worlds); end.holder.Free? && end == Gateway.FinishedClear(w).(turns := end.turns)
    decreases WayOut(w)
  {
    hide Gateway.Inv, Gateway.Apply, Gateway.Enabled, Finishing;
    var a := StepInClearing(w);
    var next := Gateway.Apply(w, a);
    if next == Gateway.FinishedClear(w) {
      worlds, actions := [w, next], [a];
    } else {
      Runs.ActionKeepsInv(w, a);
      var rest, later := ClearingEnds(next);
      worlds, actions := [w] + rest, [a] + later;
    }
  }

  /**
   A turn that is cancelled or times out while its session rests is cleaned up without any
   request: its watcher may act at once, and then the session is cleared and its record gone.
   */
  lemma WatcherClears(w: Gateway.World, i: nat)
    returns (worlds: seq<Gateway.World>, actions: seq<Gateway.Action>)
    requires i < |w.turns| && w.turns[i].st.cancelled && w.session.active == Some(i)
    requires Gateway.Inv(w) && w.holder.Free?
    ensures Gateway.Enabled(w, Gateway.Watch(i))
    ensures FinishingRun(worlds, actions) && worlds[0] == Gateway.Apply(w, Gateway.Watch(i))
    ensures var end := Last(worlds);
      end.holder.Free? && end.session == Sessions.Cleared(w.session) && end.record.None?
  {
    hide Gateway.Inv;
    Runs.ActionKeepsInv(w, Gateway.Watch(i));
    worlds, actions := ClearingEnds(Gateway.Apply(w, Gateway.Watch(i)));
  }

  /** An idle session that the janitor takes is evicted, and its record is left alone. */
  lemma JanitorEvicts(w: Gateway.World)
    returns (worlds: seq<Gateway.World>, actions: seq<Gateway.Action>)
    requires Gateway.Inv(w) && w.holder.Free?
    ensures Gateway.Enabled(w, Gateway.EvictIdle)
    ensures FinishingRun(worlds, actions) && worlds[0] == Gateway.Apply(w, Gateway.EvictIdle)
    ensures var end := Last(worlds);
      end.holder.Free? && end.session == Sessions.Evicted(w.session) && end.record == w.record
  {
    hide Gateway.Inv;
    Runs.ActionKeepsInv(w, Gateway.EvictIdle);
    worlds, actions := ClearingEnds(Gateway.Apply(w, Gateway.EvictIdle));
  }
}
