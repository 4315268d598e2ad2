/** What the event loop of a tool-path exchange does with each thing its select yields (tool_chat.go). */
module ToolLoop {
  import opened Types
  import opened Collecting
  import opened ActiveTurns
  import opened StreamCollector

  datatype Reaction = Continue(g: Gather) | Offer(call: ToolCall) | Complete | Abort

  /** One event: collect a message, offer an allowed call, complete, or fail the exchange. */
  function React(policy: Policy, g: Gather, e: Event, modelRefused: bool): Reaction {
    match e
    case MessageEvent(m) => if m.Failure? || (m.Init? && modelRefused) then Abort else Continue(Absorb(g, m))
    case CallEvent(call) => if Allows(policy, call.name) then Offer(call) else Abort
    case DoneEvent(failed) => if failed || policy.Required? || policy.Named? then Abort else Complete
  }

  // What a select may yield: the client left, the turn was cancelled, or the next event.
  datatype Arrival = RequestGone | TurnOver | Arrived(event: Event)

  datatype LoopEnd = StillWaiting | Aborted | Called(call: ToolCall) | Completed

  predicate ModelRefused(c: State, e: Event) {
    e.MessageEvent? && e.message.Init? && Refused(c, e.message)
  }

  function Loop(policy: Policy, c: State, arrivals: seq<Arrival>, now: int): (LoopEnd, State)
    decreases |arrivals|
  {
    if arrivals == [] then (StillWaiting, c)
    else if !arrivals[0].Arrived? then (Aborted, c)
    else
      var e := arrivals[0].event;
      match React(policy, c.g, e, ModelRefused(c, e))
      case Continue(_) => Loop(policy, Handled(c, e.message, now), arrivals[1..], now)
      case Abort => (Aborted, if e.MessageEvent? then Handled(c, e.message, now) else c)
      case Offer(call) => (Called(call), c.(toolCalls := c.toolCalls + [call]))
      case Complete => (Completed, c)
  }

  /** What the tool path collects is what the loop's reactions gather: no initialisation is waited for. */
  lemma CollectorFollowsReaction(policy: Policy, c: State, e: Event, now: int)
    requires !c.waitingForInit && e.MessageEvent?
    ensures var r := React(policy, c.g, e, ModelRefused(c, e)); var c' := Handled(c, e.message, now);
      && !c'.waitingForInit
      && (r.Continue? <==> !Refused(c, e.message))
      && (r.Continue? ==> c'.g == r.g)
  {
    assert c.g.text + "" == c.g.text && c.g.reasoning + "" == c.g.reasoning;
  }

  /** The event loop, with what each select yields as a parameter. */
  method ConsumeEvents(turn: ActiveTurn, collector: Collector, policy: Policy, arrivals: seq<Arrival>,
                       now: int) returns (end: LoopEnd)
    requires turn.Valid() && !collector.waitingForInit
    modifies turn`pending, collector
    ensures turn.Valid()
    ensures (end, collector.View()) == Loop(policy, old(collector.View()), arrivals, now)
    ensures turn.View() == (if end.Called? then Deliver(old(turn.View()), end.call.id) else old(turn.View()))
  {
    hide Handled;
    end := StillWaiting;
    var i := 0;
    while i < |arrivals| && end.StillWaiting?
      invariant 0 <= i <= |arrivals| && turn.Valid() && !collector.waitingForInit
      invariant end.StillWaiting? ==> turn.View() == old(turn.View())
      invariant end.Called? ==> turn.View() == Deliver(old(turn.View()), end.call.id)
      invariant !end.Called? ==> turn.View() == old(turn.View())
      invariant end.StillWaiting? ==>
        Loop(policy, collector.View(), arrivals[i..], now) == Loop(policy, old(collector.View()), arrivals, now)
      invariant !end.StillWaiting? ==> (end, collector.View()) == Loop(policy, old(collector.View()), arrivals, now)
      decreases |arrivals| - i
    {
      assert arrivals[i..][0] == arrivals[i] && arrivals[i..][1..] == arrivals[i + 1..];
      match arrivals[i] {
        case Arrived(event) =>
          match event {
            case MessageEvent(m) =>
              CollectorFollowsReaction(policy, collector.View(), event, now);
              var ok := collector.Handle(m, now);
              if !ok {
                end := Aborted;
              }
            case CallEvent(call) =>
              if policy.Never? || (policy.Named? && policy.name != call.name) {
                end := Aborted;
              } else {
                turn.DeliverCall(call.id);
                collector.toolCalls := collector.toolCalls + [call];
                end := Called(call);
              }
            case DoneEvent(failed) =>
              end := if failed || policy.Required? || policy.Named? then Aborted else Completed;
          }
        case _ =>
          end := Aborted;
      }
      i := i + 1;
    }
  }

  /** The loop ends only by what the policy of its request allows. */
  lemma {:induction false} LoopKeepsPolicy(policy: Policy, c: State, arrivals: seq<Arrival>, now: int)
    requires c.toolCalls == []
    ensures var (end, c') := Loop(policy, c, arrivals, now);
      && (end.Called? ==> Allows(policy, end.call.name) && c'.toolCalls == [end.call])
      && (end.Completed? ==> !policy.Required? && !policy.Named? && c'.toolCalls == [])
    decreases |arrivals|
  {
    if arrivals != [] && arrivals[0].Arrived? {
      var e := arrivals[0].event;
      if React(policy, c.g, e, ModelRefused(c, e)).Continue? {
        LoopKeepsPolicy(policy, Handled(c, e.message, now), arrivals[1..], now);
      }
    }
  }

  // When the loop ends, and how, in terms of what arrived.

  /** An arrival the loop goes on after: a message that is neither a failure nor from a foreign model. */
  predicate Passing(effectiveIDs: seq<string>, a: Arrival) {
    && a.Arrived? && a.event.MessageEvent?
    && !a.event.message.Failure? && !Foreign(effectiveIDs, a.event.message)
  }

  /** The call may be offered under this tool_choice. */
  predicate Offerable(policy: Policy, call: ToolCall) {
    match policy
    case Auto => true
    case Required => true
    case Never => false
    case Named(name) => call.name == name
  }

  predicate NeedsNoCall(policy: Policy) {
    policy == Auto || policy == Never
  }

  lemma PassingIsHandled(policy: Policy, c: State, a: Arrival, now: int)
    requires Passing(c.effectiveIDs, a) && !c.waitingForInit
    ensures React(policy, c.g, a.event, ModelRefused(c, a.event)).Continue?
    ensures var c' := Handled(c, a.event.message, now);
      && c'.effectiveIDs == c.effectiveIDs && !c'.waitingForInit && c'.toolCalls == c.toolCalls
      && c'.g == Absorb(c.g, a.event.message)
  {
    HandledGathers(c, a.event.message, now);
  }

  /** The first arrival, if it does not pass, decides the loop. */
  lemma OtherEndsLoop(policy: Policy, c: State, arrivals: seq<Arrival>, now: int)
    requires arrivals != [] && !Passing(c.effectiveIDs, arrivals[0]) && !c.waitingForInit
    ensures var (end, c') := Loop(policy, c, arrivals, now); var a := arrivals[0];
      && !end.StillWaiting?
      && (end.Completed? <==> a == Arrived(DoneEvent(false)) && NeedsNoCall(policy))
      && (end.Called? <==> a.Arrived? && a.event.CallEvent? && Offerable(policy, a.event.call))
      && (end.Called? ==> end.call == a.event.call && c' == c.(toolCalls := c.toolCalls + [end.call]))
      && (end.Completed? ==> c' == c)
      && (!end.Aborted? ==> c'.g == c.g)
  {
    hide Handled;
  }

  /**
   The loop goes on exactly over passing arrivals, and the first other one decides: an agent that
   ended without error completes it if no call is required; an offerable call is offered; and
   everything else aborts it: a client that left, a cancelled turn, a failed message, a foreign
   model, a call tool_choice forbids, an agent that failed, or one that ended without the required
   call. What is answered is what the passing messages add up to.
   */
  lemma {:induction false} LoopEndsExactly(policy: Policy, c: State, arrivals: seq<Arrival>, now: int) returns (k: nat)
    requires !c.waitingForInit && c.toolCalls == []
    ensures FirstOther(c.effectiveIDs, arrivals, k)
    ensures var (end, c') := Loop(policy, c, arrivals, now);
      && (end.StillWaiting? <==> k == |arrivals|)
      && (end.Completed? <==> k < |arrivals| && arrivals[k] == Arrived(DoneEvent(false)) && NeedsNoCall(policy))
      && (end.Called? <==>
            && k < |arrivals| && arrivals[k].Arrived? && arrivals[k].event.CallEvent?
            && Offerable(policy, arrivals[k].event.call))
      && (end.Called? ==> end.call == arrivals[k].event.call && c'.toolCalls == [end.call])
      && (end.Completed? ==> c'.toolCalls == [])
      && (!end.Aborted? ==> c'.g == AbsorbAll(c.g, MessagesIn(arrivals, k)))
    decreases |arrivals|
  {
    hide Handled, React, AbsorbAll, MessagesIn;
    if arrivals == [] || !Passing(c.effectiveIDs, arrivals[0]) {
      k := 0;
      NothingPassed(c.g, arrivals);
      if arrivals != [] {
        OtherEndsLoop(policy, c, arrivals, now);
      }
    } else {
      var e := arrivals[0].event;
      PassingIsHandled(policy, c, arrivals[0], now);
      var later := LoopEndsExactly(policy, Handled(c, e.message, now), arrivals[1..], now);
      k := later + 1;
      OnePassed(c.g, arrivals, later);
    }
  }

  /** The first k arrivals pass and the next, if there is one, does not. */
  ghost predicate FirstOther(effectiveIDs: seq<string>, arrivals: seq<Arrival>, k: nat) {
    && k <= |arrivals|
    && (forall i | 0 <= i < k :: Passing(effectiveIDs, arrivals[i]))
    && (k < |arrivals| ==> !Passing(effectiveIDs, arrivals[k]))
  }

  /** The agent's messages among the first k arrivals. */
  function MessagesIn(arrivals: seq<Arrival>, k: nat): seq<AgentMessage>
    requires k <= |arrivals|
  {
    if k == 0 then []
    else
      var a := arrivals[k - 1];
      MessagesIn(arrivals, k - 1) + (if a.Arrived? && a.event.MessageEvent? then [a.event.message] else [])
  }

  lemma NothingPassed(g: Gather, arrivals: seq<Arrival>)
    ensures AbsorbAll(g, MessagesIn(arrivals, 0)) == g
  {
  }

  lemma OnePassed(g: Gather, arrivals: seq<Arrival>, k: nat)
    requires arrivals != [] && arrivals[0].Arrived? && arrivals[0].event.MessageEvent? && k < |arrivals|
    ensures AbsorbAll(g, MessagesIn(arrivals, k + 1)) ==
      AbsorbAll(Absorb(g, arrivals[0].event.message), MessagesIn(arrivals[1..], k))
  {
    FirstMessage(arrivals, k);
    AbsorbFirst(g, arrivals[0].event.message, MessagesIn(arrivals[1..], k));
  }

  lemma {:induction false} FirstMessage(arrivals: seq<Arrival>, k: nat)
    requires arrivals != [] && arrivals[0].Arrived? && arrivals[0].event.MessageEvent? && k < |arrivals|
    ensures MessagesIn(arrivals, k + 1) == [arrivals[0].event.message] + MessagesIn(arrivals[1..], k)
  {
    if k > 0 {
      FirstMessage(arrivals, k - 1);
      assert arrivals[1..][k - 1] == arrivals[k];
    }
  }
}
