/**
 One turn with everything that touches it without holding the session lock: the runner, the
 MCP calls and whoever cancels. Each action is one atomic step of one goroutine, so a run of
 actions is an interleaving.
 */
module TurnSystem {
  import opened Types
  import opened Collecting
  import opened ActiveTurns
  import Json

  datatype Phase = Emitting | Waiting | Returned(result: Option<string>)   // None is an error

  datatype Caller = Caller(call: ToolCall, phase: Phase)

  datatype Runner = Running | Offering(event: Event) | Leaving | Exited | NeverRan

  datatype Turn = Turn(
    st: TurnState,
    tools: seq<FunctionTool>,            // what the facade bound to it serves
    runner: Runner,
    callers: map<string, Caller>,
    // History of the run, for the statements only:
    emitted: seq<Event>,
    consumed: seq<Event>,                // by the HTTP handlers, in order
    answers: seq<Message>,               // assistant messages returned with a tool call
    batches: seq<seq<Message>>)          // accepted tool results

  datatype TurnAction =
    | CallArrives(call: ToolCall)
    | CallEmits(id: string)
    | CallEmitRefused(id: string)
    | CallReceives(id: string)
    | CallSeesCancel(id: string)
    | CallDisconnects(id: string)
    | AgentSpeaks(message: AgentMessage)
    | AgentReturns(failed: bool)
    | RunnerEmits
    | RunnerEmitRefused
    | RunnerCloses
    | Cancel

  function StartTurn(policy: Policy, tools: seq<FunctionTool>, runner: Runner): Turn {
    Turn(NewTurn(policy), tools, runner, map[], [], [], [], [])
  }

  /** What the facade and call check before registering; ids from randomID are fresh and nonempty. */
  predicate ValidCall(call: ToolCall, tools: seq<FunctionTool>) {
    && call.id != ""
    && call.arguments.Object? && Json.Canonical(call.arguments)
    && exists f | f in tools :: f.name == call.name
  }

  predicate InPhase(callers: map<string, Caller>, id: string, phase: Phase) {
    id in callers && callers[id].phase == phase
  }

  predicate Enabled(t: Turn, a: TurnAction) {
    match a
    case CallArrives(call) => call.id !in t.callers && ValidCall(call, t.tools) && Allows(t.st.policy, call.name)
    case CallEmits(id) => InPhase(t.callers, id, Emitting) && |t.st.events| < QUEUE_CAPACITY
    case CallEmitRefused(id) => InPhase(t.callers, id, Emitting) && t.st.cancelled
    case CallReceives(id) => InPhase(t.callers, id, Waiting) && id in t.st.results && t.st.results[id] != []
    case CallSeesCancel(id) => InPhase(t.callers, id, Waiting) && t.st.cancelled
    case CallDisconnects(id) => InPhase(t.callers, id, Waiting)
    case AgentSpeaks(_) => t.runner.Running?
    case AgentReturns(_) => t.runner.Running?
    case RunnerEmits => t.runner.Offering? && |t.st.events| < QUEUE_CAPACITY
    case RunnerEmitRefused => t.runner.Offering? && t.st.cancelled
    case RunnerCloses => t.runner.Leaving?
    case Cancel => true
  }

  function MovePhase(callers: map<string, Caller>, id: string, phase: Phase): map<string, Caller>
    requires id in callers
  {
    callers[id := callers[id].(phase := phase)]
  }

  function Emit(t: Turn, e: Event): Turn {
    t.(st := Enqueue(t.st, e), emitted := t.emitted + [e])
  }

  function CancelTurn(t: Turn): Turn {
    t.(st := t.st.(cancelled := true))
  }

  function AfterOffer(e: Event): Runner {
    if e.DoneEvent? then Leaving else Running
  }

  function Apply(t: Turn, a: TurnAction): Turn
    requires Enabled(t, a)
  {
    match a
    case CallArrives(call) => t.(st := Register(t.st, call), callers := t.callers[call.id := Caller(call, Emitting)])
    case CallEmits(id) => Emit(t, CallEvent(t.callers[id].call)).(callers := MovePhase(t.callers, id, Waiting))
    case CallEmitRefused(id) => t.(callers := MovePhase(t.callers, id, Returned(None)))
    case CallReceives(id) =>
      var channel := t.st.results[id];
      t.(st := t.st.(results := t.st.results[id := channel[1..]]),
         callers := MovePhase(t.callers, id, Returned(Some(channel[0]))))
    case CallSeesCancel(id) => t.(callers := MovePhase(t.callers, id, Returned(None)))
    case CallDisconnects(id) => CancelTurn(t.(callers := MovePhase(t.callers, id, Returned(None))))
    case AgentSpeaks(m) => t.(runner := Offering(MessageEvent(m)))
    case AgentReturns(failed) => t.(runner := Offering(DoneEvent(failed)))
    case RunnerEmits => Emit(t, t.runner.event).(runner := AfterOffer(t.runner.event))
    case RunnerEmitRefused => t.(runner := AfterOffer(t.runner.event))
    case RunnerCloses => t.(st := t.st.(closes := t.st.closes + 1), runner := Exited)
    case Cancel => CancelTurn(t)
  }

  // The handler's own steps on a turn.

  function Consume(t: Turn): Turn
    requires t.st.events != []
  {
    t.(st := t.st.(events := t.st.events[1..]), consumed := t.consumed + [t.st.events[0]])
  }

  function DeliverTo(t: Turn, id: string): Turn {
    t.(st := Deliver(t.st, id))
  }

  function Answer(t: Turn, answer: Message, g: Gather): Turn {
    t.(answers := t.answers + [answer], st := t.st.(sawDelta := g.sawDelta, sawThinking := g.sawThinking))
  }

  ghost function Accept(t: Turn, batch: seq<Message>, policy: Policy): Turn {
    t.(st := Resolved(t.st, batch, policy), batches := t.batches + [batch])
  }

  // The inductive invariant of a turn, one predicate for each pair of structures that must agree.

  function CallOf(answer: Message): ToolCall
    requires answer.toolCalls != []
  {
    answer.toolCalls[0]
  }

  /** What the accepted batches answered: each id with its content. */
  function Contents(batches: seq<seq<Message>>): map<string, string> {
    if batches == [] then map[]
    else
      var batch := batches[|batches| - 1];
      var before := Contents(batches[..|batches| - 1]);
      if batch == [] then before else before[batch[0].toolCallID := batch[0].content]
  }

  ghost predicate Served(callers: map<string, Caller>, tools: seq<FunctionTool>) {
    forall id | id in callers :: callers[id].call.id == id && ValidCall(callers[id].call, tools)
  }

  /** A call is pending until a batch answers it, and never after. */
  ghost predicate PendingSound(callers: map<string, Caller>, pending: map<string, Pending>,
                               contents: map<string, string>) {
    && pending.Keys + contents.Keys == callers.Keys
    && pending.Keys !! contents.Keys
    && forall id | id in pending :: pending[id].call == callers[id].call
  }

  /**
   The channel of a call: empty before its answer; afterwards the content is either still in
   it or already returned, never both and never lost to a successful return.
   */
  predicate Settled(phase: Phase, channel: seq<string>, answered: bool, content: string) {
    if answered && phase == Returned(Some(content)) then channel == []
    else if answered then channel == [content] && (phase.Returned? ==> phase.result.None?) && !phase.Emitting?
    else channel == [] && (phase.Returned? ==> phase.result.None?)
  }

  function ContentOrNothing(contents: map<string, string>, id: string): string {
    if id in contents then contents[id] else ""
  }

  ghost predicate ResultsSound(callers: map<string, Caller>, results: map<string, seq<string>>,
                               contents: map<string, string>) {
    && results.Keys == callers.Keys
    && forall id | id in callers ::
         Settled(callers[id].phase, results[id], id in contents, ContentOrNothing(contents, id))
  }

  predicate HasEmitted(call: ToolCall, callers: map<string, Caller>) {
    call.id in callers && callers[call.id].call == call && !callers[call.id].phase.Emitting?
  }

  ghost predicate CallsOnce(emitted: seq<Event>) {
    forall a, b | 0 <= a < b < |emitted| && emitted[a].CallEvent? && emitted[b].CallEvent? ::
      emitted[a].call.id != emitted[b].call.id
  }

  /** The emitted call events are those of the calls that got past emit, each once. */
  ghost predicate EmittedSound(emitted: seq<Event>, callers: map<string, Caller>) {
    && CallsOnce(emitted)
    && (forall e | e in emitted && e.CallEvent? :: HasEmitted(e.call, callers))
    && (forall id | id in callers && callers[id].phase.Waiting? :: CallEvent(callers[id].call) in emitted)
  }

  ghost predicate RunnerSound(t: Turn) {
    && t.st.closes == (if t.runner.Exited? || t.runner.NeverRan? then 1 else 0)
    && (t.runner.Offering? ==> !t.runner.event.CallEvent?)
  }

  /** Each answer offered one call, taken from the queue; each batch answered exactly the answer before it. */
  ghost predicate ExchangesSound(answers: seq<Message>, batches: seq<seq<Message>>, consumed: seq<Event>) {
    && |batches| <= |answers| <= |batches| + 1
    && (forall k | 0 <= k < |answers| :: |answers[k].toolCalls| == 1 && CallEvent(CallOf(answers[k])) in consumed)
    && (forall k, l | 0 <= k < l < |answers| :: CallOf(answers[k]).id != CallOf(answers[l]).id)
    && (forall k | 0 <= k < |batches| ::
          && |batches[k]| == 1
          && batches[k][0].role.Tool?
          && batches[k][0].toolCallID == CallOf(answers[k]).id)
  }

  ghost predicate Inv(t: Turn) {
    && Served(t.callers, t.tools)
    && PendingSound(t.callers, t.st.pending, Contents(t.batches))
    && ResultsSound(t.callers, t.st.results, Contents(t.batches))
    && |t.st.events| <= QUEUE_CAPACITY
    && t.emitted == t.consumed + t.st.events
    && EmittedSound(t.emitted, t.callers)
    && RunnerSound(t)
    && ExchangesSound(t.answers, t.batches, t.consumed)
  }

  /** A call not yet handed to a handler is still in emit or in the queue. */
  predicate Queued(id: string, callers: map<string, Caller>, events: seq<Event>) {
    id in callers && (callers[id].phase.Emitting? || CallEvent(callers[id].call) in events)
  }

  /** The delivered calls are exactly ds; while the turn lives every other pending call is queued. */
  ghost predicate Outstanding(t: Turn, ds: set<string>) {
    && DeliveredIds(t.st.pending) == ds
    && (!t.st.cancelled ==> forall id | id in t.st.pending && id !in ds :: Queued(id, t.callers, t.st.events))
  }

  // Preservation, part by part.

  lemma MovingKeepsNames(callers: map<string, Caller>, id: string, phase: Phase,
                         tools: seq<FunctionTool>, pending: map<string, Pending>, contents: map<string, string>)
    requires id in callers && Served(callers, tools) && PendingSound(callers, pending, contents)
    ensures Served(MovePhase(callers, id, phase), tools)
    ensures PendingSound(MovePhase(callers, id, phase), pending, contents)
  {
  }

  lemma ReturningKeepsEmitted(callers: map<string, Caller>, id: string, result: Option<string>, emitted: seq<Event>)
    requires id in callers && EmittedSound(emitted, callers)
    ensures EmittedSound(emitted, MovePhase(callers, id, Returned(result)))
  {
    var moved := MovePhase(callers, id, Returned(result));
    forall e | e in emitted && e.CallEvent?
      ensures HasEmitted(e.call, moved)
    {
      assert HasEmitted(e.call, callers);
    }
  }

  lemma EmittingKeepsEmitted(callers: map<string, Caller>, id: string, emitted: seq<Event>)
    requires InPhase(callers, id, Emitting) && callers[id].call.id == id && EmittedSound(emitted, callers)
    ensures EmittedSound(emitted + [CallEvent(callers[id].call)], MovePhase(callers, id, Waiting))
  {
    var call := callers[id].call;
    var moved, more := MovePhase(callers, id, Waiting), emitted + [CallEvent(call)];
    forall e | e in more && e.CallEvent?
      ensures HasEmitted(e.call, moved)
    {
      if e in emitted {
        assert HasEmitted(e.call, callers);
      }
    }
    forall a | 0 <= a < |emitted| && emitted[a].CallEvent?
      ensures emitted[a].call.id != id
    {
      assert emitted[a] in emitted && HasEmitted(emitted[a].call, callers);
    }
    assert more[|emitted|] == CallEvent(call);
    assert forall a | 0 <= a < |emitted| :: more[a] == emitted[a];
  }

  lemma ArrivingKeepsEmitted(callers: map<string, Caller>, call: ToolCall, emitted: seq<Event>)
    requires call.id !in callers && EmittedSound(emitted, callers)
    ensures EmittedSound(emitted, callers[call.id := Caller(call, Emitting)])
  {
    forall e | e in emitted && e.CallEvent?
      ensures HasEmitted(e.call, callers[call.id := Caller(call, Emitting)])
    {
      assert HasEmitted(e.call, callers);
    }
  }

  lemma MovingKeepsResults(callers: map<string, Caller>, id: string, phase: Phase,
                           results: map<string, seq<string>>, channel: seq<string>, contents: map<string, string>)
    requires id in callers && ResultsSound(callers, results, contents)
    requires Settled(phase, channel, id in contents, ContentOrNothing(contents, id))
    ensures ResultsSound(MovePhase(callers, id, phase), results[id := channel], contents)
  {
    hide Settled;
  }

  lemma ArrivalKeepsInv(t: Turn, call: ToolCall)
    requires Inv(t) && Enabled(t, CallArrives(call))
    ensures Inv(Apply(t, CallArrives(call)))
  {
    hide Served, PendingSound, ResultsSound, EmittedSound, ExchangesSound, Contents;
    ArrivingKeepsEmitted(t.callers, call, t.emitted);
    ArrivingKeepsNames(t, call);
    ArrivingKeepsResults(t, call);
  }

  lemma ArrivingKeepsNames(t: Turn, call: ToolCall)
    requires Served(t.callers, t.tools) && PendingSound(t.callers, t.st.pending, Contents(t.batches))
    requires Enabled(t, CallArrives(call))
    ensures var t' := Apply(t, CallArrives(call));
      Served(t'.callers, t'.tools) && PendingSound(t'.callers, t'.st.pending, Contents(t.batches))
  {
    hide ValidCall, Contents;
  }

  lemma ArrivingKeepsResults(t: Turn, call: ToolCall)
    requires PendingSound(t.callers, t.st.pending, Contents(t.batches))
    requires ResultsSound(t.callers, t.st.results, Contents(t.batches))
    requires Enabled(t, CallArrives(call))
    ensures var t' := Apply(t, CallArrives(call)); ResultsSound(t'.callers, t'.st.results, Contents(t.batches))
  {
    hide ValidCall, Contents;
    assert call.id !in Contents(t.batches);
  }

  lemma CallerSettled(t: Turn, id: string)
    requires Inv(t) && id in t.callers
    ensures t.callers[id].call.id == id && id in t.st.results
    ensures Settled(t.callers[id].phase, t.st.results[id], id in Contents(t.batches),
                    ContentOrNothing(Contents(t.batches), id))
  {
  }

  lemma CallEmitKeepsInv(t: Turn, id: string)
    requires Inv(t) && Enabled(t, CallEmits(id))
    ensures Inv(Apply(t, CallEmits(id)))
  {
    hide Served, PendingSound, ResultsSound, EmittedSound, ExchangesSound, Contents;
    CallerSettled(t, id);
    EmittingKeepsEmitted(t.callers, id, t.emitted);
    MovingKeepsNames(t.callers, id, Waiting, t.tools, t.st.pending, Contents(t.batches));
    MovingKeepsResults(t.callers, id, Waiting, t.st.results, t.st.results[id], Contents(t.batches));
    assert t.st.results[id := t.st.results[id]] == t.st.results;
    assert t.emitted + [CallEvent(t.callers[id].call)] == t.consumed + (t.st.events + [CallEvent(t.callers[id].call)]);
  }

  lemma RunnerKeepsInv(t: Turn, a: TurnAction)
    requires Inv(t) && Enabled(t, a)
    requires a.RunnerEmits? || a.AgentSpeaks? || a.AgentReturns? || a.RunnerEmitRefused? || a.RunnerCloses? || a.Cancel?
    ensures Inv(Apply(t, a))
  {
    hide Served, PendingSound, ResultsSound, EmittedSound, ExchangesSound, Contents;
    if a.RunnerEmits? {
      OthersKeepEmitted(t.callers, t.runner.event, t.emitted);
      assert t.emitted + [t.runner.event] == t.consumed + (t.st.events + [t.runner.event]);
    }
  }

  lemma OthersKeepEmitted(callers: map<string, Caller>, e: Event, emitted: seq<Event>)
    requires !e.CallEvent? && EmittedSound(emitted, callers)
    ensures EmittedSound(emitted + [e], callers)
  {
    hide HasEmitted;
  }

  lemma ReturnKeepsInv(t: Turn, a: TurnAction, id: string, result: Option<string>)
    requires Inv(t) && Enabled(t, a)
    requires if a == CallReceives(id) then result == Some(t.st.results[id][0])
             else result == None && (a == CallEmitRefused(id) || a == CallSeesCancel(id) || a == CallDisconnects(id))
    ensures Inv(Apply(t, a))
  {
    hide Served, PendingSound, ResultsSound, EmittedSound, ExchangesSound, Contents;
    CallerSettled(t, id);
    var channel := if a == CallReceives(id) then t.st.results[id][1..] else t.st.results[id];
    ReturningKeepsEmitted(t.callers, id, result, t.emitted);
    MovingKeepsNames(t.callers, id, Returned(result), t.tools, t.st.pending, Contents(t.batches));
    MovingKeepsResults(t.callers, id, Returned(result), t.st.results, channel, Contents(t.batches));
    assert a != CallReceives(id) ==> t.st.results[id := t.st.results[id]] == t.st.results;
  }

  lemma ActionKeepsInv(t: Turn, a: TurnAction)
    requires Inv(t) && Enabled(t, a)
    ensures Inv(Apply(t, a))
  {
    hide Inv, Apply;
    match a
    case CallArrives(call) => ArrivalKeepsInv(t, call);
    case CallEmits(id) => CallEmitKeepsInv(t, id);
    case CallReceives(id) => ReturnKeepsInv(t, a, id, Some(t.st.results[id][0]));
    case CallEmitRefused(id) => ReturnKeepsInv(t, a, id, None);
    case CallSeesCancel(id) => ReturnKeepsInv(t, a, id, None);
    case CallDisconnects(id) => ReturnKeepsInv(t, a, id, None);
    case _ => RunnerKeepsInv(t, a);
  }

  lemma QueuedStays(t: Turn, a: TurnAction, id: string)
    requires Enabled(t, a) && Queued(id, t.callers, t.st.events) && t.callers[id].call.id == id
    requires !Apply(t, a).st.cancelled
    ensures Queued(id, Apply(t, a).callers, Apply(t, a).st.events)
  {
  }

  lemma ActionKeepsOutstanding(t: Turn, a: TurnAction, ds: set<string>)
    requires Inv(t) && Enabled(t, a) && Outstanding(t, ds)
    ensures Outstanding(Apply(t, a), ds)
  {
    hide ResultsSound, EmittedSound, ExchangesSound, Contents, ValidCall;
    var t' := Apply(t, a);
    assert DeliveredIds(t'.st.pending) == DeliveredIds(t.st.pending);
    if !t'.st.cancelled {
      forall id | id in t'.st.pending && id !in ds
        ensures Queued(id, t'.callers, t'.st.events)
      {
        if id in t.st.pending {
          QueuedStays(t, a, id);
        }
      }
    }
  }

  // The handler's steps.

  /** The call was taken from the queue and no earlier answer offered it. */
  ghost predicate Fresh(t: Turn, call: ToolCall) {
    && CallEvent(call) in t.consumed
    && forall k | 0 <= k < |t.answers| && t.answers[k].toolCalls != [] :: CallOf(t.answers[k]).id != call.id
  }

  predicate Offers(answers: seq<Message>, k: int, id: string) {
    0 <= k < |answers| && answers[k].toolCalls != [] && CallOf(answers[k]).id == id
  }

  lemma {:induction false} ContentsWereOffered(answers: seq<Message>, batches: seq<seq<Message>>,
                                               consumed: seq<Event>, id: string)
    returns (k: nat)
    requires ExchangesSound(answers, batches, consumed) && id in Contents(batches)
    ensures k < |batches| && Offers(answers, k, id)
  {
    var n := |batches| - 1;
    if id in Contents(batches[..n]) {
      assert ExchangesSound(answers[..n], batches[..n], consumed);
      k := ContentsWereOffered(answers[..n], batches[..n], consumed, id);
      assert answers[..n][k] == answers[k];
    } else {
      k := n;
    }
  }

  lemma {:induction false} BatchesAreContents(answers: seq<Message>, batches: seq<seq<Message>>,
                                              consumed: seq<Event>, k: nat)
    requires ExchangesSound(answers, batches, consumed) && k < |batches|
    ensures var m := batches[k][0]; m.toolCallID in Contents(batches) && Contents(batches)[m.toolCallID] == m.content
  {
    var n := |batches| - 1;
    if k < n {
      assert ExchangesSound(answers[..n], batches[..n], consumed);
      BatchesAreContents(answers[..n], batches[..n], consumed, k);
      assert batches[..n][k] == batches[k];
      assert CallOf(answers[k]).id != CallOf(answers[n]).id;
    }
  }

  lemma ConsumingKeepsInv(t: Turn)
    requires Inv(t) && t.st.events != []
    ensures Inv(Consume(t))
  {
    hide Served, PendingSound, ResultsSound, EmittedSound, Contents;
    assert t.consumed + t.st.events == (t.consumed + [t.st.events[0]]) + t.st.events[1..];
  }

  lemma ConsumingOthers(t: Turn, ds: set<string>)
    requires Outstanding(t, ds) && t.st.events != [] && !t.st.events[0].CallEvent?
    ensures Outstanding(Consume(t), ds)
  {
    var t' := Consume(t);
    assert t.st.events == [t.st.events[0]] + t'.st.events;
    forall id | id in t.st.pending && id !in ds && !t.st.cancelled
      ensures Queued(id, t'.callers, t'.st.events)
    {
      assert Queued(id, t.callers, t.st.events);
    }
  }

  /** The queue's first call is a pending one that no answer has offered yet. */
  lemma HeadIsFresh(t: Turn)
    requires Inv(t) && t.st.events != [] && t.st.events[0].CallEvent?
    ensures var call := t.st.events[0].call;
      && Fresh(Consume(t), call)
      && call.id in t.st.pending && t.st.pending[call.id].call == call
      && call.id in t.callers && t.callers[call.id].call == call
  {
    var call := t.st.events[0].call;
    hide Served, ResultsSound, EmittedSound, ExchangesSound, Contents;
    HeadWasNotConsumed(t);
    forall k | 0 <= k < |t.answers| && t.answers[k].toolCalls != []
      ensures CallOf(t.answers[k]).id != call.id
    {
      AnswersWereConsumed(t, k);
    }
    if call.id in Contents(t.batches) {
      var k := ContentsWereOffered(t.answers, t.batches, t.consumed, call.id);
    }
  }

  lemma HeadWasNotConsumed(t: Turn)
    requires t.st.events != [] && t.st.events[0].CallEvent?
    requires t.emitted == t.consumed + t.st.events && EmittedSound(t.emitted, t.callers)
    ensures HasEmitted(t.st.events[0].call, t.callers)
    ensures forall e | e in t.consumed && e.CallEvent? :: e.call.id != t.st.events[0].call.id
  {
    assert t.emitted[|t.consumed|] == t.st.events[0];
    forall e | e in t.consumed && e.CallEvent?
      ensures e.call.id != t.st.events[0].call.id
    {
      var j :| 0 <= j < |t.consumed| && t.consumed[j] == e;
      assert t.emitted[j] == e;
    }
  }

  lemma AnswersWereConsumed(t: Turn, k: nat)
    requires ExchangesSound(t.answers, t.batches, t.consumed) && k < |t.answers|
    ensures |t.answers[k].toolCalls| == 1 && CallEvent(CallOf(t.answers[k])) in t.consumed
  {
  }

  lemma DeliveringKeepsInv(t: Turn, id: string)
    requires Inv(t)
    ensures Inv(DeliverTo(t, id))
  {
    hide Served, ResultsSound, EmittedSound, ExchangesSound, Contents;
  }

  lemma DeliveringHead(t: Turn)
    requires Inv(t) && t.st.events != [] && t.st.events[0].CallEvent? && Outstanding(t, {})
    ensures var call := t.st.events[0].call; var t' := DeliverTo(Consume(t), call.id);
      Inv(t') && Fresh(t', call) && Outstanding(t', {call.id})
  {
    hide Inv, Outstanding, Fresh;
    var call := t.st.events[0].call;
    HeadIsFresh(t);
    ConsumingKeepsInv(t);
    DeliveringKeepsInv(Consume(t), call.id);
    FreshSurvivesDelivery(Consume(t), call);
    CallsByName(t);
    DeliveringHeadIsOutstanding(t);
  }

  lemma FreshSurvivesDelivery(t: Turn, call: ToolCall)
    requires Fresh(t, call)
    ensures Fresh(DeliverTo(t, call.id), call)
  {
  }

  lemma DeliveringHeadIsOutstanding(t: Turn)
    requires t.st.events != [] && t.st.events[0].CallEvent? && Outstanding(t, {})
    requires t.st.events[0].call.id in t.st.pending
    requires forall id | id in t.callers :: t.callers[id].call.id == id
    ensures Outstanding(DeliverTo(Consume(t), t.st.events[0].call.id), {t.st.events[0].call.id})
  {
    var call := t.st.events[0].call;
    var t' := DeliverTo(Consume(t), call.id);
    assert DeliveredIds(t'.st.pending) == {call.id} by {
      assert forall id | id in t.st.pending :: id !in DeliveredIds(t.st.pending);
    }
    assert t.st.events == [CallEvent(call)] + t'.st.events;
    forall id | id in t'.st.pending && id != call.id && !t'.st.cancelled
      ensures Queued(id, t'.callers, t'.st.events)
    {
      assert Queued(id, t.callers, t.st.events);
    }
  }

  lemma CallsByName(t: Turn)
    requires Inv(t)
    ensures forall id | id in t.callers :: t.callers[id].call.id == id
  {
  }

  lemma AnsweringKeepsInv(t: Turn, answer: Message, g: Gather, call: ToolCall)
    requires Inv(t) && |t.answers| == |t.batches| && answer.toolCalls == [call] && Fresh(t, call)
    ensures Inv(Answer(t, answer, g))
  {
    hide Served, PendingSound, ResultsSound, EmittedSound, Contents;
  }

  lemma AnsweringKeepsOutstanding(t: Turn, answer: Message, g: Gather, ds: set<string>)
    requires Outstanding(t, ds)
    ensures Outstanding(Answer(t, answer, g), ds)
  {
  }

  /** With one call delivered, an acceptable batch is the one tool message for it. */
  lemma BatchOfOne(s: TurnState, batch: seq<Message>, id: string)
    requires Acceptable(s, batch) && DeliveredIds(s.pending) == {id}
    ensures |batch| == 1 && batch[0].toolCallID == id && batch[0].role.Tool?
  {
    forall a | 0 <= a < |batch|
      ensures batch[a].toolCallID == id && batch[a].role.Tool?
    {
      assert batch[a] in batch && batch[a].toolCallID in IdsOf(batch);
    }
    FirstTwoDiffer(batch);
  }

  lemma FirstTwoDiffer(batch: seq<Message>)
    requires DistinctIds(batch)
    ensures |batch| > 1 ==> batch[0].toolCallID != batch[1].toolCallID
  {
  }

  lemma AcceptingKeepsInv(t: Turn, batch: seq<Message>, policy: Policy, id: string)
    requires Inv(t) && |t.answers| == |t.batches| + 1 && CallOf(Last(t.answers)).id == id
    requires Acceptable(t.st, batch) && Outstanding(t, {id})
    ensures Inv(Accept(t, batch, policy)) && Outstanding(Accept(t, batch, policy), {})
  {
    hide Served, PendingSound, ResultsSound, EmittedSound, ExchangesSound, Contents, Resolved;
    BatchOfOne(t.st, batch, id);
    var t', content := Accept(t, batch, policy), batch[0].content;
    ResolvedOne(t, batch, policy, id);
    ContentsGrow(t.batches, batch);
    AcceptedCallWasEmitted(t);
    AcceptingKeepsNames(t, t', id, content);
    AcceptingKeepsResults(t, t', id, content);
    AcceptingKeepsExchanges(t, batch);
  }

  lemma ContentsGrow(batches: seq<seq<Message>>, batch: seq<Message>)
    requires batch != []
    ensures Contents(batches + [batch]) == Contents(batches)[batch[0].toolCallID := batch[0].content]
  {
    assert (batches + [batch])[..|batches|] == batches;
  }

  lemma AcceptingKeepsExchanges(t: Turn, batch: seq<Message>)
    requires ExchangesSound(t.answers, t.batches, t.consumed) && |t.answers| == |t.batches| + 1
    requires |batch| == 1 && batch[0].role.Tool? && batch[0].toolCallID == CallOf(Last(t.answers)).id
    ensures ExchangesSound(t.answers, t.batches + [batch], t.consumed)
  {
  }

  lemma ResolvedOne(t: Turn, batch: seq<Message>, policy: Policy, id: string)
    requires |batch| == 1 && batch[0].toolCallID == id && Outstanding(t, {id})
    ensures var st := Accept(t, batch, policy).st;
      && id in t.st.pending
      && st.pending == (map x | x in t.st.pending && x !in {id} :: t.st.pending[x])
      && st.results == (map x | x in t.st.results ::
        if x in {id} then t.st.results[x] + [batch[0].content] else t.st.results[x])
      && st.cancelled == t.st.cancelled && st.events == t.st.events && st.closes == t.st.closes && st.policy == policy
    ensures Outstanding(Accept(t, batch, policy), {})
  {
    assert IdsOf(batch) == {id};
    assert id in DeliveredIds(t.st.pending);
    assert ContentFor(batch, id) == batch[0].content;
    assert DeliveredIds(Accept(t, batch, policy).st.pending) == {};
  }

  lemma AcceptedCallWasEmitted(t: Turn)
    requires Inv(t) && t.answers != []
    ensures HasEmitted(CallOf(Last(t.answers)), t.callers)
  {
    assert CallEvent(CallOf(Last(t.answers))) in t.emitted;
  }

  lemma AcceptingKeepsNames(t: Turn, t': Turn, id: string, content: string)
    requires PendingSound(t.callers, t.st.pending, Contents(t.batches)) && id in t.st.pending
    requires t'.callers == t.callers && Contents(t'.batches) == Contents(t.batches)[id := content]
    requires t'.st.pending == map x | x in t.st.pending && x !in {id} :: t.st.pending[x]
    ensures PendingSound(t'.callers, t'.st.pending, Contents(t'.batches))
  {
  }

  lemma AcceptingKeepsResults(t: Turn, t': Turn, id: string, content: string)
    requires PendingSound(t.callers, t.st.pending, Contents(t.batches)) && id in t.st.pending
    requires ResultsSound(t.callers, t.st.results, Contents(t.batches))
    requires t'.callers == t.callers && Contents(t'.batches) == Contents(t.batches)[id := content]
    requires !t.callers[id].phase.Emitting?
    requires t'.st.results == map x | x in t.st.results ::
      if x in {id} then t.st.results[x] + [content] else t.st.results[x]
    ensures ResultsSound(t'.callers, t'.st.results, Contents(t'.batches))
  {
    hide Contents;
    assert Settled(t.callers[id].phase, t.st.results[id], false, "");
  }
}
