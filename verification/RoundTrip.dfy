/**
 A tool call's whole way, from any first request that offers tools: the call is offered, the
 session rests on a suspended turn, the result is accepted, and the call returns it.
 */
module RoundTrip {
  import opened Types
  import opened Spaces
  import opened History
  import opened Sessions
  import opened Gateway
  import Turns = TurnSystem
  import ActiveTurns
  import Runs

  ghost predicate Reachable(w: World) {
    exists worlds, actions :: Runs.Run(worlds, actions) && Last(worlds) == w
  }

  lemma Start(w: World)
    requires Initial(w)
    ensures Reachable(w)
  {
    assert Runs.Run([w], []) && Last([w]) == w;
  }

  lemma Step(w: World, a: Action)
    requires Reachable(w) && Gateway.Enabled(w, a)
    ensures Reachable(Gateway.Apply(w, a))
  {
    hide Gateway.Enabled, Gateway.Apply, Initial;
    var worlds, actions :| Runs.Run(worlds, actions) && Last(worlds) == w;
    var worlds', actions' := worlds + [Gateway.Apply(w, a)], actions + [a];
    forall k | 0 <= k < |actions'|
      ensures Gateway.Enabled(worlds'[k], actions'[k]) && worlds'[k + 1] == Gateway.Apply(worlds'[k], actions'[k])
    {
      if k < |actions| {
        assert worlds[k + 1] == Gateway.Apply(worlds[k], actions[k]);
      }
    }
    assert Runs.Run(worlds', actions') && Last(worlds') == Gateway.Apply(w, a);
  }

  ghost predicate FirstRequest(r: Request, call: ToolCall) {
    && Admitted(r) && r.tools != [] && !Last(r.messages).role.Tool? && Promptable(r.messages)
    && Turns.ValidCall(call, r.tools) && Allows(r.policy, call.name)
  }

  /** Any request that makes a session without a turn start over reaches its event loop. */
  lemma Relaunching(w: World, r: Request) returns (w': World)
    requires Reachable(w) && w.holder.Free? && w.session.active.None?
    requires Admitted(r) && TakesToolPath(w.session, r) && DecideTool(w.session, r) == Launch(true, r.messages)
    ensures Reachable(w') && w'.holder == Consuming(r, r.messages, NOTHING)
    ensures w'.turns == w.turns + [Turns.StartTurn(r.policy, r.tools, Turns.Running)]
    ensures w'.session == Launched(Cleared(w.session), r, |w.turns|) && w'.heard == []
  {
    hide Reachable, DecideTool, Admitted;
    Step(w, ToolRequest(r));
    var w1 := w.(holder := Clearing(LaunchNext(r, r.messages)));
    Step(w1, FinishClear);
    var w2 := w1.(session := Cleared(w.session), record := None, holder := Holder.Launching(r, r.messages));
    Step(w2, Install);
    w' := Gateway.Apply(w2, Install);
  }

  /** The event loop of a session's first request. */
  lemma FirstLoop(r: Request, call: ToolCall) returns (w: World)
    requires FirstRequest(r, call)
    ensures Reachable(w) && w.holder == Consuming(r, r.messages, NOTHING)
    ensures w.turns == [Turns.StartTurn(r.policy, r.tools, Turns.Running)]
    ensures w.session == Launched(FRESH, r, 0) && w.heard == []
  {
    hide Promptable, Turns.ValidCall, Reachable;
    var w0 := World(FRESH, None, [], Free, [], [], true);
    Start(w0);
    assert DecideTool(FRESH, r) == Launch(true, r.messages);
    w := Relaunching(w0, r);
  }

  /** What the session rests on once the call was offered. */
  ghost predicate Resting(w: World, r: Request, call: ToolCall) {
    && w.holder.Free? && |w.turns| == 1
    && w.session == Committed(Launched(FRESH, r, 0), r.messages, AssistantMessage("", [call]), "")
    && w.heard == r.messages + [AssistantMessage("", [call])]
    && !w.turns[0].st.cancelled && w.turns[0].runner.Running? && w.turns[0].st.events == []
    && w.turns[0].st.pending == map[call.id := ActiveTurns.Pending(call, true)]
    && w.turns[0].callers == map[call.id := Turns.Caller(call, Turns.Waiting)]
    && w.turns[0].st.results == map[call.id := []]
  }

  /** The call arrives, is queued, offered and committed. */
  lemma Suspending(r: Request, call: ToolCall) returns (w: World)
    requires FirstRequest(r, call)
    ensures Reachable(w) && Resting(w, r, call)
  {
    hide Turns.ValidCall, Promptable, Admitted, Initial, Reachable;
    var w1 := FirstLoop(r, call);
    var t1 := w1.turns[0];
    var arrives := TurnStep(0, Turns.CallArrives(call));
    Step(w1, arrives);
    var t2 := Turns.Apply(t1, Turns.CallArrives(call));
    var w2 := w1.(turns := [t2]);
    assert Gateway.Apply(w1, arrives) == w2;
    var emits := TurnStep(0, Turns.CallEmits(call.id));
    Step(w2, emits);
    var t3 := Turns.Apply(t2, Turns.CallEmits(call.id));
    var w3 := w2.(turns := [t3]);
    assert Gateway.Apply(w2, emits) == w3;
    assert t3.st.events == [ActiveTurns.CallEvent(call)];
    w := Offering(r, call, w3);
  }

  lemma Offering(r: Request, call: ToolCall, w3: World) returns (w: World)
    requires Reachable(w3) && w3.holder == Consuming(r, r.messages, NOTHING) && Allows(r.policy, call.name)
    requires |w3.turns| == 1 && w3.session == Launched(FRESH, r, 0) && w3.heard == []
    requires var t := w3.turns[0];
      && !t.st.cancelled && t.runner.Running? && t.st.events == [ActiveTurns.CallEvent(call)]
      && t.st.pending == map[call.id := ActiveTurns.Pending(call, false)]
      && t.callers == map[call.id := Turns.Caller(call, Turns.Waiting)]
      && t.st.results == map[call.id := []]
    ensures Reachable(w) && Resting(w, r, call)
  {
    hide Reachable, Admitted, Turns.ValidCall, TakesToolPath, PlainServed, AcceptRequest, Installed;
    hide Gateway.StartFailed, FinishedClear, Turns.Apply, Turns.Enabled;
    Step(w3, ConsumeNext(false));
    var w4 := Gateway.Apply(w3, ConsumeNext(false));
    Step(w4, CheckCause);
    w := Offered(r, call, Gateway.Apply(w4, CheckCause));
  }

  lemma Offered(r: Request, call: ToolCall, w5: World) returns (w: World)
    requires Reachable(w5) && w5.holder == Committing(r, r.messages, NOTHING, call)
    requires |w5.turns| == 1 && w5.session == Launched(FRESH, r, 0) && w5.heard == []
    requires var t := w5.turns[0];
      && !t.st.cancelled && t.runner.Running? && t.st.events == []
      && t.st.pending == map[call.id := ActiveTurns.Pending(call, true)]
      && t.callers == map[call.id := Turns.Caller(call, Turns.Waiting)]
      && t.st.results == map[call.id := []]
    ensures Reachable(w) && Resting(w, r, call)
  {
    hide Reachable;
    Step(w5, Commit(""));
    w := Gateway.Apply(w5, Commit(""));
    assert [] + r.messages == r.messages;
  }

  /** The request that brings the result, under whatever tool_choice it chooses. */
  function ResultRequest(r: Request, call: ToolCall, content: string, policy: Policy): Request {
    r.(messages := r.messages + [AssistantMessage("", [call]), Message(Tool, content, [], call.id)], policy := policy)
  }

  /** The result is accepted and the waiting call returns it; the handler goes on consuming. */
  lemma Resuming(w: World, r: Request, call: ToolCall, content: string, policy: Policy) returns (w': World)
    requires Reachable(w) && Resting(w, r, call) && Admitted(ResultRequest(r, call, content, policy))
    ensures Reachable(w') && w'.session == w.session && w'.heard == w.heard && |w'.turns| == 1
    ensures w'.holder.Consuming? && w'.holder.request == ResultRequest(r, call, content, policy) &&
      w'.holder.g.text == ""
    ensures w'.holder.slice == [Message(Tool, content, [], call.id)]
    ensures var t := w'.turns[0];
      && !t.st.cancelled && t.runner.Running? && t.st.events == [] && t.st.pending == map[]
      && t.callers == map[call.id := Turns.Caller(call, Turns.Returned(Some(content)))]
  {
    hide Reachable;
    var w1 := Accepting(w, r, call, content, policy);
    var receives := TurnStep(0, Turns.CallReceives(call.id));
    Step(w1, receives);
    w' := Gateway.Apply(w1, receives);
  }

  lemma Accepting(w: World, r: Request, call: ToolCall, content: string, policy: Policy) returns (w': World)
    requires Reachable(w) && Resting(w, r, call) && Admitted(ResultRequest(r, call, content, policy))
    ensures Reachable(w') && w'.session == w.session && w'.heard == w.heard && |w'.turns| == 1
    ensures w'.holder.Consuming? && w'.holder.request == ResultRequest(r, call, content, policy) &&
      w'.holder.g.text == ""
    ensures w'.holder.slice == [Message(Tool, content, [], call.id)]
    ensures var t := w'.turns[0];
      && !t.st.cancelled && t.runner.Running? && t.st.events == [] && t.st.pending == map[]
      && t.callers == map[call.id := Turns.Caller(call, Turns.Waiting)] && t.st.results == map[call.id := [content]]
  {
    hide Reachable, Turns.ValidCall, PlainServed, Promptable, DecideTool, ActiveTurns.Acceptable;
    hide ActiveTurns.Resolved, Turns.Apply, Turns.Enabled;
    var r' := ResultRequest(r, call, content, policy);
    AcceptingDecision(w, r, call, content, policy);
    Step(w, ToolRequest(r'));
    w' := Gateway.Apply(w, ToolRequest(r'));
  }

  lemma AcceptingDecision(w: World, r: Request, call: ToolCall, content: string, policy: Policy)
    requires Resting(w, r, call)
    ensures var batch, st := [Message(Tool, content, [], call.id)], w.turns[0].st;
      && DecideTool(w.session, ResultRequest(r, call, content, policy)) == ResolveWith(batch)
      && ActiveTurns.Acceptable(st, batch)
      && ActiveTurns.Resolved(st, batch, policy)
         == st.(policy := policy, pending := map[], results := map[call.id := [content]])
  {
    hide Promptable, Admitted;
    var r', batch := ResultRequest(r, call, content, policy), [Message(Tool, content, [], call.id)];
    assert r'.messages == w.heard + batch;
    assert r'.messages[|w.heard|..] == batch && w.heard <= r'.messages;
    ResultIsAcceptable(w.turns[0].st, call, content, policy);
  }

  lemma ResultIsAcceptable(st: ActiveTurns.TurnState, call: ToolCall, content: string, policy: Policy)
    requires !st.cancelled && st.pending == map[call.id := ActiveTurns.Pending(call, true)]
    requires st.results == map[call.id := []]
    ensures var batch := [Message(Tool, content, [], call.id)];
      && ActiveTurns.Acceptable(st, batch)
      && ActiveTurns.Resolved(st, batch, policy)
         == st.(policy := policy, pending := map[], results := map[call.id := [content]])
  {
    var batch := [Message(Tool, content, [], call.id)];
    assert ActiveTurns.DeliveredIds(st.pending) == {call.id} == IdsOf(batch);
    assert batch[0] in batch;
    assert ActiveTurns.ContentFor(batch, call.id) == content;
    assert [] + [content] == [content];
  }

  /** The newest turn is active, and its request asks for no call. */
  ghost predicate MayComplete(w: World) {
    && w.holder.Consuming? && |w.turns| > 0 && w.session.active == Some(|w.turns| - 1)
    && !w.holder.request.policy.Required? && !w.holder.request.policy.Named?
  }

  function Completed(w: World, resumeID: string): Session
    requires w.holder.Consuming?
  {
    Committed(Unbound(w.session), w.holder.request.messages, AssistantMessage(w.holder.g.text, []), resumeID)
  }

  /** The agent ends its turn, and the exchange completes with a text. */
  lemma Completing(w: World, resumeID: string) returns (w': World)
    requires Reachable(w) && MayComplete(w) && Current(w).runner.Running? && Current(w).st.events == []
    ensures Reachable(w') && w'.holder.Free? && w'.record.None? && w'.session == Completed(w, resumeID)
    ensures |w'.turns| == |w.turns| && Last(w'.turns).callers == Current(w).callers
    ensures w'.heard == w.heard + w.holder.slice + [AssistantMessage(w.holder.g.text, [])]
  {
    hide Reachable;
    var i, t := |w.turns| - 1, Current(w);
    Step(w, TurnStep(i, Turns.AgentReturns(false)));
    var t1 := Turns.Apply(t, Turns.AgentReturns(false));
    var w1 := w.(turns := w.turns[i := t1]);
    assert Gateway.Apply(w, TurnStep(i, Turns.AgentReturns(false))) == w1;
    Step(w1, TurnStep(i, Turns.RunnerEmits));
    var t2 := Turns.Apply(t1, Turns.RunnerEmits);
    var w2 := w.(turns := w.turns[i := t2]);
    assert Gateway.Apply(w1, TurnStep(i, Turns.RunnerEmits)) == w2;
    w' := Ending(w2, resumeID);
  }

  lemma Ending(w: World, resumeID: string) returns (w': World)
    requires Reachable(w) && MayComplete(w) && Current(w).st.events == [ActiveTurns.DoneEvent(false)]
    ensures Reachable(w') && w'.holder.Free? && w'.record.None? && w'.session == Completed(w, resumeID)
    ensures |w'.turns| == |w.turns| && Last(w'.turns).callers == Current(w).callers
    ensures w'.heard == w.heard + w.holder.slice + [AssistantMessage(w.holder.g.text, [])]
  {
    hide Reachable, Turns.Apply, Turns.Enabled;
    Step(w, ConsumeNext(false));
    var w1 := Gateway.Apply(w, ConsumeNext(false));
    Step(w1, Commit(resumeID));
    w' := Gateway.Apply(w1, Commit(resumeID));
  }

  /**
   Whatever first request offers tools, whatever valid call its tool_choice allows and whatever
   the result says: the call can be offered, and its text be the one the waiting call returns,
   on the same turn, with the session then resting on the whole transcript.
   */
  lemma CallCanComplete(r: Request, call: ToolCall, content: string, policy: Policy) returns (rest: World, end: World)
    requires FirstRequest(r, call)
    requires !policy.Required? && !policy.Named?
    ensures Reachable(rest) && Resting(rest, r, call)
    ensures Reachable(end) && end.holder.Free? && |end.turns| == 1
    ensures end.turns[0].callers == map[call.id := Turns.Caller(call, Turns.Returned(Some(content)))]
    ensures end.session ==
      Committed(Unbound(rest.session), ResultRequest(r, call, content, policy).messages, AssistantMessage("", []), "")
    ensures end.heard == ResultRequest(r, call, content, policy).messages + [AssistantMessage("", [])]
  {
    hide Reachable, FirstRequest, Admitted;
    rest := Suspending(r, call);
    ResultIsAdmitted(r, call, content, policy);
    var resumed := Resuming(rest, r, call, content, policy);
    end := Completing(resumed, "");
    assert end.heard == ResultRequest(r, call, content, policy).messages + [AssistantMessage("", [])];
  }

  /** Such a result request is well formed whenever the first one was. */
  lemma ResultIsAdmitted(r: Request, call: ToolCall, content: string, policy: Policy)
    requires FirstRequest(r, call) && !policy.Named?
    ensures Admitted(ResultRequest(r, call, content, policy))
  {
    hide Promptable;
    var r' := ResultRequest(r, call, content, policy);
    forall m | m in r'.messages
      ensures (m.toolCalls != [] ==> m.role.Assistant?) && (m.role.Tool? <==> m.toolCallID != "")
    {
      assert m in r.messages || m == AssistantMessage("", [call]) || m == Message(Tool, content, [], call.id);
    }
  }

  /** The user's next words after a completed call. */
  function NextWords(r: Request, call: ToolCall, content: string, policy: Policy, said: string): Request {
    r.(messages := ResultRequest(r, call, content, policy).messages
                   + [AssistantMessage("", []), Message(User, said, [], "")],
       policy := policy)
  }

  lemma NextWordsAreFit(r: Request, call: ToolCall, content: string, policy: Policy, said: string)
    requires FirstRequest(r, call) && !policy.Required? && !policy.Named? && !Blank(said)
    ensures var u := NextWords(r, call, content, policy, said);
      && Admitted(u) && !Last(u.messages).role.Tool? && Promptable(u.messages)
      && exists m | m in u.messages :: m.role.Tool?
  {
    ResultIsAdmitted(r, call, content, policy);
    var before, u := ResultRequest(r, call, content, policy), NextWords(r, call, content, policy, said);
    assert Last(before.messages) in u.messages;
    forall m | m in u.messages
      ensures (m.toolCalls != [] ==> m.role.Assistant?) && (m.role.Tool? <==> m.toolCallID != "")
    {
      assert m in before.messages || m == AssistantMessage("", []) || m == Message(User, said, [], "");
    }
  }

  /** A request that continues a live session is launched on the process it has. */
  lemma Continuing(w: World, r: Request, delta: seq<Message>) returns (w': World)
    requires Reachable(w) && w.holder.Free? && w.session.active.None? && w.session.process.Some?
    requires Admitted(r) && TakesToolPath(w.session, r) && DecideTool(w.session, r) == Launch(false, delta)
    ensures Reachable(w') && w'.holder == Consuming(r, delta, NOTHING)
    ensures w'.session == Launched(w.session, r, |w.turns|) && w'.heard == w.heard
    ensures w'.turns == w.turns + [Turns.StartTurn(r.policy, ServedTools(w'.session), Turns.Running)]
  {
    hide Reachable, DecideTool, Admitted;
    Step(w, ToolRequest(r));
    var w1 := w.(holder := Holder.Launching(r, delta));
    Step(w1, Install);
    w' := Gateway.Apply(w1, Install);
  }

  /**
   A tool session goes on: after any completed call the user's next words start a new turn on the
   same process, which is sent nothing but those words, and the turn can complete on the whole
   transcript.
   */
  lemma NextWordsContinue(r: Request, call: ToolCall, content: string, policy: Policy, said: string)
    returns (end: World, on: World, done: World)
    requires FirstRequest(r, call) && !policy.Required? && !policy.Named? && !Blank(said)
    ensures var u, words := NextWords(r, call, content, policy, said), [Message(User, said, [], "")];
      && Reachable(end) && end.holder.Free?
      && end.session.history.Some? && end.session.history.value + words == u.messages
      && DecideTool(end.session, u) == Launch(false, words)
      && Reachable(on) && on.holder == Consuming(u, words, NOTHING) && on.heard == end.heard
      && on.session.process == end.session.process && on.session.process == Some(Process(r.tools))
      && on.session.facade == Some(Facade(r.tools, Some(1), true)) && on.session.active == Some(1)
      && Reachable(done) && done.holder.Free? && done.heard == u.messages + [AssistantMessage("", [])]
      && done.session.history == Some(done.heard)
  {
    hide Reachable, Promptable, FirstRequest, Admitted, Blank;
    var u, words := NextWords(r, call, content, policy, said), [Message(User, said, [], "")];
    NextWordsAreFit(r, call, content, policy, said);
    var rest;
    rest, end := CallCanComplete(r, call, content, policy);
    NextWordsDecision(end.session, r, call, content, policy, said);
    on := Continuing(end, u, words);
    done := Completing(on, "");
    assert end.heard + words == u.messages;
  }

  lemma NextWordsDecision(s: Session, r: Request, call: ToolCall, content: string, policy: Policy, said: string)
    requires FirstRequest(r, call) && !Blank(said)
    requires s == Committed(Unbound(Committed(Launched(FRESH, r, 0), r.messages, AssistantMessage("", [call]), "")),
                            ResultRequest(r, call, content, policy).messages, AssistantMessage("", []), "")
    ensures var u, words := NextWords(r, call, content, policy, said), [Message(User, said, [], "")];
      && s.history.Some? && s.history.value + words == u.messages
      && TakesToolPath(s, u) && DecideTool(s, u) == Launch(false, words)
  {
    hide Turns.ValidCall, Admitted;
    var u, words := NextWords(r, call, content, policy, said), [Message(User, said, [], "")];
    var heard := s.history.value;
    assert heard + words == u.messages && u.messages[|heard|..] == words;
    assert Promptable(words);
  }
}
