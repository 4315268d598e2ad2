/** What holds in every run of the gateway: the theorems about the suspended-turn protocol and the session. */
module Runs {
  import opened Types
  import opened Collecting
  import opened History
  import opened Sessions
  import opened Gateway
  import Turns = TurnSystem
  import ActiveTurns

  /** A run: worlds[k + 1] is worlds[k] after actions[k], from an empty gateway. */
  ghost predicate Run(worlds: seq<World>, actions: seq<Action>) {
    && |worlds| == |actions| + 1
    && Initial(worlds[0])
    && forall k | 0 <= k < |actions| ::
         Gateway.Enabled(worlds[k], actions[k]) && worlds[k + 1] == Gateway.Apply(worlds[k], actions[k])
  }

  lemma ActionKeepsInv(w: World, a: Action)
    requires Gateway.Inv(w) && Gateway.Enabled(w, a)
    ensures Gateway.Inv(Gateway.Apply(w, a))
  {
    hide Gateway.Inv, Gateway.Apply, Gateway.Enabled;
    match a
    case TurnStep(i, step) => TurnStepKeepsInv(w, i, step);
    case FacadeDies => FacadeDiesKeepsInv(w);
    case PlainRequest(r, engine) => PlainRequestKeepsInv(w, r, engine);
    case ToolRequest(r) => ToolRequestKeepsInv(w, r);
    case FinishClear => FinishClearKeepsInv(w);
    case FacadeFails => FacadeFailsKeepsInv(w);
    case StartFails => StartFailsKeepsInv(w);
    case Install => InstallKeepsInv(w);
    case ConsumeNext(modelRefused) => ConsumeNextKeepsInv(w, modelRefused);
    case GiveUp => GiveUpKeepsInv(w);
    case CheckCause => CheckCauseKeepsInv(w);
    case Commit(resumeID) => CommitKeepsInv(w, resumeID);
    case Watch(i) => WatchKeepsInv(w, i);
    case EvictIdle => EvictKeepsInv(w);
    case Crash => CrashKeepsInv(w);
  }

  /** The invariant holds in every reachable world. */
  lemma {:induction false} RunKeepsInv(worlds: seq<World>, actions: seq<Action>, k: nat)
    requires Run(worlds, actions) && k < |worlds|
    ensures Gateway.Inv(worlds[k])
  {
    if k > 0 {
      RunKeepsInv(worlds, actions, k - 1);
      assert worlds[k - 1 + 1] == Gateway.Apply(worlds[k - 1], actions[k - 1]);
      ActionKeepsInv(worlds[k - 1], actions[k - 1]);
    }
  }

  /**
   The resting invariant: with the lock free and the turn alive, one pending call is delivered,
   it is the only tool call of the last message in the transcript, and every other pending call
   is undelivered and still in the queue or inside emit.
   */
  lemma RestingInvariant(worlds: seq<World>, actions: seq<Action>, k: nat)
    requires Run(worlds, actions) && k < |worlds| && worlds[k].holder.Free? && worlds[k].session.active.Some?
    ensures var w := worlds[k]; Active(w) && (!Current(w).st.cancelled ==>
      && w.session.history.Some? && w.session.history.value != []
      && |Last(w.session.history.value).toolCalls| == 1
      && var call := Last(w.session.history.value).toolCalls[0]; var pending := Current(w).st.pending;
      && call.id in pending && pending[call.id] == ActiveTurns.Pending(call, true)
      && forall id | id in pending && id != call.id ::
           !pending[id].delivered && Turns.Queued(id, Current(w).callers, Current(w).st.events))
  {
    RunKeepsInv(worlds, actions, k);
    SuspendedMeans(Current(worlds[k]), worlds[k].session.history);
  }

  lemma SuspendedMeans(t: Turns.Turn, history: Option<seq<Message>>)
    requires Turns.Inv(t) && Suspended(t, history)
    ensures |Last(history.value).toolCalls| == 1
    ensures var call := Last(history.value).toolCalls[0];
      && call.id in t.st.pending && t.st.pending[call.id] == ActiveTurns.Pending(call, true)
      && (!t.st.cancelled ==> forall id | id in t.st.pending && id != call.id ::
            !t.st.pending[id].delivered && Turns.Queued(id, t.callers, t.st.events))
  {
    hide Turns.Served, Turns.ResultsSound, Turns.EmittedSound, Turns.Contents, Collected;
    var call := Turns.CallOf(Last(t.answers));
    assert t.answers[|t.answers| - 1] == Last(t.answers);
    assert call.id in ActiveTurns.DeliveredIds(t.st.pending);
    Turns.AcceptedCallWasEmitted(t);
    assert forall id | id in t.st.pending ::
      t.st.pending[id].delivered <==> id in ActiveTurns.DeliveredIds(t.st.pending);
  }

  /**
   Exactly once, no cross-delivery: a call that returned a text returned the content of the one
   tool message that ever named it, alone in its accepted batch, and that batch answered the
   response that had offered this very call.
   */
  lemma TextIsItsOwnResult(worlds: seq<World>, actions: seq<Action>, k: nat, i: nat, id: string) returns (j: nat)
    requires Run(worlds, actions) && k < |worlds| && i < |worlds[k].turns|
    requires var t := worlds[k].turns[i];
      id in t.callers && t.callers[id].phase.Returned? && t.callers[id].phase.result.Some?
    ensures var t := worlds[k].turns[i];
      && j < |t.batches| <= |t.answers|
      && |t.batches[j]| == 1 && t.batches[j][0].role.Tool? && t.batches[j][0].toolCallID == id
      && t.batches[j][0].content == t.callers[id].phase.result.value
      && t.answers[j].toolCalls == [t.callers[id].call]
      && forall l | 0 <= l < |t.batches| && l != j :: IdsOf(t.batches[l]) !! {id}
  {
    RunKeepsInv(worlds, actions, k);
    j := AnsweredOnce(worlds[k].turns[i], id);
  }

  lemma AnsweredOnce(t: Turns.Turn, id: string) returns (j: nat)
    requires Turns.Inv(t) && id in t.callers && t.callers[id].phase.Returned? && t.callers[id].phase.result.Some?
    ensures j < |t.batches| <= |t.answers|
    ensures |t.batches[j]| == 1 && t.batches[j][0].role.Tool? && t.batches[j][0].toolCallID == id
    ensures t.batches[j][0].content == t.callers[id].phase.result.value
    ensures t.answers[j].toolCalls == [t.callers[id].call]
    ensures forall l | 0 <= l < |t.batches| && l != j :: IdsOf(t.batches[l]) !! {id}
  {
    Turns.CallerSettled(t, id);
    j := Turns.ContentsWereOffered(t.answers, t.batches, t.consumed, id);
    Turns.BatchesAreContents(t.answers, t.batches, t.consumed, j);
    OfferedCallIsTheCallers(t, j);
    forall l | 0 <= l < |t.batches| && l != j
      ensures IdsOf(t.batches[l]) !! {id}
    {
      assert Turns.CallOf(t.answers[l]).id != Turns.CallOf(t.answers[j]).id;
      assert t.batches[l] == [t.batches[l][0]];
    }
  }

  lemma OfferedCallIsTheCallers(t: Turns.Turn, j: nat)
    requires Turns.Inv(t) && j < |t.answers|
    ensures |t.answers[j].toolCalls| == 1
    ensures var call := Turns.CallOf(t.answers[j]); call.id in t.callers && t.callers[call.id].call == call
  {
    assert ActiveTurns.CallEvent(Turns.CallOf(t.answers[j])) in t.emitted;
    assert Turns.HasEmitted(Turns.CallOf(t.answers[j]), t.callers);
  }

  /** Releasing an accepted batch never blocks: every channel it sends on is open and empty. */
  lemma SendsNeverBlock(worlds: seq<World>, actions: seq<Action>, k: nat, i: nat, batch: seq<Message>)
    requires Run(worlds, actions) && k < |worlds| && i < |worlds[k].turns|
    requires ActiveTurns.Acceptable(worlds[k].turns[i].st, batch)
    ensures var st := worlds[k].turns[i].st;
      forall m | m in batch :: m.toolCallID in st.pending &&
        m.toolCallID in st.results && st.results[m.toolCallID] == []
  {
    RunKeepsInv(worlds, actions, k);
    var t := worlds[k].turns[i];
    forall m | m in batch
      ensures m.toolCallID in t.st.pending && m.toolCallID in t.st.results && t.st.results[m.toolCallID] == []
    {
      assert m.toolCallID in IdsOf(batch);
      Turns.CallerSettled(t, m.toolCallID);
    }
  }

  /** A call that has returned stays as it returned, whatever happens next short of a crash. */
  lemma {:induction false} CallReturnsOnce(worlds: seq<World>, actions: seq<Action>, k: nat, l: nat, i: nat, id: string)
    requires Run(worlds, actions) && k <= l < |worlds| && i < |worlds[k].turns|
    requires forall n | k <= n < l :: !actions[n].Crash?
    requires id in worlds[k].turns[i].callers && worlds[k].turns[i].callers[id].phase.Returned?
    ensures i < |worlds[l].turns| && id in worlds[l].turns[i].callers
    ensures worlds[l].turns[i].callers[id] == worlds[k].turns[i].callers[id]
    decreases l - k
  {
    hide Gateway.Apply, Gateway.Enabled;
    if k < l {
      CallReturnsOnce(worlds, actions, k, l - 1, i, id);
      assert worlds[l - 1 + 1] == Gateway.Apply(worlds[l - 1], actions[l - 1]);
      ReturnedStays(worlds[l - 1], actions[l - 1], i, id);
    }
  }

  lemma ReturnedStays(w: World, a: Action, i: nat, id: string)
    requires Gateway.Enabled(w, a) && !a.Crash? && i < |w.turns|
    requires id in w.turns[i].callers && w.turns[i].callers[id].phase.Returned?
    ensures var w' := Gateway.Apply(w, a);
      i < |w'.turns| && id in w'.turns[i].callers && w'.turns[i].callers[id] == w.turns[i].callers[id]
  {
    hide PlainExchange, DecideTool, Turns.ValidCall, ActiveTurns.Acceptable, ActiveTurns.Resolved, Committed;
    hide Launched, Admitted;
    hide Turns.Apply, Turns.Enabled;
    if a.TurnStep? && a.turn == i {
      ReturnedStaysInTurn(w.turns[i], a.step, id);
    } else {
      CallersStay(w, a, i);
    }
  }

  /** The handler, the janitor and other turns' goroutines never touch a turn's callers. */
  lemma CallersStay(w: World, a: Action, i: nat)
    requires Gateway.Enabled(w, a) && !a.Crash? && i < |w.turns| && !(a.TurnStep? && a.turn == i)
    ensures var w' := Gateway.Apply(w, a); i < |w'.turns| && w'.turns[i].callers == w.turns[i].callers
  {
    hide PlainExchange, Committed, Launched, AcceptRequest, Consumed, Turns.Apply, Turns.Enabled;
    match a
    case ToolRequest(r) => AcceptingKeepsCallers(w, r, i);
    case ConsumeNext(modelRefused) => ConsumingKeepsCallers(w, modelRefused, i);
    case _ =>
  }

  lemma AcceptingKeepsCallers(w: World, r: Request, i: nat)
    requires r.messages != [] && i < |w.turns|
    ensures var w' := AcceptRequest(w, r); i < |w'.turns| && w'.turns[i].callers == w.turns[i].callers
  {
    hide DecideTool, ActiveTurns.Acceptable, ActiveTurns.Resolved;
  }

  lemma ConsumingKeepsCallers(w: World, modelRefused: bool, i: nat)
    requires w.holder.Consuming? && Active(w) && Current(w).st.events != [] && i < |w.turns|
    ensures var w' := Consumed(w, modelRefused); i < |w'.turns| && w'.turns[i].callers == w.turns[i].callers
  {
    hide ActiveTurns.Deliver;
  }

  lemma ReturnedStaysInTurn(t: Turns.Turn, a: Turns.TurnAction, id: string)
    requires Turns.Enabled(t, a) && id in t.callers && t.callers[id].phase.Returned?
    ensures id in Turns.Apply(t, a).callers && Turns.Apply(t, a).callers[id] == t.callers[id]
  {
    hide Turns.ValidCall;
  }

  /** Every successful exchange kept the tool_choice of its own request, and returned a valid answer. */
  lemma ToolChoiceIsKept(worlds: seq<World>, actions: seq<Action>, k: nat, n: nat)
    requires Run(worlds, actions) && k < |worlds| && n < |worlds[k].successes|
    ensures KeptPolicy(worlds[k].successes[n]) && ValidAnswer(worlds[k].successes[n].answer)
  {
    RunKeepsInv(worlds, actions, k);
    assert worlds[k].successes[n] in worlds[k].successes;
  }

  /**
   Transcript conservation: after every successful exchange the stored history is the request
   and its answer, and also, exactly, what the native session's committed exchanges were sent
   and answered since it was started. No committed message is skipped or repeated; Retelling
   says what failed turns add.
   */
  lemma TranscriptIsConserved(worlds: seq<World>, actions: seq<Action>, k: nat)
    requires Run(worlds, actions) && k < |actions| && |worlds[k + 1].successes| > |worlds[k].successes|
    ensures var w, w' := worlds[k], worlds[k + 1];
      && w'.successes == w.successes + [Last(w'.successes)]
      && w'.session.history == Some(w'.heard)
      && match actions[k]
         case PlainRequest(r, engine) =>
           var reply := PlainExchange(w.session, w.record, r, engine).reply;
           && reply.Answered?
           && w'.heard == r.messages + [Last(w'.successes).answer]
           && w'.heard == (if reply.anew then [] else w.heard) + reply.slice + [Last(w'.successes).answer]
         case Commit(_) =>
           && (w.holder.Committing? || w.holder.Finished?)
           && w'.heard == w.holder.request.messages + [Last(w'.successes).answer]
           && w'.heard == w.heard + w.holder.slice + [Last(w'.successes).answer]
         case _ => false
  {
    hide Gateway.Inv, Gateway.Apply, Gateway.Enabled;
    RunKeepsInv(worlds, actions, k);
    assert worlds[k + 1] == Gateway.Apply(worlds[k], actions[k]);
    match actions[k]
    case PlainRequest(r, engine) => PlainConserves(worlds[k], r, engine);
    case Commit(resumeID) => CommitConserves(worlds[k], resumeID);
    case _ => OthersDoNotSucceed(worlds[k], actions[k]);
  }

  /** The plain path never sees tools: none asked for, none served, no result brought, and a process without any. */
  lemma PlainIsToolFree(worlds: seq<World>, actions: seq<Action>, k: nat)
    requires Run(worlds, actions) && k < |actions| && actions[k].PlainRequest?
    ensures var w, r := worlds[k], actions[k].request;
      && r.tools == [] && !Last(r.messages).role.Tool? && w.session.facade.None? && w.session.active.None?
      && (w.session.process.Some? ==> w.session.process.value.tools == [])
  {
    RunKeepsInv(worlds, actions, k);
  }

  lemma PlainConserves(w: World, r: Request, engine: Engine)
    requires Gateway.Inv(w) && Gateway.Enabled(w, PlainRequest(r, engine))
    ensures var w', reply := Gateway.Apply(w, PlainRequest(r, engine)),
      PlainExchange(w.session, w.record, r, engine).reply;
      if reply.Answered? then
        && w'.successes == w.successes + [Success(r.policy, reply.answer)]
        && w'.session.history == Some(w'.heard) && w'.heard == r.messages + [reply.answer]
        && w'.heard == (if reply.anew then [] else w.heard) + reply.slice + [reply.answer]
      else w'.successes == w.successes
  {
    hide PlainExchange, Shape, Coherent, Remembers, TurnsSound, SuccessesSound;
    PlainExchangeIsSound(w.session, w.record, w.heard, r, engine);
  }

  lemma CommitConserves(w: World, resumeID: string)
    requires Gateway.Inv(w) && Gateway.Enabled(w, Commit(resumeID))
    ensures w.holder.Committing? || w.holder.Finished?
    ensures var w', answer := Gateway.Apply(w, Commit(resumeID)), AnswerOf(w.holder);
      && w'.successes == w.successes + [Success(w.holder.request.policy, answer)]
      && w'.session.history == Some(w'.heard)
      && w'.heard == w.holder.request.messages + [answer] && w'.heard == w.heard + w.holder.slice + [answer]
  {
    hide Turns.Outstanding, Collected, Shape, Coherent, Remembers, TurnsSound, SuccessesSound, Admitted;
  }

  lemma OthersDoNotSucceed(w: World, a: Action)
    requires Gateway.Enabled(w, a) && !a.PlainRequest? && !a.Commit?
    ensures Gateway.Apply(w, a).successes == w.successes
  {
    hide DecideTool, ActiveTurns.Acceptable, Turns.ValidCall, Admitted;
  }

  /** The session shape: a request in the event loop runs on a process serving exactly its tools. */
  lemma ServedToolsAreRequested(worlds: seq<World>, actions: seq<Action>, k: nat)
    requires Run(worlds, actions) && k < |worlds|
    requires worlds[k].holder.Consuming? || worlds[k].holder.Delivered? || worlds[k].holder.Committing?
    ensures var w := worlds[k];
      && w.session.process == Some(Process(w.holder.request.tools))
      && (w.holder.request.tools != [] ==>
            w.session.facade.Some? && w.session.facade.value.tools == w.holder.request.tools
            && w.session.facade.value.active == w.session.active)
      && Active(w) && Current(w).tools == w.holder.request.tools && Current(w).st.policy == w.holder.request.policy
  {
    RunKeepsInv(worlds, actions, k);
    ServedIsRequested(worlds[k].session, worlds[k].holder.request);
  }

  /** Store and state agree, and a record excludes a turn and a facade, in every reachable world. */
  lemma RecordMirrorsSession(worlds: seq<World>, actions: seq<Action>, k: nat)
    requires Run(worlds, actions) && k < |worlds|
    ensures var w := worlds[k];
      && Shape(w.session)
      && (w.record.Some? ==>
            w.record.value == RecordOf(w.session) && w.session.active.None? && w.session.facade.None?
            && forall key | key != "" :: Loadable(key, w.record.value))
      && (w.record.Some? ==> w.heard != [] && w.record.value.historyHash == TranscriptHash(w.heard))
      && (w.holder.Clearing? && w.holder.next.Evict? && (w.session.active.Some? || w.session.facade.Some?)
          ==> w.record.None?)
  {
    RunKeepsInv(worlds, actions, k);
  }

  /** Everything a turn's answers and the open segment hold is what one collector makes of all consumed events. */
  lemma SegmentsAreTheWhole(worlds: seq<World>, actions: seq<Action>, k: nat)
    requires Run(worlds, actions) && k < |worlds|
    ensures var w := worlds[k];
      && (forall i | 0 <= i < |w.turns| :: w.turns[i].emitted == w.turns[i].consumed + w.turns[i].st.events)
      && (w.holder.Free? && w.session.active.Some? ==>
            && Active(w)
            && AnswerTexts(Current(w).answers) == AbsorbAll(NOTHING, SpokenIn(Current(w).consumed)).text)
      && (w.holder.Consuming? ==>
            && Active(w)
            && AnswerTexts(Current(w).answers) + w.holder.g.text
                == AbsorbAll(NOTHING, SpokenIn(Current(w).consumed)).text)
      && (w.holder.Finished? ==>
            && w.holder.turn < |w.turns|
            && AnswerTexts(w.turns[w.holder.turn].answers) + AnswerOf(w.holder).content
              == AbsorbAll(NOTHING, SpokenIn(w.turns[w.holder.turn].consumed)).text)
  {
    hide Turns.PendingSound, Turns.ResultsSound, Turns.EmittedSound, Turns.ExchangesSound, Turns.Outstanding;
    hide Turns.Contents;
    hide Shape, Coherent, Remembers, SuccessesSound, Admitted, AbsorbAll, SpokenIn, AnswerTexts;
    RunKeepsInv(worlds, actions, k);
    var w := worlds[k];
    if w.holder.Free? && w.session.active.Some? {
      assert AnswerTexts(Current(w).answers) + "" == AnswerTexts(Current(w).answers);
    }
  }

  // Results, launches and old turns.

  /** The one request that resumes a suspended turn: the transcript, then a tool message for its call. */
  predicate ResultFor(w: World, r: Request) {
    && Active(w) && !Current(w).st.cancelled
    && w.session.cwd == r.cwd && w.session.toolHash == ToolHashOf(r.tools)
    && w.heard != [] && |Last(w.heard).toolCalls| == 1
    && |r.messages| == |w.heard| + 1 && w.heard <= r.messages
    && Last(r.messages).role.Tool? && Last(r.messages).toolCallID == Last(w.heard).toolCalls[0].id
  }

  /**
   A result request is accepted exactly when it repeats the transcript and adds the one result
   asked for, with the same directory and tools, on a live turn. A refused one changes nothing,
   unless the turn was started for another directory or toolset: then the session is cleared.
   */
  lemma ResultAcceptedExactly(worlds: seq<World>, actions: seq<Action>, k: nat, r: Request)
    requires Run(worlds, actions) && k < |worlds|
    requires Gateway.Enabled(worlds[k], ToolRequest(r)) && Last(r.messages).role.Tool?
    ensures var w := worlds[k]; var w' := Gateway.Apply(w, ToolRequest(r));
      && (w'.holder.Consuming? <==> ResultFor(w, r))
      && (w'.holder.Consuming? ==> w'.holder.slice == [Last(r.messages)] && w'.session == w.session)
      && (!w'.holder.Consuming? ==>
            if w.session.active.Some? && (w.session.cwd != r.cwd || w.session.toolHash != ToolHashOf(r.tools))
            then w'.holder == Clearing(Release) &&
              FinishedClear(w').session == Cleared(w.session) && FinishedClear(w').record == None
            else w' == w)
  {
    hide Gateway.Inv, Gateway.Apply;
    RunKeepsInv(worlds, actions, k);
    ResultAcceptedHere(worlds[k], r);
  }

  lemma ResultAcceptedHere(w: World, r: Request)
    requires r.messages != [] && Last(r.messages).role.Tool?
    requires Gateway.Inv(w) && Gateway.Enabled(w, ToolRequest(r))
    ensures var w' := Gateway.Apply(w, ToolRequest(r));
      && (w'.holder.Consuming? <==> ResultFor(w, r))
      && (w'.holder.Consuming? ==> w'.holder.slice == [Last(r.messages)] && w'.session == w.session)
      && (!w'.holder.Consuming? ==>
            if w.session.active.Some? && (w.session.cwd != r.cwd || w.session.toolHash != ToolHashOf(r.tools))
            then w'.holder == Clearing(Release) &&
              FinishedClear(w').session == Cleared(w.session) && FinishedClear(w').record == None
            else w' == w)
  {
    hide Turns.Inv, Turns.Outstanding, Collected, Shape, Coherent, SuccessesSound, Admitted, DecideTool;
    hide ActiveTurns.Acceptable, Turns.Accept;
    InvRemembers(w);
    if w.session.active.Some? {
      SuspendedMeans(Current(w), w.session.history);
      ResultBatch(Current(w), w.heard, r);
    }
    ResultDecision(w.session, w.heard, r);
  }

  lemma ResultBatch(t: Turns.Turn, heard: seq<Message>, r: Request)
    requires Turns.Inv(t) && Suspended(t, Some(heard)) && r.messages != []
    ensures heard <= r.messages ==>
      var batch := r.messages[|heard|..];
      ActiveTurns.Acceptable(t.st, batch) <==>
        && !t.st.cancelled && |batch| == 1 && batch[0].role.Tool? && batch[0].toolCallID == Turns.CallOf(Last(heard)).id
  {
    hide Turns.Inv, ActiveTurns.Acceptable, Collected;
    var id := Turns.CallOf(Last(heard)).id;
    if heard <= r.messages {
      var batch := r.messages[|heard|..];
      if ActiveTurns.Acceptable(t.st, batch) {
        Turns.BatchOfOne(t.st, batch, id);
        AcceptableIsLive(t.st, batch);
      }
      SingleIsAcceptable(t.st, batch, id);
    }
  }

  lemma AcceptableIsLive(s: ActiveTurns.TurnState, batch: seq<Message>)
    requires ActiveTurns.Acceptable(s, batch)
    ensures !s.cancelled
  {
  }

  lemma SingleIsAcceptable(s: ActiveTurns.TurnState, batch: seq<Message>, id: string)
    requires ActiveTurns.DeliveredIds(s.pending) == {id}
    ensures !s.cancelled && |batch| == 1 && batch[0].role.Tool? && batch[0].toolCallID == id ==>
      ActiveTurns.Acceptable(s, batch)
  {
    if |batch| == 1 && batch[0].toolCallID == id {
      assert IdsOf(batch) == {id};
    }
  }

  /** A turn is installed only when none is active, and only for a request that carries no result. */
  lemma OneTurnAtATime(worlds: seq<World>, actions: seq<Action>, k: nat)
    requires Run(worlds, actions) && k < |actions| && !actions[k].Crash?
    ensures var w, w' := worlds[k], worlds[k + 1];
      if actions[k].Install? || actions[k].StartFails? then
        && w.holder.Launching? && w.holder.request.messages != [] && !Last(w.holder.request.messages).role.Tool?
        && w.session.active.None?
        && |w'.turns| == |w.turns| + 1 && w'.turns[..|w.turns|] == w.turns
        && forall i | 0 <= i < |w.turns| :: w.turns[i].st.cancelled
      else |w'.turns| == |w.turns|
  {
    RunKeepsInv(worlds, actions, k);
    assert worlds[k + 1] == Gateway.Apply(worlds[k], actions[k]);
    TurnsGrowByLaunch(worlds[k], actions[k]);
  }

  lemma TurnsGrowByLaunch(w: World, a: Action)
    requires Gateway.Enabled(w, a) && !a.Crash?
    ensures var w' := Gateway.Apply(w, a);
      if a.Install? || a.StartFails? then |w'.turns| == |w.turns| + 1 && w'.turns[..|w.turns|] == w.turns
      else |w'.turns| == |w.turns|
  {
    hide DecideTool, PlainExchange, ActiveTurns.Acceptable, Turns.ValidCall, Admitted, Turns.Apply;
  }

  // Launches against the requests that asked for them.

  /** Whether the handler is bound for a launch. */
  function UnderWay(w: World): nat {
    if w.holder.Launching? || (w.holder.Clearing? && w.holder.next.LaunchNext?) then 1 else 0
  }

  /** The request and the slice such a handler is bound to launch. */
  function BoundFor(w: World): (Request, seq<Message>)
    requires UnderWay(w) == 1
  {
    if w.holder.Launching? then (w.holder.request, w.holder.slice) else (w.holder.next.request, w.holder.next.delta)
  }

  /** Whether this step decides that a request is to be launched. */
  function DecidedBy(w: World, a: Action): nat {
    if a.ToolRequest? && a.request.messages != [] && DecideTool(w.session, a.request).Launch? then 1 else 0
  }

  /** Whether this step ends a launch: by a turn, by a failure, or by a crash under way. */
  function EndedBy(w: World, a: Action): nat {
    if a.Install? || a.StartFails? || a.FacadeFails? then 1 else if a.Crash? then UnderWay(w) else 0
  }

  function Decided(worlds: seq<World>, actions: seq<Action>): nat
    requires |worlds| == |actions| + 1
  {
    if actions == [] then 0
    else
      var n := |actions| - 1;
      Decided(worlds[..n + 1], actions[..n]) + DecidedBy(worlds[n], actions[n])
  }

  function Ended(worlds: seq<World>, actions: seq<Action>): nat
    requires |worlds| == |actions| + 1
  {
    if actions == [] then 0
    else
      var n := |actions| - 1;
      Ended(worlds[..n + 1], actions[..n]) + EndedBy(worlds[n], actions[n])
  }

  function FacadeFailures(actions: seq<Action>): nat {
    if actions == [] then 0
    else FacadeFailures(actions[..|actions| - 1]) + (if Last(actions).FacadeFails? then 1 else 0)
  }

  lemma LaunchStep(w: World, a: Action)
    requires Gateway.Enabled(w, a)
    ensures UnderWay(w) + DecidedBy(w, a) == UnderWay(Gateway.Apply(w, a)) + EndedBy(w, a)
    ensures var w' := Gateway.Apply(w, a);
      UnderWay(w') == 1 ==>
        if DecidedBy(w, a) == 1 then BoundFor(w') == (a.request, DecideTool(w.session, a.request).delta)
        else UnderWay(w) == 1 && BoundFor(w') == BoundFor(w)
  {
    hide DecideTool, PlainExchange, ActiveTurns.Acceptable, Turns.ValidCall, Turns.Apply, Turns.Enabled;
  }

  /**
   Prompts on the tool path are exactly the requests decided for launch: in any run each such
   request is launched once, fails once, is lost in a crash, or is the one under way. None of
   them carries a result. Short of a crash the turns are the prompts.
   */
  lemma {:induction false} PromptsAreLaunches(worlds: seq<World>, actions: seq<Action>)
    requires Run(worlds, actions)
    ensures Decided(worlds, actions) == Ended(worlds, actions) + UnderWay(Last(worlds))
    ensures forall k | 0 <= k < |actions| && DecidedBy(worlds[k], actions[k]) == 1 ::
      !Last(actions[k].request.messages).role.Tool?
    ensures (forall k | 0 <= k < |actions| :: !actions[k].Crash?) ==>
      Decided(worlds, actions) == |Last(worlds).turns| + FacadeFailures(actions) + UnderWay(Last(worlds))
    decreases |actions|
  {
    hide Gateway.Apply, Gateway.Enabled;
    if actions != [] {
      var n := |actions| - 1;
      assert worlds[n + 1] == Gateway.Apply(worlds[n], actions[n]);
      assert Last(worlds[..n + 1]) == worlds[n];
      PromptsAreLaunches(worlds[..n + 1], actions[..n]);
      LaunchStep(worlds[n], actions[n]);
      if !actions[n].Crash? {
        TurnsGrowByLaunch(worlds[n], actions[n]);
      }
    }
  }

  /** What is launched is what was decided: the request and the slice of an earlier decision, with none between. */
  lemma {:induction false} LaunchHasItsRequest(worlds: seq<World>, actions: seq<Action>, k: nat) returns (j: nat)
    requires Run(worlds, actions) && k < |worlds| && UnderWay(worlds[k]) == 1
    ensures j < k && DecidedBy(worlds[j], actions[j]) == 1
    ensures BoundFor(worlds[k]) == (actions[j].request, DecideTool(worlds[j].session, actions[j].request).delta)
    ensures forall n | j < n < k :: DecidedBy(worlds[n], actions[n]) == 0 && EndedBy(worlds[n], actions[n]) == 0
  {
    hide Gateway.Apply, Gateway.Enabled, DecidedBy, BoundFor;
    assert k > 0;
    assert worlds[k - 1 + 1] == Gateway.Apply(worlds[k - 1], actions[k - 1]);
    LaunchStep(worlds[k - 1], actions[k - 1]);
    if DecidedBy(worlds[k - 1], actions[k - 1]) == 1 {
      j := k - 1;
    } else {
      j := LaunchHasItsRequest(worlds, actions, k - 1);
    }
  }

  // How a turn ended.

  /** An event that fails the exchange consuming it: the agent's error, as its end or as a message. */
  predicate Fatal(e: ActiveTurns.Event) {
    e == ActiveTurns.DoneEvent(true) || (e.MessageEvent? && e.message.Failure?)
  }

  ghost predicate HasFailed(t: Turns.Turn) {
    exists e | e in t.consumed :: Fatal(e)
  }

  /** A turn a handler is about to answer from, or rests on, has consumed no failure. */
  ghost predicate Unfailing(w: World) {
    && (Active(w) && HasFailed(Current(w)) ==> w.holder.Clearing?)
    && (w.holder.Finished? && w.holder.turn < |w.turns| ==> !HasFailed(w.turns[w.holder.turn]))
  }

  lemma UnfailingStep(w: World, a: Action)
    requires Gateway.Inv(w) && Gateway.Enabled(w, a) && Unfailing(w)
    ensures Unfailing(Gateway.Apply(w, a))
  {
    hide Gateway.Inv, HasFailed, PlainExchange, DecideTool, Turns.Apply, Turns.Enabled, AcceptRequest, Consumed;
    match a
    case TurnStep(i, step) => TurnStepFailsNothing(w, i, step);
    case PlainRequest(r, engine) => PlainKeepsActive(w, r, engine);
    case ToolRequest(r) => AcceptingFailsNothing(w, r);
    case ConsumeNext(modelRefused) => ConsumingFailsOnce(w, modelRefused);
    case Install => InstallingIsFresh(w);
    case _ => HandlerFailsNothing(w, a);
  }

  lemma TurnStepFailsNothing(w: World, i: nat, step: Turns.TurnAction)
    requires Gateway.Enabled(w, TurnStep(i, step)) && Unfailing(w)
    ensures Unfailing(Gateway.Apply(w, TurnStep(i, step)))
  {
    hide Turns.Apply, Turns.Enabled;
    ActionFrame(w.turns[i], step);
  }

  lemma AcceptingFailsNothing(w: World, r: Request)
    requires r.messages != [] && w.holder.Free? && Unfailing(w)
    ensures Unfailing(AcceptRequest(w, r))
  {
    hide DecideTool, ActiveTurns.Acceptable, ActiveTurns.Resolved;
  }

  lemma ConsumingFailsOnce(w: World, modelRefused: bool)
    requires w.holder.Consuming? && Active(w) && Current(w).st.events != [] && Unfailing(w)
    ensures Unfailing(Consumed(w, modelRefused))
  {
    var t := Current(w);
    var t' := Turns.Consume(t);
    assert forall e | e in t'.consumed :: e in t.consumed || e == t.st.events[0];
    assert Last(t'.consumed) == t.st.events[0];
  }

  lemma InstallingIsFresh(w: World)
    requires w.holder.Launching?
    ensures Unfailing(Installed(w))
  {
  }

  lemma HandlerFailsNothing(w: World, a: Action)
    requires Gateway.Inv(w) && Gateway.Enabled(w, a) && Unfailing(w)
    requires !a.TurnStep? && !a.PlainRequest? && !a.ToolRequest? && !a.ConsumeNext? && !a.Install?
    ensures Unfailing(Gateway.Apply(w, a))
  {
    hide Turns.Inv, Turns.Outstanding, Turns.ValidCall, Shape, Coherent, Remembers, SuccessesSound, Collected, Admitted;
  }

  lemma {:induction false} RunIsUnfailing(worlds: seq<World>, actions: seq<Action>, k: nat)
    requires Run(worlds, actions) && k < |worlds|
    ensures Unfailing(worlds[k])
  {
    hide Gateway.Apply, Gateway.Enabled, Gateway.Inv, Unfailing;
    if k > 0 {
      RunIsUnfailing(worlds, actions, k - 1);
      RunKeepsInv(worlds, actions, k - 1);
      assert worlds[k - 1 + 1] == Gateway.Apply(worlds[k - 1], actions[k - 1]);
      UnfailingStep(worlds[k - 1], actions[k - 1]);
    } else {
      StartIsUnfailing(worlds[0]);
    }
  }

  lemma StartIsUnfailing(w: World)
    requires Initial(w)
    ensures Unfailing(w)
  {
  }

  /** The turn a commit answers from. */
  function CommittedTurn(w: World): nat
    requires w.holder.Committing? || w.holder.Finished?
  {
    if w.holder.Finished? then w.holder.turn else if w.session.active.Some? then w.session.active.value else 0
  }

  /**
   A tool-path success stands on what its agent did: the turn has consumed no failure, and if the
   answer offers no call, the last thing it consumed is the agent's end without error.
   */
  lemma OnlySoundTurnsCommit(worlds: seq<World>, actions: seq<Action>, k: nat)
    requires Run(worlds, actions) && k < |actions| && actions[k].Commit?
    ensures var w, w' := worlds[k], worlds[k + 1];
      && (w.holder.Committing? || w.holder.Finished?) && CommittedTurn(w) < |w.turns|
      && var t := w.turns[CommittedTurn(w)];
      && |w'.successes| == |w.successes| + 1
      && ActiveTurns.DoneEvent(true) !in t.consumed
      && (forall e | e in t.consumed :: !(e.MessageEvent? && e.message.Failure?))
      && (Last(w'.successes).answer.toolCalls == [] ==>
            t.consumed != [] && Last(t.consumed) == ActiveTurns.DoneEvent(false))
      && (Last(w'.successes).answer.toolCalls != [] ==>
            ActiveTurns.CallEvent(Last(w'.successes).answer.toolCalls[0]) in t.consumed)
  {
    hide Turns.ValidCall, Shape, Coherent, Remembers, SuccessesSound, Collected, Admitted;
    RunKeepsInv(worlds, actions, k);
    RunIsUnfailing(worlds, actions, k);
    assert worlds[k + 1] == Gateway.Apply(worlds[k], actions[k]);
  }

  // Old turns.

  /** A step leaves the active turn, drops it, or installs the newest one. */
  lemma ActiveIsOldOrNew(w: World, a: Action)
    requires Gateway.Inv(w) && Gateway.Enabled(w, a) && !a.Crash?
    ensures var w' := Gateway.Apply(w, a);
      && w'.session.active in {w.session.active, None, Some(|w.turns|)}
      && |w'.turns| >= |w.turns|
  {
    hide Gateway.Inv, DecideTool, PlainExchange, ActiveTurns.Acceptable, Turns.ValidCall, Admitted;
    hide Turns.Apply, Turns.Enabled;
    if a.PlainRequest? {
      PlainKeepsActive(w, a.request, a.engine);
    }
  }

  lemma PlainKeepsActive(w: World, r: Request, engine: Engine)
    requires Gateway.Inv(w) && Gateway.Enabled(w, PlainRequest(r, engine))
    ensures PlainExchange(w.session, w.record, r, engine).session.active.None?
  {
    hide PlainExchange, TurnsSound, SuccessesSound, Shadowed, Gateway.HolderSound;
    PlainExchangeIsSound(w.session, w.record, w.heard, r, engine);
  }

  /** A turn that is not active never becomes active again. */
  lemma {:induction false} OldTurnsStayOld(worlds: seq<World>, actions: seq<Action>, k: nat, l: nat, i: nat)
    requires Run(worlds, actions) && k <= l < |worlds| && forall n | k <= n < l :: !actions[n].Crash?
    requires i < |worlds[k].turns| && worlds[k].session.active != Some(i)
    ensures |worlds[k].turns| <= |worlds[l].turns| && worlds[l].session.active != Some(i)
    decreases l - k
  {
    hide Gateway.Apply, Gateway.Enabled, Gateway.Inv;
    if k < l {
      OldTurnsStayOld(worlds, actions, k, l - 1, i);
      assert worlds[l - 1 + 1] == Gateway.Apply(worlds[l - 1], actions[l - 1]);
      RunKeepsInv(worlds, actions, l - 1);
      ActiveIsOldOrNew(worlds[l - 1], actions[l - 1]);
    }
  }

  /**
   Once a turn is no longer active, it is cancelled for good, and whatever its goroutines and its
   watcher do at any later time, the session, its record and every other turn stay.
   */
  lemma OldTurnsAreInert(worlds: seq<World>, actions: seq<Action>, k: nat, l: nat, i: nat)
    requires Run(worlds, actions) && k <= l < |worlds| && forall n | k <= n < l :: !actions[n].Crash?
    requires i < |worlds[k].turns| && worlds[k].session.active != Some(i)
    ensures i < |worlds[l].turns| && worlds[l].turns[i].st.cancelled && worlds[l].session.active != Some(i)
    ensures l < |actions| && (actions[l] == Watch(i) || (actions[l].TurnStep? && actions[l].turn == i)) ==>
      var w, w' := worlds[l], worlds[l + 1];
      && w' == w.(turns := w'.turns)
      && |w'.turns| == |w.turns|
      && forall j | 0 <= j < |w.turns| && j != i :: w'.turns[j] == w.turns[j]
  {
    hide Turns.Inv, Turns.Enabled, Turns.Apply;
    OldTurnsStayOld(worlds, actions, k, l, i);
    RunKeepsInv(worlds, actions, l);
    assert l < |actions| ==> worlds[l + 1] == Gateway.Apply(worlds[l], actions[l]);
  }

  /**
   The echo of a returned answer continues the session: if the client normalised to this
   request, then repeating its messages and the answer, plus anything, matches the history.
   */
  lemma EchoMatchesHistory(worlds: seq<World>, actions: seq<Action>, k: nat,
                           sent: seq<ChatMessage>, more: seq<ChatMessage>, next: seq<Message>)
    requires Run(worlds, actions) && k < |actions| && |worlds[k + 1].successes| > |worlds[k].successes|
    requires var r := match actions[k] case PlainRequest(r, _) => r case _ => RequestOf(worlds[k].holder);
      Normalized(sent) == Ok(r.messages)
    requires Normalized(sent + [Echo(Last(worlds[k + 1].successes).answer)] + more) == Ok(next)
    ensures MatchesHistoryPrefix(worlds[k + 1].session, next)
    ensures MatchesHistoryPrefix(worlds[k + 1].session.(history := None), next)
  {
    hide Gateway.Inv, Normalized, ValidAnswer, KeptPolicy, PlainExchange;
    var w' := worlds[k + 1];
    TranscriptIsConserved(worlds, actions, k);
    ToolChoiceIsKept(worlds, actions, k + 1, |w'.successes| - 1);
    EchoContinues(sent, Last(w'.successes).answer, more);
    RunKeepsInv(worlds, actions, k + 1);
    InvRemembers(w');
    HashAgreesWithPrefix(w'.session, w'.heard, next);
  }

  function RequestOf(h: Holder): Request {
    match h
    case Committing(r, _, _, _) => r
    case Finished(r, _, _, _) => r
    case _ => Request([], "", [], Auto)
  }

  lemma InvRemembers(w: World)
    requires Gateway.Inv(w)
    ensures Remembers(w.session, w.heard)
  {
  }
}
