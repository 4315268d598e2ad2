/** What eviction, a restart and a failed turn leave for the next request. */
module Restart {
  import opened Types
  import opened Spaces
  import opened History
  import opened Sessions
  import opened Gateway
  import Turns = TurnSystem
  import opened Runs
  import opened RoundTrip

  /** Both sessions send the request down the same path and decide it alike there. */
  ghost predicate SameDecision(a: Session, b: Session, r: Request)
    requires r.messages != []
  {
    && (TakesToolPath(a, r) <==> TakesToolPath(b, r))
    && if TakesToolPath(a, r) then DecideTool(a, r) == DecideTool(b, r) else Decide(a, r) == Decide(b, r)
  }

  ghost predicate SameForAll(a: Session, b: Session) {
    forall r | Admitted(r) :: SameDecision(a, b, r)
  }

  /** What a reachable resumable session has: an absolute directory and a transcript of well-formed messages. */
  ghost predicate Grounded(s: Session, heard: seq<Message>) {
    WellFormed(heard) && (s.resumeID != "" ==> AbsolutePath(s.cwd))
  }

  lemma ForgottenAlike(s: Session, record: Option<Record>, heard: seq<Message>, r: Request)
    requires Shape(s) && Coherent(s, record) && Remembers(s, heard) && r.messages != []
    requires record.Some? || Evicted(s).resumeID == ""
    ensures SameDecision(Evicted(s), Reloaded(record), r)
  {
    hide Promptable;
    HashAgreesWithPrefix(s, heard, r.messages);
  }

  /** The user says something more, in the same directory and without tools. */
  function GoOn(s: Session, heard: seq<Message>, said: string): Request {
    Request(heard + [Message(User, said, [], "")], s.cwd, [], Auto)
  }

  lemma ResumedOrReset(s: Session, heard: seq<Message>, said: string)
    requires Remembers(s, heard) && s.resumeID != "" && s.facade.None? && s.active.None?
    ensures var r := GoOn(s, heard, said);
      && !TakesToolPath(Evicted(s), r) && !TakesToolPath(Reloaded(None), r)
      && Decide(Evicted(s), r) == Decision(true, false, [Message(User, said, [], "")])
      && Decide(Reloaded(None), r) == Decision(false, true, r.messages)
  {
    var r := GoOn(s, heard, said);
    HashAgreesWithPrefix(s, heard, r.messages);
    assert r.messages[|heard|..] == [Message(User, said, [], "")];
  }

  /**
   A restart behaves as an eviction for every next request exactly when the session is recorded
   or has nothing to resume.
   */
  lemma RestartIsEvictionExactly(s: Session, record: Option<Record>, heard: seq<Message>)
    requires Shape(s) && Coherent(s, record) && Remembers(s, heard) && Grounded(s, heard)
    ensures SameForAll(Evicted(s), Reloaded(record)) <==> (record.Some? || Evicted(s).resumeID == "")
  {
    hide Shape, Coherent, Remembers, SameDecision;
    if record.Some? || Evicted(s).resumeID == "" {
      forall r | Admitted(r)
        ensures SameDecision(Evicted(s), Reloaded(record), r)
      {
        ForgottenAlike(s, record, heard, r);
      }
    } else {
      var r := GoOn(s, heard, "go on");
      ResumedOrReset(s, heard, "go on");
      assert Admitted(r);
      DifferentDecisions(Evicted(s), Reloaded(record), r);
    }
  }

  lemma DifferentDecisions(a: Session, b: Session, r: Request)
    requires r.messages != [] && !TakesToolPath(a, r) && Decide(a, r) != Decide(b, r)
    ensures !SameDecision(a, b, r)
  {
  }

  // Every reachable session is grounded.

  lemma PlainStaysGrounded(s: Session, record: Option<Record>, r: Request, engine: Engine)
    requires AbsolutePath(r.cwd) && (s.resumeID != "" ==> AbsolutePath(s.cwd))
    ensures var e := PlainExchange(s, record, r, engine);
      e.session.resumeID != "" ==> AbsolutePath(e.session.cwd)
  {
    hide Promptable, AbsolutePath;
  }

  lemma StepStaysGrounded(w: World, a: Action)
    requires Gateway.Inv(w) && Gateway.Enabled(w, a) && Grounded(w.session, w.heard)
    ensures var w' := Gateway.Apply(w, a); Grounded(w'.session, w'.heard)
  {
    hide Gateway.Inv, PlainExchange, DecideTool, Turns.Apply, Turns.Enabled, WellFormed, Admitted, AbsolutePath;
    match a
    case PlainRequest(r, engine) => PlainRequestStaysGrounded(w, r, engine);
    case Commit(resumeID) => CommitStaysGrounded(w, resumeID);
    case Install => LaunchStaysGrounded(w);
    case StartFails => LaunchStaysGrounded(w);
    case Crash => CrashStaysGrounded(w);
    case _ =>
  }

  lemma PlainRequestStaysGrounded(w: World, r: Request, engine: Engine)
    requires Gateway.Inv(w) && Gateway.Enabled(w, PlainRequest(r, engine)) && Grounded(w.session, w.heard)
    ensures var w' := Gateway.Apply(w, PlainRequest(r, engine)); Grounded(w'.session, w'.heard)
  {
    hide PlainExchange, Gateway.Inv, AbsolutePath;
    PlainStaysGrounded(w.session, w.record, r, engine);
    PlainConserves(w, r, engine);
    PlainAnswersPlainly(w, r, engine);
  }

  lemma PlainAnswersPlainly(w: World, r: Request, engine: Engine)
    requires Gateway.Inv(w) && Gateway.Enabled(w, PlainRequest(r, engine))
    ensures var reply := PlainExchange(w.session, w.record, r, engine).reply;
      reply.Answered? ==> reply.answer.role.Assistant? && reply.answer.toolCallID == ""
  {
    hide PlainExchange, TurnsSound, SuccessesSound, HolderSound;
    PlainExchangeIsSound(w.session, w.record, w.heard, r, engine);
  }

  lemma CommitStaysGrounded(w: World, resumeID: string)
    requires Gateway.Inv(w) && Gateway.Enabled(w, Commit(resumeID)) && Grounded(w.session, w.heard)
    ensures var w' := Gateway.Apply(w, Commit(resumeID)); Grounded(w'.session, w'.heard)
  {
    hide Turns.Outstanding, Collected, Shape, Coherent, Remembers, TurnsSound, SuccessesSound, AbsolutePath;
    CommitConserves(w, resumeID);
  }

  lemma LaunchStaysGrounded(w: World)
    requires Gateway.Inv(w) && w.holder.Launching?
    requires WellFormed(w.heard)
    ensures Grounded(Installed(w).session, Installed(w).heard)
    ensures Grounded(Gateway.StartFailed(w).session, Gateway.StartFailed(w).heard)
  {
    hide Turns.Inv, Shape, Coherent, Remembers, TurnsSound, SuccessesSound, AbsolutePath;
  }

  lemma CrashStaysGrounded(w: World)
    requires Gateway.Inv(w) && Grounded(w.session, w.heard)
    ensures Grounded(Reloaded(w.record), if w.record.Some? then w.heard else [])
  {
    hide HolderSound, TurnsSound, SuccessesSound, Shape, Remembers;
  }

  lemma {:induction false} RunStaysGrounded(worlds: seq<World>, actions: seq<Action>, k: nat)
    requires Run(worlds, actions) && k < |worlds|
    ensures Grounded(worlds[k].session, worlds[k].heard)
  {
    hide Gateway.Apply, Gateway.Enabled, Gateway.Inv;
    if k > 0 {
      RunStaysGrounded(worlds, actions, k - 1);
      RunKeepsInv(worlds, actions, k - 1);
      assert worlds[k - 1 + 1] == Gateway.Apply(worlds[k - 1], actions[k - 1]);
      StepStaysGrounded(worlds[k - 1], actions[k - 1]);
    }
  }

  lemma InvMeans(w: World)
    requires Gateway.Inv(w)
    ensures Shape(w.session) && Coherent(w.session, w.record) && Remembers(w.session, w.heard)
    ensures w.holder.Free? && w.lastPlain ==> w.session.active.None? && w.session.facade.None?
    ensures w.lastPlain && w.session.resumeID != "" ==> w.record.Some?
  {
  }

  /** In every reachable world the same condition decides, over the requests the gateway admits. */
  lemma RestartAgainstEviction(worlds: seq<World>, actions: seq<Action>, k: nat)
    requires Run(worlds, actions) && k < |worlds|
    ensures var w := worlds[k];
      SameForAll(Evicted(w.session), Reloaded(w.record)) <==> (w.record.Some? || Evicted(w.session).resumeID == "")
  {
    hide Gateway.Inv, Run, SameForAll, Grounded, Shape, Coherent, Remembers;
    RunKeepsInv(worlds, actions, k);
    RunStaysGrounded(worlds, actions, k);
    InvMeans(worlds[k]);
    RestartIsEvictionExactly(worlds[k].session, worlds[k].record, worlds[k].heard);
  }

  /**
   Restart refines eviction: while the last successful exchange took the plain path, the next
   request is decided alike after idle eviction, after a crash and reload, and after a failed
   turn that reset nothing but killed the process.
   */
  lemma RestartRefinesEviction(worlds: seq<World>, actions: seq<Action>, k: nat, r: Request)
    requires Run(worlds, actions) && k < |worlds| && worlds[k].holder.Free? && worlds[k].lastPlain && Admitted(r)
    ensures var w := worlds[k];
      && SameDecision(Evicted(w.session), Reloaded(w.record), r)
      && SameDecision(Evicted(w.session), w.session.(process := None, history := None), r)
      && Gateway.Apply(w, Crash).session == Reloaded(w.record)
  {
    hide Gateway.Inv, SameDecision, Shape, Coherent, Remembers, Run, Promptable;
    RunKeepsInv(worlds, actions, k);
    var w := worlds[k];
    InvMeans(w);
    ForgottenAlike(w.session, w.record, w.heard, r);
    KilledAlike(w.session, w.heard, r);
  }

  lemma KilledAlike(s: Session, heard: seq<Message>, r: Request)
    requires Remembers(s, heard) && s.active.None? && s.facade.None? && r.messages != []
    ensures SameDecision(Evicted(s), s.(process := None, history := None), r)
  {
    hide Promptable;
    HashAgreesWithPrefix(s, heard, r.messages);
  }

  /** The failed turn meant above: a continued or resumed turn whose run ends in any error but a lost session. */
  lemma FailedTurnKeepsShadow(s: Session, record: Option<Record>, r: Request, engine: Engine)
    requires !Decide(s, r).reset && Promptable(Decide(s, r).delta)
    requires engine.opens && (s.process.Some? || engine.start.Started?)
    requires engine.run.RunFailed? || (engine.run.RunMissing? && (s.process.Some? || !engine.run.textEmpty))
    ensures PlainExchange(s, record, r, engine) == Exchange(s.(process := None, history := None), record, Failed)
  {
  }

  /**
   A failed turn commits nothing: repeated, its request sends the same slice once more to the
   resumed native session, or everything to a new one.
   */
  lemma FailedTurnIsResent(s: Session, record: Option<Record>, heard: seq<Message>, r: Request, engine: Engine)
    requires Remembers(s, heard) && !Decide(s, r).reset && Promptable(Decide(s, r).delta)
    requires engine.opens && (s.process.Some? || engine.start.Started?)
    requires engine.run.RunFailed? || (engine.run.RunMissing? && (s.process.Some? || !engine.run.textEmpty))
    ensures Decide(PlainExchange(s, record, r, engine).session, r) ==
      if s.resumeID != "" then Decision(true, false, Decide(s, r).delta) else Decision(false, true, r.messages)
  {
    hide Promptable, PlainExchange;
    FailedTurnKeepsShadow(s, record, r, engine);
    HashAgreesWithPrefix(s, heard, r.messages);
  }

  /**
   A resume id without a record is reached: a session with an idle facade gets a request without
   tools, starts over on the tool path, and commits a resume id that is never saved. Evicted, it
   would resume for the user's next words; reloaded, it starts over.
   */
  lemma UnsavedResumeIDIsReachable(r: Request, call: ToolCall, plain: Request, id: string, said: string)
    returns (w: World, next: Request)
    requires FirstRequest(r, call) && !r.policy.Required? && !r.policy.Named? && id != ""
    requires Admitted(plain) && plain.tools == [] && !Last(plain.messages).role.Tool? && Promptable(plain.messages)
    ensures Reachable(w) && w.holder.Free? && w.record.None? && Evicted(w.session).resumeID == id
    ensures Admitted(next) && !TakesToolPath(Evicted(w.session), next)
    ensures Decide(Evicted(w.session), next) == Decision(true, false, [Message(User, said, [], "")])
    ensures Decide(Reloaded(w.record), next) == Decision(false, true, next.messages)
  {
    hide Reachable, Promptable, Turns.ValidCall;
    var loop := FirstLoop(r, call);
    var idle := Completing(loop, "");
    assert DecideTool(idle.session, plain) == Launch(true, plain.messages);
    var second := Relaunching(idle, plain);
    w := Completing(second, id);
    var heard := plain.messages + [AssistantMessage("", [])];
    next := GoOn(w.session, heard, said);
    ResumedOrReset(w.session, heard, said);
  }

  // A dead facade.

  /**
   A dead facade makes the next user turn of the same session start over; if its transcript
   holds tool messages that turn is refused, and exactly then, but the retry is launched.
   */
  lemma DeadFacadeRefusesOnce(s: Session, r: Request)
    requires r.messages != [] && !Last(r.messages).role.Tool? && Promptable(r.messages)
    requires SameToolSession(s, r) && s.active.None? && s.facade.Some? && !s.facade.value.alive
    ensures DecideTool(s, r) == RejectUser(true) <==> exists m | m in r.messages :: m.role.Tool?
    ensures DecideTool(s, r) != RejectUser(true) ==> DecideTool(s, r) == Launch(true, r.messages)
    ensures DecideTool(Cleared(s), r) == Launch(true, r.messages)
  {
  }

  /**
   The refusal is reached: after any completed call the facade dies, the user's next words are
   refused and the session cleared, and the same words, sent again, start a turn.
   */
  lemma DeadFacadeIsReachable(r: Request, call: ToolCall, content: string, policy: Policy, said: string)
    returns (dead: World, refused: World, again: World)
    requires FirstRequest(r, call) && !policy.Required? && !policy.Named? && !Blank(said)
    ensures var u := NextWords(r, call, content, policy, said);
      && Reachable(dead) && dead.holder.Free? && Admitted(u) && TakesToolPath(dead.session, u)
      && DecideTool(dead.session, u) == RejectUser(true)
      && refused == Gateway.Apply(Gateway.Apply(dead, ToolRequest(u)), FinishClear)
      && Reachable(refused) && refused.holder.Free? && refused.session == Cleared(dead.session)
      && Reachable(again) && again.holder == Consuming(u, u.messages, NOTHING)
  {
    assert r.tools != [];
    hide Reachable, Promptable, FirstRequest, Admitted, Blank;
    var u := NextWords(r, call, content, policy, said);
    NextWordsAreFit(r, call, content, policy, said);
    var rest, end := CallCanComplete(r, call, content, policy);
    dead := FacadeDeath(end);
    AfterDeath(end.session, dead.session, r, call, content, policy, said);
    refused := Refusal(dead, u);
    again := Relaunching(refused, u);
  }

  lemma FacadeDeath(w: World) returns (dead: World)
    requires Reachable(w) && w.holder.Free? && w.session.facade.Some?
    ensures Reachable(dead) && dead.holder.Free?
    ensures dead.session == w.session.(facade := Some(w.session.facade.value.(alive := false)))
  {
    hide Reachable;
    Step(w, FacadeDies);
    dead := Gateway.Apply(w, FacadeDies);
  }

  lemma AfterDeath(s: Session, dead: Session, r: Request, call: ToolCall, content: string, policy: Policy, said: string)
    requires FirstRequest(r, call)
    requires s == Committed(Unbound(Committed(Launched(FRESH, r, 0), r.messages, AssistantMessage("", [call]), "")),
                            ResultRequest(r, call, content, policy).messages, AssistantMessage("", []), "")
    requires dead == s.(facade := Some(s.facade.value.(alive := false)))
    requires Promptable(NextWords(r, call, content, policy, said).messages)
    ensures var u := NextWords(r, call, content, policy, said);
      && dead.active.None? && TakesToolPath(dead, u) && TakesToolPath(Cleared(dead), u)
      && DecideTool(dead, u) == RejectUser(true) && DecideTool(Cleared(dead), u) == Launch(true, u.messages)
  {
    hide Promptable, Turns.ValidCall, Admitted;
    var before, u := ResultRequest(r, call, content, policy), NextWords(r, call, content, policy, said);
    assert u.messages == before.messages + [AssistantMessage("", [])] + [Message(User, said, [], "")];
    assert Last(before.messages) in u.messages;
    DeadFacadeRefusesOnce(dead, u);
  }

  lemma Refusal(w: World, u: Request) returns (refused: World)
    requires Reachable(w) && w.holder.Free? && w.session.active.None?
    requires Admitted(u) && TakesToolPath(w.session, u) && DecideTool(w.session, u) == RejectUser(true)
    ensures refused == Gateway.Apply(Gateway.Apply(w, ToolRequest(u)), FinishClear)
    ensures Reachable(refused) && refused.holder.Free? && refused.session == Cleared(w.session)
  {
    hide Reachable, DecideTool, Admitted;
    Step(w, ToolRequest(u));
    var w1 := Gateway.Apply(w, ToolRequest(u));
    Step(w1, FinishClear);
    refused := Gateway.Apply(w1, FinishClear);
  }

  // The load filter.

  /**
   A stored record is loaded if it could ever be resumed: what the filter drops resumes for no
   request, and a kept one that counts the transcript it is the hash of resumes for the next words.
   */
  lemma LoadedIsResumable(key: string, r: Record, heard: seq<Message>, said: string)
    requires key != "" && AbsolutePath(r.cwd) && r.historyHash in {NoDigest, TranscriptHash(heard)}
    ensures !Loadable(key, r) ==> forall next :: !Decide(Reloaded(Some(r)), next).resume
    ensures Loadable(key, r) && r.historyCount == |heard| ==>
      Decide(Reloaded(Some(r)), GoOn(Reloaded(Some(r)), heard, said))
      == Decision(true, false, [Message(User, said, [], "")])
  {
    var next := GoOn(Reloaded(Some(r)), heard, said);
    assert next.messages[..|heard|] == heard && next.messages[|heard|..] == [Message(User, said, [], "")];
  }
}
