/**
 A session's fields and the decisions taken on them (registry.go, and the session part of
 server.go and tool_chat.go), as values. The classes in SessionObjects are proved against
 these functions.
 */
module Sessions {
  import opened Types
  import opened History

  // The fields of the private MCP listener that decisions depend on.
  datatype Facade = Facade(tools: seq<FunctionTool>, active: Option<nat>, alive: bool)

  // A live agent process, with the toolset of the MCP servers it was started with.
  datatype Process = Process(tools: seq<FunctionTool>)

  datatype Session = Session(
    active: Option<nat>,
    facade: Option<Facade>,
    toolHash: ToolHash,
    process: Option<Process>,
    history: Option<seq<Message>>,       // None is Go's nil
    historyCount: nat,
    historyHash: Digest,
    resumeID: string,
    cwd: string)

  datatype Record = Record(resumeID: string, cwd: string, historyCount: nat, historyHash: Digest)

  // What handleChat has after validation: normalised messages and tools, an absolute directory.
  datatype Request = Request(messages: seq<Message>, cwd: string, tools: seq<FunctionTool>, policy: Policy)

  function TranscriptHash(messages: seq<Message>): Digest {
    DigestOf(messages)
  }

  predicate AbsolutePath(path: string) {
    path != "" && path[0] == '/'
  }

  ghost predicate WellFormed(messages: seq<Message>) {
    forall m | m in messages :: (m.toolCalls != [] ==> m.role.Assistant?) && (m.role.Tool? <==> m.toolCallID != "")
  }

  ghost predicate Admitted(r: Request) {
    && r.messages != [] && WellFormed(r.messages)
    && AbsolutePath(r.cwd)
    && (forall f | f in r.tools :: ValidName(f.name))
    && (r.policy.Named? ==> exists f | f in r.tools :: f.name == r.policy.name)
    && (r.tools == [] ==> r.policy.Auto? || r.policy.Never?)
  }

  const FRESH := Session(None, None, NoTools, None, None, 0, NoDigest, "", "")

  function PersistedHistoryCount(s: Session): nat {
    if s.history.Some? then |s.history.value| else s.historyCount
  }

  predicate MatchesHistoryPrefix(s: Session, messages: seq<Message>)
    ensures MatchesHistoryPrefix(s, messages) ==> PersistedHistoryCount(s) <= |messages|
  {
    if s.history.Some? then s.history.value <= messages
    else if s.historyCount <= 0 || s.historyCount > |messages| || s.historyHash == NoDigest then false
    else TranscriptHash(messages[..s.historyCount]) == s.historyHash
  }

  function Stopped(s: Session): Session {
    s.(active := None, facade := None, process := None)
  }

  function Cleared(s: Session): Session {
    Stopped(s).(toolHash := NoTools, history := None, historyCount := 0, historyHash := NoDigest, resumeID := "")
  }

  /** Idle eviction: a tool session is forgotten, a plain one only loses its process. */
  function Evicted(s: Session): Session {
    if s.facade.Some? || s.active.Some? then Cleared(s) else Stopped(s)
  }

  /** What a restarted gateway starts a session from. */
  function Reloaded(record: Option<Record>): Session {
    match record
    case None => FRESH
    case Some(r) =>
      FRESH.(resumeID := r.resumeID, cwd := r.cwd, historyCount := r.historyCount, historyHash := r.historyHash)
  }

  /** The filter applied when the store file is loaded. */
  predicate Loadable(key: string, r: Record) {
    key != "" && r.resumeID != "" && AbsolutePath(r.cwd) && r.historyCount > 0 && r.historyHash != NoDigest
  }

  function RecordOf(s: Session): Record {
    Record(s.resumeID, s.cwd, s.historyCount, s.historyHash)
  }

  predicate TakesToolPath(s: Session, r: Request)
    requires r.messages != []
  {
    r.tools != [] || s.facade.Some? || s.active.Some? || Last(r.messages).role.Tool?
  }

  // The plain path.

  datatype Decision = Decision(resume: bool, reset: bool, delta: seq<Message>)

  function Decide(s: Session, r: Request): Decision {
    var continuation := s.cwd == r.cwd && MatchesHistoryPrefix(s, r.messages);
    var resume := s.process.None? && s.resumeID != "" && continuation;
    var reset := !continuation || (s.process.None? && !resume);
    Decision(resume, reset, if reset then r.messages else r.messages[PersistedHistoryCount(s)..])
  }

  datatype StartResult = Started | StartMissing | StartFailed

  // How a native turn ends: done with a text and the resume id it reported ("" for none), the
  // native session unknown (with or without text already out), or any other error.
  datatype RunResult = Done(text: string, resumeID: string) | RunMissing(textEmpty: bool) | RunFailed

  // What the engine does at each point where a plain exchange calls it, and whether the
  // response stream, if one is asked for, could be opened.
  datatype Engine = Engine(
    start: StartResult,
    restart: StartResult,
    opens: bool,
    run: RunResult,
    lateStart: StartResult,
    lateRun: RunResult)

  /** How an exchange ended; for a success, what its native session was sent and whether it was new. */
  datatype Reply = Rejected | Failed | Answered(anew: bool, slice: seq<Message>, answer: Message)

  datatype Exchange = Exchange(session: Session, record: Option<Record>, reply: Reply)

  function Committed(s: Session, messages: seq<Message>, answer: Message, resumeID: string): Session {
    s.(history := Some(messages + [answer]),
       historyCount := |messages| + 1,
       historyHash := TranscriptHash(messages + [answer]),
       resumeID := if resumeID != "" then resumeID else s.resumeID)
  }

  /** A turn that ended with a text: commit and, with a resume id, save the record. */
  function PlainSuccess(s: Session, record: Option<Record>, r: Request, anew: bool, slice: seq<Message>,
                        text: string, resumeID: string): Exchange {
    var answer := AssistantMessage(text, []);
    var s' := Committed(s, r.messages, answer, resumeID);
    Exchange(s', if s'.resumeID != "" then Some(RecordOf(s')) else record, Answered(anew, slice, answer))
  }

  /** A turn that failed: the process is stopped and the live history dropped, the rest stays. */
  function PlainFailure(s: Session, record: Option<Record>): Exchange {
    Exchange(s.(process := None, history := None), record, Failed)
  }

  function StartPlain(s: Session, cwd: string): Session {
    s.(process := Some(Process([])), cwd := cwd)
  }

  function RunPlain(s: Session, record: Option<Record>, r: Request, anew: bool, resume: bool, slice: seq<Message>,
                    engine: Engine): Exchange {
    if !engine.opens then Exchange(s, record, Failed)
    else match engine.run
    case Done(text, resumeID) => PlainSuccess(s, record, r, anew, slice, text, resumeID)
    case RunMissing(true) =>
      if !resume then PlainFailure(s, record)
      else if !Promptable(r.messages) || engine.lateStart != Started then PlainFailure(Cleared(s), None)
      else
        var again := StartPlain(Cleared(s), r.cwd);
        (match engine.lateRun
         case Done(text, resumeID) => PlainSuccess(again, None, r, true, r.messages, text, resumeID)
         case _ => PlainFailure(again, None))
    case _ => PlainFailure(s, record)
  }

  /** handleChat once it has decided what to send: the prompt check, the start and its retry, the run. */
  function ServePlain(s: Session, record: Option<Record>, r: Request, resume: bool, delta: seq<Message>,
                      engine: Engine): Exchange
  {
    if !Promptable(delta) then Exchange(s, record, Rejected)
    else if s.process.Some? then RunPlain(s, record, r, false, resume, delta, engine)
    else match engine.start
      case Started => RunPlain(StartPlain(s, r.cwd), record, r, !resume, resume, delta, engine)
      case StartMissing =>
        if resume then
          (if Promptable(r.messages) && engine.restart == Started
           then RunPlain(StartPlain(Cleared(s), r.cwd), None, r, true, false, r.messages, engine)
           else Exchange(Cleared(s), None, Failed))
        else Exchange(s, record, Failed)
      case StartFailed => Exchange(s, record, Failed)
  }

  /** handleChat after validation, for a session that does not take the tool path. */
  function PlainExchange(s: Session, record: Option<Record>, r: Request, engine: Engine): Exchange {
    var d := Decide(s, r);
    ServePlain(if d.reset then Cleared(s) else s, if d.reset then None else record, r, d.resume, d.delta, engine)
  }

  /** Neither the session nor the reply depends on the record: it is written, never read. */
  lemma RecordIsNotRead(s: Session, a: Option<Record>, b: Option<Record>, r: Request, anew: bool, resume: bool,
                        slice: seq<Message>, engine: Engine)
    ensures var x, y := RunPlain(s, a, r, anew, resume, slice, engine), RunPlain(s, b, r, anew, resume, slice, engine);
      && x.session == y.session && x.reply == y.reply
      && (x.record == y.record || (x.record == a && y.record == b))
  {
    hide Promptable;
  }

  lemma ServingReadsNoRecord(s: Session, a: Option<Record>, b: Option<Record>, r: Request, resume: bool,
                             delta: seq<Message>, engine: Engine)
    ensures var x, y := ServePlain(s, a, r, resume, delta, engine), ServePlain(s, b, r, resume, delta, engine);
      && x.session == y.session && x.reply == y.reply
      && (x.record == y.record || (x.record == a && y.record == b))
  {
    hide Promptable, RunPlain;
    RecordIsNotRead(s, a, b, r, false, resume, delta, engine);
    RecordIsNotRead(StartPlain(s, r.cwd), a, b, r, !resume, resume, delta, engine);
  }

  // The tool path.

  datatype ToolDecision =
    | RejectResult(clear: bool)
    | ResolveWith(batch: seq<Message>)
    | TurnPending
    | RejectUser(clear: bool)
    | Launch(clear: bool, delta: seq<Message>)

  predicate SameToolSession(s: Session, r: Request) {
    s.cwd == r.cwd && s.toolHash == ToolHashOf(r.tools) && MatchesHistoryPrefix(s, r.messages)
  }

  function DecideTool(s: Session, r: Request): ToolDecision
    requires r.messages != []
  {
    var same := SameToolSession(s, r);
    if Last(r.messages).role.Tool? then
      if s.active.Some? && (s.cwd != r.cwd || s.toolHash != ToolHashOf(r.tools)) then RejectResult(true)
      else if s.active.None? || !same then RejectResult(false)
      else ResolveWith(r.messages[PersistedHistoryCount(s)..])
    else if same && s.active.Some? then TurnPending
    else
      var keep := same && s.process.Some? && (s.facade.None? || s.facade.value.alive);
      var delta := if keep then r.messages[PersistedHistoryCount(s)..] else r.messages;
      if same && exists m | m in delta :: m.role.Tool? then RejectUser(!keep)
      else if !Promptable(delta) then RejectUser(!keep)
      else Launch(!keep, delta)
  }

  /** The request repeats the transcript the session remembers, in its directory and with its tools. */
  ghost predicate SameSession(s: Session, heard: seq<Message>, r: Request) {
    s.cwd == r.cwd && s.toolHash == ToolHashOf(r.tools) && s.historyCount > 0 && heard <= r.messages
  }

  ghost predicate HasResults(messages: seq<Message>) {
    exists m | m in messages :: m.role.Tool?
  }

  /** A process runs, and its facade, if it has one, is alive. */
  predicate CanContinue(s: Session) {
    s.active.None? && s.process.Some? && (s.facade.None? || s.facade.value.alive)
  }

  /**
   The decision on a user's request, in full. In the same session it waits for an active turn, or
   continues a live process with exactly what is new, clearing nothing; anything else starts over
   with the whole transcript. Refused are results from the same session, and what cannot be
   prompted.
   */
  lemma UserDecision(s: Session, heard: seq<Message>, r: Request)
    requires Remembers(s, heard) && r.messages != [] && !Last(r.messages).role.Tool?
    ensures var d, same := DecideTool(s, r), SameSession(s, heard, r);
      && (d == TurnPending <==> same && s.active.Some?)
      && (same && CanContinue(s) ==>
            var rest := r.messages[|heard|..];
            d == if HasResults(rest) || !Promptable(rest) then RejectUser(false) else Launch(false, rest))
      && (!(same && (s.active.Some? || CanContinue(s))) ==>
            d == if (same && HasResults(r.messages)) || !Promptable(r.messages) then RejectUser(true)
                 else Launch(true, r.messages))
  {
    hide Promptable;
    HashAgreesWithPrefix(s, heard, r.messages);
  }

  /** The decision on a request that ends with a tool result, in full. */
  lemma ResultDecision(s: Session, heard: seq<Message>, r: Request)
    requires Remembers(s, heard) && r.messages != [] && Last(r.messages).role.Tool?
    ensures DecideTool(s, r) ==
      if s.active.Some? && (s.cwd != r.cwd || s.toolHash != ToolHashOf(r.tools)) then RejectResult(true)
      else if s.active.Some? && SameSession(s, heard, r) then ResolveWith(r.messages[|heard|..])
      else RejectResult(false)
  {
    HashAgreesWithPrefix(s, heard, r.messages);
  }

  /** The session once a turn is installed and its process runs. */
  function Launched(s: Session, r: Request, turn: nat): Session {
    var facade := if s.process.None? && r.tools != [] then Some(Facade(r.tools, None, true)) else s.facade;
    var bound := if facade.Some? then Some(facade.value.(active := Some(turn))) else None;
    s.(active := Some(turn), facade := bound, toolHash := ToolHashOf(r.tools), cwd := r.cwd,
       process := if s.process.Some? then s.process else Some(Process(if bound.Some? then bound.value.tools else [])))
  }

  function Unbound(s: Session): Session {
    s.(active := None, facade := if s.facade.Some? then Some(s.facade.value.(active := None)) else None)
  }

  // Invariants of a session whose lock is free.

  /** A turn or a facade needs a live process field, and the hash and the process agree on the served tools. */
  ghost predicate Shape(s: Session) {
    && (s.active.Some? || s.facade.Some? ==> s.process.Some?)
    && (s.facade.Some? ==> s.facade.value.active == s.active && s.facade.value.tools != [])
    && s.toolHash == ToolHashOf(if s.facade.Some? then s.facade.value.tools else [])
    && (s.process.Some? ==> s.process.value.tools == if s.facade.Some? then s.facade.value.tools else [])
  }

  /** A record mirrors its session, could be loaded, and excludes tool sessions. */
  ghost predicate Coherent(s: Session, record: Option<Record>) {
    record.Some? ==>
      && record.value == RecordOf(s)
      && s.active.None? && s.facade.None?
      && s.resumeID != "" && AbsolutePath(s.cwd) && s.historyCount > 0 && s.historyHash != NoDigest
  }

  /** Live history, count and hash all describe what the native session has been told. */
  ghost predicate Remembers(s: Session, heard: seq<Message>) {
    && (s.historyCount > 0 ==> s.historyCount == |heard| && s.historyHash == TranscriptHash(heard))
    && (s.historyCount == 0 ==> s.historyHash == NoDigest)
    && (s.history.Some? ==> s.historyCount > 0 && s.history.value == heard)
    && (heard != [] ==> Last(heard).role.Assistant?)
    && (s.resumeID != "" ==> s.historyCount > 0)
  }

  /** Prefix by transcript and prefix by count and hash are the same test. */
  lemma HashAgreesWithPrefix(s: Session, heard: seq<Message>, messages: seq<Message>)
    requires Remembers(s, heard)
    ensures MatchesHistoryPrefix(s, messages) <==> s.historyCount > 0 && heard <= messages
    ensures s.historyCount > 0 ==> PersistedHistoryCount(s) == |heard|
    ensures MatchesHistoryPrefix(s, messages) <==> MatchesHistoryPrefix(s.(history := None), messages)
  {
  }

  // What a plain exchange keeps.

  /** A session that the plain path may hold: no turn, no facade. */
  ghost predicate PlainSound(s: Session, record: Option<Record>, heard: seq<Message>) {
    && Shape(s) && Coherent(s, record) && Remembers(s, heard)
    && s.active.None? && s.facade.None?
  }

  ghost predicate Recorded(s: Session, record: Option<Record>) {
    s.resumeID != "" ==> record == Some(RecordOf(s))
  }

  /** The native session's committed transcript after an exchange. */
  function HeardAfter(heard: seq<Message>, reply: Reply): seq<Message> {
    match reply
    case Answered(anew, slice, answer) => (if anew then [] else heard) + slice + [answer]
    case _ => heard
  }

  /** Every way a plain exchange may end, given what held before. */
  ghost predicate PlainOutcome(s: Session, record: Option<Record>, heard: seq<Message>, r: Request, e: Exchange) {
    && PlainSound(e.session, e.record, HeardAfter(heard, e.reply))
    && (e.reply.Answered? ==>
          && HeardAfter(heard, e.reply) == r.messages + [e.reply.answer]
          && e.session.history == Some(r.messages + [e.reply.answer])
          && e.reply.answer.role.Assistant? && e.reply.answer.toolCalls == [] && e.reply.answer.toolCallID == ""
          && Recorded(e.session, e.record))
    && (!e.reply.Answered? ==> e.session.history.None? || e.session.history == s.history)
    && (Recorded(s, record) ==> Recorded(e.session, e.record))
  }

  lemma FailureIsSound(s: Session, record: Option<Record>, heard: seq<Message>, r: Request)
    requires PlainSound(s, record, heard)
    ensures PlainOutcome(s, record, heard, r, PlainFailure(s, record))
  {
  }

  lemma UnchangedIsSound(s: Session, record: Option<Record>, heard: seq<Message>, r: Request, reply: Reply)
    requires PlainSound(s, record, heard) && !reply.Answered?
    ensures PlainOutcome(s, record, heard, r, Exchange(s, record, reply))
  {
  }

  /** A process started on the plain path serves no tools. */
  lemma StartingIsSound(s: Session, record: Option<Record>, heard: seq<Message>, cwd: string)
    requires PlainSound(s, record, heard) && (record.Some? ==> s.cwd == cwd)
    ensures PlainSound(StartPlain(s, cwd), record, heard)
    ensures Recorded(s, record) ==> Recorded(StartPlain(s, cwd), record)
  {
  }

  lemma SoundMeans(s: Session, record: Option<Record>, heard: seq<Message>)
    requires PlainSound(s, record, heard)
    ensures heard != [] ==> Last(heard).role.Assistant?
    ensures s.process.Some? ==> s.process == Some(Process([]))
    ensures Remembers(s, heard) && (record.Some? ==> s.resumeID != "" && record == Some(RecordOf(s)))
  {
  }

  lemma ClearingIsSound(s: Session, heard: seq<Message>)
    requires heard != [] ==> Last(heard).role.Assistant?
    ensures PlainSound(Cleared(s), None, heard) && Recorded(Cleared(s), None)
  {
  }

  lemma SuccessIsSound(s: Session, record: Option<Record>, heard: seq<Message>, r: Request, anew: bool,
                       slice: seq<Message>, text: string, resumeID: string)
    requires PlainSound(s, record, heard) && s.process == Some(Process([])) && s.cwd == r.cwd && AbsolutePath(r.cwd)
    requires (if anew then [] else heard) + slice == r.messages
    requires record.Some? ==> s.resumeID != ""
    ensures PlainOutcome(s, record, heard, r, PlainSuccess(s, record, r, anew, slice, text, resumeID))
  {
    var answer := AssistantMessage(text, []);
    assert (if anew then [] else heard) + slice + [answer] == r.messages + [answer];
  }

  /** The outcome of a later stage is the outcome of the whole when what held before still does. */
  lemma OutcomeComposes(s: Session, record: Option<Record>, s1: Session, record1: Option<Record>,
                        heard: seq<Message>, r: Request, e: Exchange)
    requires PlainOutcome(s1, record1, heard, r, e)
    requires Recorded(s, record) ==> Recorded(s1, record1)
    requires s1.history.None? || s1.history == s.history
    ensures PlainOutcome(s, record, heard, r, e)
  {
    hide PlainSound, Recorded;
  }

  lemma RunIsSound(s: Session, record: Option<Record>, heard: seq<Message>, r: Request, anew: bool, resume: bool,
                   slice: seq<Message>, engine: Engine)
    requires PlainSound(s, record, heard) && s.process == Some(Process([])) && s.cwd == r.cwd && AbsolutePath(r.cwd)
    requires (if anew then [] else heard) + slice == r.messages
    ensures PlainOutcome(s, record, heard, r, RunPlain(s, record, r, anew, resume, slice, engine))
  {
    assert record.Some? ==> s.resumeID != "";
    assert heard != [] ==> Last(heard).role.Assistant?;
    var cleared := Cleared(s);
    var again := StartPlain(cleared, r.cwd);
    ClearingIsSound(s, heard);
    assert PlainSound(again, None, heard) && again.history.None? && again.resumeID == "";
    hide PlainSound, PlainOutcome;
    UnchangedIsSound(s, record, heard, r, Failed);
    FailureIsSound(s, record, heard, r);
    FailureIsSound(cleared, None, heard, r);
    FailureIsSound(again, None, heard, r);
    match engine.run
    case Done(text, resumeID) =>
      SuccessIsSound(s, record, heard, r, anew, slice, text, resumeID);
    case _ =>
      OutcomeComposes(s, record, cleared, None, heard, r, PlainFailure(cleared, None));
      OutcomeComposes(s, record, again, None, heard, r, PlainFailure(again, None));
      if engine.lateRun.Done? {
        assert [] + r.messages == r.messages;
        SuccessIsSound(again, None, heard, r, true, r.messages, engine.lateRun.text, engine.lateRun.resumeID);
        OutcomeComposes(s, record, again, None, heard, r,
          PlainSuccess(again, None, r, true, r.messages, engine.lateRun.text, engine.lateRun.resumeID));
      }
  }

  /** What the decision means for the native session: the slice completes what it has heard. */
  lemma DeltaCompletesHeard(s: Session, heard: seq<Message>, r: Request)
    requires Remembers(s, heard)
    ensures var d := Decide(s, r);
      && (!d.reset <==> s.cwd == r.cwd && s.historyCount > 0 && heard <= r.messages
                        && (s.process.Some? || s.resumeID != ""))
      && (d.reset ==> d.delta == r.messages && !d.resume)
      && (!d.reset ==> heard + d.delta == r.messages && s.cwd == r.cwd && (s.process.None? <==> d.resume))
  {
    HashAgreesWithPrefix(s, heard, r.messages);
  }

  /**
   Whatever the engine does, a plain exchange keeps the session and its record sound, and a
   successful one leaves exactly the request's messages and the answer in the native session.
   */
  lemma PlainExchangeIsSound(s: Session, record: Option<Record>, heard: seq<Message>, r: Request, engine: Engine)
    requires PlainSound(s, record, heard) && AbsolutePath(r.cwd)
    ensures PlainOutcome(s, record, heard, r, PlainExchange(s, record, r, engine))
  {
    hide PlainSound, PlainOutcome, RunPlain, Recorded, Remembers, Promptable, Decide;
    var d := Decide(s, r);
    var s1 := if d.reset then Cleared(s) else s;
    var record1 := if d.reset then None else record;
    SoundMeans(s, record, heard);
    DeltaCompletesHeard(s, heard, r);
    ClearingIsSound(s, heard);
    ClearingIsSound(s1, heard);
    SoundMeans(s1, record1, heard);
    EarlyExitIsSound(s, record, s1, record1, heard, r);
    EarlyExitIsSound(s, record, Cleared(s1), None, heard, r);
    assert [] + r.messages == r.messages;
    if s1.process.Some? {
      RunIsSound(s1, record1, heard, r, false, d.resume, d.delta, engine);
    } else {
      StartAndRunIsSound(s, record, s1, record1, heard, r, !d.resume, d.resume, d.delta, engine);
      StartAndRunIsSound(s, record, Cleared(s1), None, heard, r, true, false, r.messages, engine);
    }
  }

  lemma EarlyExitIsSound(s: Session, record: Option<Record>, s1: Session, record1: Option<Record>,
                         heard: seq<Message>, r: Request)
    requires PlainSound(s1, record1, heard)
    requires Recorded(s, record) ==> Recorded(s1, record1)
    requires s1.history.None? || s1.history == s.history
    ensures PlainOutcome(s, record, heard, r, Exchange(s1, record1, Rejected))
    ensures PlainOutcome(s, record, heard, r, Exchange(s1, record1, Failed))
  {
    hide PlainSound, PlainOutcome, Recorded;
    UnchangedIsSound(s1, record1, heard, r, Rejected);
    UnchangedIsSound(s1, record1, heard, r, Failed);
    OutcomeComposes(s, record, s1, record1, heard, r, Exchange(s1, record1, Rejected));
    OutcomeComposes(s, record, s1, record1, heard, r, Exchange(s1, record1, Failed));
  }

  lemma StartAndRunIsSound(s: Session, record: Option<Record>, s1: Session, record1: Option<Record>,
                           heard: seq<Message>, r: Request,
                           anew: bool, resume: bool, slice: seq<Message>, engine: Engine)
    requires PlainSound(s1, record1, heard) && (record1.Some? ==> s1.cwd == r.cwd) && AbsolutePath(r.cwd)
    requires Recorded(s, record) ==> Recorded(s1, record1)
    requires s1.history.None? || s1.history == s.history
    requires (if anew then [] else heard) + slice == r.messages
    ensures PlainOutcome(s, record, heard, r, RunPlain(StartPlain(s1, r.cwd), record1, r, anew, resume, slice, engine))
  {
    hide PlainSound, PlainOutcome, RunPlain, Recorded;
    var started := StartPlain(s1, r.cwd);
    StartingIsSound(s1, record1, heard, r.cwd);
    RunIsSound(started, record1, heard, r, anew, resume, slice, engine);
    OutcomeComposes(s, record, started, record1, heard, r, RunPlain(started, record1, r, anew, resume, slice, engine));
  }
}
