/**
 One session of the gateway with every actor that can touch it: HTTP handlers holding the
 session lock, the watcher of each turn, the janitor, crashes, and (through TurnSystem) runners,
 MCP calls and cancellation. An action is one atomic step; handler steps that no other
 goroutine can observe are one action.
 */
module Gateway {
  import opened Types
  import opened Collecting
  import opened History
  import opened Sessions
  import Turns = TurnSystem
  import ActiveTurns
  import opened ToolLoop

  datatype AfterClear = Release | LaunchNext(request: Request, delta: seq<Message>) | Evict

  // Who holds the session lock and where it is.
  datatype Holder =
    | Free
    | Clearing(next: AfterClear)                                       // stop() waits for the runner
    | Launching(request: Request, slice: seq<Message>)
    | Consuming(request: Request, slice: seq<Message>, g: Gather)      // the event loop
    | Delivered(request: Request, slice: seq<Message>, g: Gather, call: ToolCall)
    | Committing(request: Request, slice: seq<Message>, g: Gather, call: ToolCall)
    | Finished(request: Request, slice: seq<Message>, g: Gather, turn: nat)

  datatype Success = Success(policy: Policy, answer: Message)

  datatype World = World(
    session: Session,
    record: Option<Record>,
    turns: seq<Turns.Turn>,              // every turn since the process started; the index is its identity
    holder: Holder,
    // History of the run, for the statements only:
    heard: seq<Message>,                 // slices and answers of the native session's committed exchanges
    successes: seq<Success>,
    lastPlain: bool)                     // no successful exchange since the last plain one took the tool path

  datatype Action =
    | TurnStep(turn: nat, step: Turns.TurnAction)
    | FacadeDies
    | PlainRequest(request: Request, engine: Engine)
    | ToolRequest(request: Request)
    | FinishClear
    | FacadeFails
    | StartFails
    | Install
    | ConsumeNext(modelRefused: bool)
    | GiveUp
    | CheckCause
    | Commit(resumeID: string)
    | Watch(turn: nat)
    | EvictIdle
    | Crash

  const NOTHING := Gather("", "", false, false)

  ghost predicate Initial(w: World) {
    w == World(FRESH, None, [], Free, [], [], true)
  }

  predicate Active(w: World) {
    w.session.active.Some? && w.session.active.value < |w.turns|
  }

  function Current(w: World): Turns.Turn
    requires Active(w)
  {
    w.turns[w.session.active.value]
  }

  function WithActive(w: World, t: Turns.Turn): World
    requires Active(w)
  {
    w.(turns := w.turns[w.session.active.value := t])
  }

  ghost predicate Enabled(w: World, a: Action) {
    match a
    case TurnStep(i, step) => i < |w.turns| && Turns.Enabled(w.turns[i], step)
    case FacadeDies => w.session.facade.Some?
    case PlainRequest(r, _) => w.holder.Free? && Admitted(r) && !TakesToolPath(w.session, r)
    case ToolRequest(r) => w.holder.Free? && Admitted(r) && TakesToolPath(w.session, r)
    case FinishClear => w.holder.Clearing? && (Active(w) ==> Current(w).st.closes > 0)
    case FacadeFails => w.holder.Launching? && w.session.process.None? && w.holder.request.tools != []
    case StartFails => w.holder.Launching? && w.session.process.None?
    case Install => w.holder.Launching?
    case ConsumeNext(_) => w.holder.Consuming? && Active(w) && Current(w).st.events != []
    case GiveUp => w.holder.Consuming?
    case CheckCause => w.holder.Delivered? && Active(w)
    case Commit(_) => (w.holder.Committing? && Active(w)) || w.holder.Finished?
    case Watch(i) => w.holder.Free? && i < |w.turns| && w.turns[i].st.cancelled
    case EvictIdle => w.holder.Free?
    case Crash => true
  }

  /** clearSession up to the wait: the active turn is cancelled, then stop() waits for it. */
  function StartClear(w: World, next: AfterClear): World {
    (if Active(w) then WithActive(w, Turns.CancelTurn(Current(w))) else w).(holder := Clearing(next))
  }

  function FinishedClear(w: World): World
    requires w.holder.Clearing?
  {
    match w.holder.next
    case Release => w.(session := Cleared(w.session), record := None, holder := Free)
    case LaunchNext(r, delta) => w.(session := Cleared(w.session), record := None, holder := Launching(r, delta))
    case Evict => w.(session := Evicted(w.session), holder := Free)
  }

  ghost function AcceptRequest(w: World, r: Request): World
    requires r.messages != []
  {
    match DecideTool(w.session, r)
    case RejectResult(clear) => if clear then StartClear(w, Release) else w
    case RejectUser(clear) => if clear then StartClear(w, Release) else w
    case TurnPending => w
    case Launch(clear, delta) =>
      if clear then StartClear(w, LaunchNext(r, delta)) else w.(holder := Launching(r, delta))
    case ResolveWith(batch) =>
      if Active(w) && ActiveTurns.Acceptable(Current(w).st, batch) then
        var t := Current(w);
        WithActive(w, Turns.Accept(t, batch, r.policy))
          .(holder := Consuming(r, batch, Gather("", "", t.st.sawDelta, t.st.sawThinking)))
      else w
  }

  /** A turn is created, bound and started; without a live process the native session is new. */
  function Installed(w: World): World
    requires w.holder.Launching?
  {
    var r := w.holder.request;
    var s := Launched(w.session, r, |w.turns|);
    var tools := if s.facade.Some? then s.facade.value.tools else [];
    w.(session := s,
       turns := w.turns + [Turns.StartTurn(r.policy, tools, Turns.Running)],
       heard := if w.session.process.None? then [] else w.heard,
       holder := Consuming(r, w.holder.slice, NOTHING))
  }

  /** Engine start failed: done is closed by the handler, then the session is cleared. */
  function StartFailed(w: World): World
    requires w.holder.Launching?
  {
    var dead := Turns.CancelTurn(Turns.StartTurn(w.holder.request.policy, w.holder.request.tools, Turns.NeverRan));
    w.(session := Cleared(w.session).(cwd := w.holder.request.cwd),
       record := None,
       turns := w.turns + [dead.(st := dead.st.(closes := dead.st.closes + 1))],
       holder := Free)
  }

  function Consumed(w: World, modelRefused: bool): World
    requires w.holder.Consuming? && Active(w) && Current(w).st.events != []
  {
    var r, t := w.holder.request, Current(w);
    var w1 := WithActive(w, Turns.Consume(t));
    match React(r.policy, w.holder.g, t.st.events[0], modelRefused)
    case Abort => StartClear(w1, Release)
    case Continue(g) => w1.(holder := Consuming(r, w.holder.slice, g))
    case Offer(call) =>
      WithActive(w1, Turns.DeliverTo(Turns.Consume(t), call.id))
        .(holder := Delivered(r, w.holder.slice, w.holder.g, call))
    case Complete =>
      WithActive(w1, Turns.CancelTurn(Turns.Consume(t)))
        .(session := Unbound(w.session), holder := Finished(r, w.holder.slice, w.holder.g, w.session.active.value))
  }

  function AnswerOf(h: Holder): Message
    requires h.Committing? || h.Finished?
  {
    AssistantMessage(h.g.text, if h.Committing? then [h.call] else [])
  }

  function CommittedExchange(w: World, resumeID: string): World
    requires (w.holder.Committing? && Active(w)) || w.holder.Finished?
  {
    var h, answer := w.holder, AnswerOf(w.holder);
    var w1 := if h.Committing? then WithActive(w, Turns.Answer(Current(w), answer, h.g)) else w;
    w1.(session := Committed(w.session, h.request.messages, answer, resumeID),
        record := None,
        heard := w.heard + h.slice + [answer],
        successes := w.successes + [Success(h.request.policy, answer)],
        lastPlain := false,
        holder := Free)
  }

  /** A native session the plain path starts anew has heard nothing yet. */
  function PlainServed(w: World, r: Request, engine: Engine): World {
    var e := PlainExchange(w.session, w.record, r, engine);
    var w1 := w.(session := e.session, record := e.record);
    match e.reply
    case Answered(anew, slice, answer) =>
      w1.(heard := (if anew then [] else w.heard) + slice + [answer],
          successes := w.successes + [Success(r.policy, answer)],
          lastPlain := true)
    case _ => w1
  }

  ghost function Apply(w: World, a: Action): World
    requires Enabled(w, a)
  {
    match a
    case TurnStep(i, step) => w.(turns := w.turns[i := Turns.Apply(w.turns[i], step)])
    case FacadeDies => w.(session := w.session.(facade := Some(w.session.facade.value.(alive := false))))
    case PlainRequest(r, engine) => PlainServed(w, r, engine)
    case ToolRequest(r) => AcceptRequest(w, r)
    case FinishClear => FinishedClear(w)
    case FacadeFails => w.(holder := Free)
    case StartFails => StartFailed(w)
    case Install => Installed(w)
    case ConsumeNext(modelRefused) => Consumed(w, modelRefused)
    case GiveUp => StartClear(w, Release)
    case CheckCause =>
      if Current(w).st.cancelled then StartClear(w, Release)
      else w.(holder := Committing(w.holder.request, w.holder.slice, w.holder.g, w.holder.call))
    case Commit(resumeID) => CommittedExchange(w, resumeID)
    case Watch(i) => if w.session.active == Some(i) then StartClear(w, Release) else w
    case EvictIdle => StartClear(w, Evict)
    case Crash =>
      w.(session := Reloaded(w.record), turns := [], holder := Free, heard := if w.record.Some? then w.heard else [])
  }

  // The inductive invariant.

  /** What the agent said in the consumed events. */
  function SpokenIn(events: seq<ActiveTurns.Event>): seq<AgentMessage> {
    if events == [] then []
    else
      var before, e := SpokenIn(events[..|events| - 1]), events[|events| - 1];
      if e.MessageEvent? then before + [e.message] else before
  }

  function AnswerTexts(answers: seq<Message>): string {
    if answers == [] then "" else AnswerTexts(answers[..|answers| - 1]) + answers[|answers| - 1].content
  }

  /** The answers so far and the segment being collected are what one collector makes of everything consumed. */
  ghost predicate Collected(t: Turns.Turn, g: Gather) {
    var whole := AbsorbAll(NOTHING, SpokenIn(t.consumed));
    && whole.text == AnswerTexts(t.answers) + g.text
    && whole.sawDelta == g.sawDelta && whole.sawThinking == g.sawThinking
  }

  /** A suspended turn: the last answer in the transcript offers its one delivered call. */
  ghost predicate Suspended(t: Turns.Turn, history: Option<seq<Message>>) {
    && history.Some? && history.value != [] && t.answers != []
    && Last(history.value) == Last(t.answers)
    && |t.answers| == |t.batches| + 1
    && Last(t.answers).toolCalls != []
    && Turns.Outstanding(t, {Turns.CallOf(Last(t.answers)).id})
    && Collected(t, Gather("", "", t.st.sawDelta, t.st.sawThinking))
  }

  function ServedTools(s: Session): seq<FunctionTool> {
    if s.facade.Some? then s.facade.value.tools else []
  }

  /** A handler inside the event loop of the active turn. */
  ghost predicate InLoop(w: World, r: Request, slice: seq<Message>, g: Gather, offered: set<string>) {
    && Admitted(r) && Active(w)
    && w.session.cwd == r.cwd && w.session.toolHash == ToolHashOf(r.tools)
    && r.messages == w.heard + slice
    && Current(w).st.policy == r.policy
    && Current(w).tools == ServedTools(w.session)
    && |Current(w).answers| == |Current(w).batches|
    && Turns.Outstanding(Current(w), offered)
    && Collected(Current(w), g)
  }

  ghost predicate Offering(w: World, h: Holder)
    requires h.Delivered? || h.Committing?
  {
    && InLoop(w, h.request, h.slice, h.g, {h.call.id})
    && Turns.Fresh(Current(w), h.call)
    && Allows(h.request.policy, h.call.name)
    && Turns.ValidCall(h.call, Current(w).tools)
  }

  ghost predicate Ready(w: World, r: Request, slice: seq<Message>) {
    && Admitted(r) && !Last(r.messages).role.Tool? && w.session.active.None?
    && (if w.session.process.None?
        then slice == r.messages && w.session == Cleared(w.session)
        else w.session.cwd == r.cwd && w.session.toolHash == ToolHashOf(r.tools) && r.messages == w.heard + slice)
  }

  ghost predicate HolderSound(w: World) {
    match w.holder
    case Free =>
      && (w.session.active.Some? ==>
            Active(w) && Suspended(Current(w), w.session.history) && Current(w).tools == ServedTools(w.session))
      && (w.session.active.None? && w.session.history.Some? && w.heard != [] ==> Last(w.heard).toolCalls == [])
      && (w.lastPlain ==> w.session.active.None? && w.session.facade.None?)
    case Clearing(next) =>
      && (w.session.active.Some? ==> Active(w) && Current(w).st.cancelled)
      && (next.LaunchNext? ==>
            Admitted(next.request) && !Last(next.request.messages).role.Tool? && next.delta == next.request.messages)
      && (next.Evict? ==>
            && (w.session.active.None? && w.session.history.Some? && w.heard != [] ==> Last(w.heard).toolCalls == [])
            && (w.lastPlain ==> w.session.active.None? && w.session.facade.None?))
    case Launching(r, slice) => w.record.None? && Ready(w, r, slice)
    case Consuming(r, slice, g) => w.record.None? && InLoop(w, r, slice, g, {})
    case Delivered(_, _, _, _) => w.record.None? && Offering(w, w.holder)
    case Committing(_, _, _, _) => w.record.None? && Offering(w, w.holder)
    case Finished(r, slice, g, i) =>
      && w.record.None? && Admitted(r) && w.session.active.None? && w.session.process.Some?
      && r.messages == w.heard + slice && w.session.cwd == r.cwd
      && !r.policy.Required? && !r.policy.Named?
      && i < |w.turns| && Collected(w.turns[i], g)
      && w.turns[i].consumed != [] && Last(w.turns[i].consumed) == ActiveTurns.DoneEvent(false)
  }

  /** Turns are sound, and all but the active one are cancelled. */
  ghost predicate TurnsSound(turns: seq<Turns.Turn>, active: Option<nat>) {
    forall i | 0 <= i < |turns| :: Turns.Inv(turns[i]) && (active != Some(i) ==> turns[i].st.cancelled)
  }

  /** After a plain exchange a resumable session has its record. */
  ghost predicate Shadowed(w: World) {
    w.lastPlain && w.session.resumeID != "" ==> w.record == Some(RecordOf(w.session))
  }

  /** The success kept the tool_choice it was served under. */
  predicate KeptPolicy(e: Success) {
    && (e.policy.Never? ==> e.answer.toolCalls == [])
    && (e.policy.Required? ==> |e.answer.toolCalls| == 1)
    && (e.policy.Named? ==> |e.answer.toolCalls| == 1 && e.answer.toolCalls[0].name == e.policy.name)
  }

  ghost predicate SuccessesSound(successes: seq<Success>) {
    forall e | e in successes :: KeptPolicy(e) && ValidAnswer(e.answer)
  }

  ghost predicate Inv(w: World) {
    && Shape(w.session) && Coherent(w.session, w.record) && Remembers(w.session, w.heard)
    && TurnsSound(w.turns, w.session.active) && HolderSound(w) && Shadowed(w) && SuccessesSound(w.successes)
  }

  // Steps of goroutines without the lock.

  lemma ActionFrame(t: Turns.Turn, a: Turns.TurnAction)
    requires Turns.Enabled(t, a)
    ensures var t' := Turns.Apply(t, a);
      && t'.consumed == t.consumed && t'.answers == t.answers && t'.batches == t.batches && t'.tools == t.tools
      && t'.st.policy == t.st.policy && t'.st.sawDelta == t.st.sawDelta && t'.st.sawThinking == t.st.sawThinking
      && (t.st.cancelled ==> t'.st.cancelled)
  {
  }

  lemma OutstandingFrame(t: Turns.Turn, a: Turns.TurnAction)
    requires Turns.Inv(t) && Turns.Enabled(t, a)
    ensures forall ds :: Turns.Outstanding(t, ds) ==> Turns.Outstanding(Turns.Apply(t, a), ds)
  {
    forall ds | Turns.Outstanding(t, ds)
      ensures Turns.Outstanding(Turns.Apply(t, a), ds)
    {
      Turns.ActionKeepsOutstanding(t, a, ds);
    }
  }

  lemma TurnStepKeepsInv(w: World, i: nat, step: Turns.TurnAction)
    requires Inv(w) && Enabled(w, TurnStep(i, step))
    ensures Inv(Apply(w, TurnStep(i, step)))
  {
    hide Turns.Inv, Turns.Apply, Turns.Enabled, Shape, Coherent, Remembers, SuccessesSound, HolderSound;
    Turns.ActionKeepsInv(w.turns[i], step);
    ActionFrame(w.turns[i], step);
    TurnStepKeepsHolder(w, i, step);
  }

  lemma TurnStepKeepsHolder(w: World, i: nat, step: Turns.TurnAction)
    requires Inv(w) && Enabled(w, TurnStep(i, step))
    ensures HolderSound(Apply(w, TurnStep(i, step)))
  {
    hide Turns.Inv, Turns.Outstanding, Turns.Apply, Turns.Enabled, Turns.ValidCall, Admitted, Shape, Coherent;
    hide Remembers, SuccessesSound;
    hide AbsorbAll, SpokenIn, AnswerTexts;
    ActionFrame(w.turns[i], step);
    OutstandingFrame(w.turns[i], step);
  }

  lemma FacadeDiesKeepsInv(w: World)
    requires Inv(w) && Enabled(w, FacadeDies)
    ensures Inv(Apply(w, FacadeDies))
  {
    hide Turns.Inv, Turns.Outstanding, Turns.Fresh, Turns.ValidCall, Admitted, SuccessesSound, Collected;
  }

  // Clearing.

  /** What clearing needs of the state it starts in. */
  ghost predicate Clearable(w: World) {
    && Shape(w.session) && Coherent(w.session, w.record) && Remembers(w.session, w.heard)
    && TurnsSound(w.turns, w.session.active) && Shadowed(w) && SuccessesSound(w.successes)
    && (w.session.active.Some? ==> Active(w))
  }

  ghost predicate NextSound(w: World, next: AfterClear) {
    && (next.LaunchNext? ==>
            Admitted(next.request) && !Last(next.request.messages).role.Tool? && next.delta == next.request.messages)
    && (next.Evict? ==>
          && (w.session.active.None? && w.session.history.Some? && w.heard != [] ==> Last(w.heard).toolCalls == [])
          && (w.lastPlain ==> w.session.active.None? && w.session.facade.None?))
  }

  lemma CancellingKeepsInv(t: Turns.Turn)
    requires Turns.Inv(t)
    ensures Turns.Inv(Turns.CancelTurn(t))
  {
    Turns.RunnerKeepsInv(t, Turns.Cancel);
  }

  lemma StartClearKeepsInv(w: World, next: AfterClear)
    requires Clearable(w) && NextSound(w, next)
    ensures Inv(StartClear(w, next))
  {
    hide Turns.Inv, Admitted, Shape, Coherent, Remembers, SuccessesSound;
    if Active(w) {
      CancellingKeepsInv(Current(w));
    }
  }

  lemma InvIsClearable(w: World)
    requires Inv(w) && (w.holder.Free? || w.holder.Consuming? || w.holder.Delivered?)
    ensures Clearable(w)
    ensures NextSound(w, Release) && (w.holder.Free? ==> NextSound(w, Evict))
  {
    hide Turns.Inv, Turns.Outstanding, Turns.ValidCall, Admitted, Shape, Coherent, Remembers, SuccessesSound;
    hide Collected, TurnsSound;
  }

  lemma ClearedIsSound(s: Session, heard: seq<Message>)
    requires heard != [] ==> Last(heard).role.Assistant?
    ensures Shape(Cleared(s)) && Coherent(Cleared(s), None) && Remembers(Cleared(s), heard)
    ensures Cleared(Cleared(s)) == Cleared(s)
  {
  }

  lemma EvictedIsSound(s: Session, record: Option<Record>, heard: seq<Message>)
    requires Shape(s) && Coherent(s, record) && Remembers(s, heard)
    ensures Shape(Evicted(s)) && Coherent(Evicted(s), record) && Remembers(Evicted(s), heard)
    ensures Evicted(s).active.None? && Evicted(s).facade.None? && (record.Some? ==> RecordOf(Evicted(s)) == RecordOf(s))
    ensures Evicted(s).history.Some? ==> s.active.None? && s.history.Some?
    ensures Evicted(s).resumeID != "" ==> Evicted(s).resumeID == s.resumeID && RecordOf(Evicted(s)) == RecordOf(s)
  {
  }

  lemma HeardEndsWithAnswer(s: Session, heard: seq<Message>)
    requires Remembers(s, heard)
    ensures heard != [] ==> Last(heard).role.Assistant?
  {
  }

  lemma FinishClearKeepsInv(w: World)
    requires Inv(w) && Enabled(w, FinishClear)
    ensures Inv(Apply(w, FinishClear))
  {
    hide Turns.Inv, Turns.Outstanding, Turns.ValidCall, Admitted, SuccessesSound, Collected, Shape, Coherent, Remembers;
    HeardEndsWithAnswer(w.session, w.heard);
    ClearedIsSound(w.session, w.heard);
    EvictedIsSound(w.session, w.record, w.heard);
  }

  lemma WatchKeepsInv(w: World, i: nat)
    requires Inv(w) && Enabled(w, Watch(i))
    ensures Inv(Apply(w, Watch(i)))
  {
    hide Inv, Clearable;
    InvIsClearable(w);
    StartClearKeepsInv(w, Release);
  }

  lemma EvictKeepsInv(w: World)
    requires Inv(w) && Enabled(w, EvictIdle)
    ensures Inv(Apply(w, EvictIdle))
  {
    hide Inv, Clearable;
    InvIsClearable(w);
    StartClearKeepsInv(w, Evict);
  }

  lemma GiveUpKeepsInv(w: World)
    requires Inv(w) && Enabled(w, GiveUp)
    ensures Inv(Apply(w, GiveUp))
  {
    hide Inv, Clearable;
    InvIsClearable(w);
    StartClearKeepsInv(w, Release);
  }

  lemma CheckCauseKeepsInv(w: World)
    requires Inv(w) && Enabled(w, CheckCause)
    ensures Inv(Apply(w, CheckCause))
  {
    hide Turns.Inv, Turns.Outstanding, Turns.ValidCall, Admitted, Shape, Coherent, Remembers, SuccessesSound;
    hide Collected, TurnsSound, Clearable;
    InvIsClearable(w);
    StartClearKeepsInv(w, Release);
  }

  lemma CrashKeepsInv(w: World)
    requires Inv(w)
    ensures Inv(Apply(w, Crash))
  {
    hide Turns.Inv, Turns.Outstanding, Turns.ValidCall, Admitted, SuccessesSound, Collected;
  }

  // Launching.

  lemma FacadeFailsKeepsInv(w: World)
    requires Inv(w) && Enabled(w, FacadeFails)
    ensures Inv(Apply(w, FacadeFails))
  {
    hide Turns.Inv, Admitted, SuccessesSound;
  }

  lemma NewTurnSound(policy: Policy, tools: seq<FunctionTool>)
    ensures Turns.Inv(Turns.StartTurn(policy, tools, Turns.Running))
    ensures Turns.Outstanding(Turns.StartTurn(policy, tools, Turns.Running), {})
    ensures Collected(Turns.StartTurn(policy, tools, Turns.Running), NOTHING)
    ensures var dead := Turns.CancelTurn(Turns.StartTurn(policy, tools, Turns.NeverRan));
      Turns.Inv(dead.(st := dead.st.(closes := dead.st.closes + 1)))
  {
  }

  lemma NewTurnIsOpen(policy: Policy, tools: seq<FunctionTool>)
    ensures var t := Turns.StartTurn(policy, tools, Turns.Running);
      t.st.policy == policy && t.tools == tools && t.answers == [] && t.batches == [] && Turns.Inv(t)
  {
  }

  lemma StartFailsKeepsInv(w: World)
    requires Inv(w) && Enabled(w, StartFails)
    ensures Inv(Apply(w, StartFails))
  {
    hide Turns.Inv, Admitted, SuccessesSound, Shape, Remembers;
    NewTurnSound(w.holder.request.policy, w.holder.request.tools);
    HeardEndsWithAnswer(w.session, w.heard);
    ClearedIsSound(w.session.(cwd := w.holder.request.cwd), w.heard);
  }

  lemma LaunchedIsSound(s: Session, heard: seq<Message>, r: Request, turn: nat)
    requires Shape(s) && Remembers(s, heard) && s.active.None?
    requires if s.process.Some? then s.toolHash == ToolHashOf(r.tools) else s == Cleared(s)
    ensures var s', heard' := Launched(s, r, turn), if s.process.None? then [] else heard;
      && Shape(s') && ServedTools(s') == r.tools && Remembers(s', heard') && Coherent(s', None)
      && s'.active == Some(turn) && s'.cwd == r.cwd && s'.toolHash == ToolHashOf(r.tools) && s'.resumeID == s.resumeID
  {
  }

  lemma OneMoreTurn(turns: seq<Turns.Turn>, t: Turns.Turn)
    requires TurnsSound(turns, None) && Turns.Inv(t)
    ensures TurnsSound(turns + [t], Some(|turns|))
  {
    hide Turns.Inv;
  }

  lemma ReadyMeans(w: World, r: Request, slice: seq<Message>)
    requires Ready(w, r, slice)
    ensures Admitted(r) && w.session.active.None?
    ensures if w.session.process.None? then slice == r.messages && w.session == Cleared(w.session)
            else w.session.cwd == r.cwd && w.session.toolHash == ToolHashOf(r.tools) && r.messages == w.heard + slice
  {
  }

  lemma InstallKeepsInv(w: World)
    requires Inv(w) && Enabled(w, Install)
    ensures Inv(Apply(w, Install))
  {
    hide Turns.Inv, Turns.Outstanding, Turns.ValidCall, Turns.Fresh, Admitted, SuccessesSound, Collected;
    hide Shape, Coherent, Remembers, Ready;
    hide Suspended, Offering, AbsolutePath, KeptPolicy, Launched, TurnsSound, Turns.StartTurn;
    var w' := Apply(w, Install);
    var r := w.holder.request;
    ReadyMeans(w, r, w.holder.slice);
    NewTurnIsOpen(r.policy, ServedTools(w'.session));
    var t := Turns.StartTurn(r.policy, ServedTools(w'.session), Turns.Running);
    assert w'.turns == w.turns + [t];
    OneMoreTurn(w.turns, t);
    NewTurnSound(r.policy, ServedTools(w'.session));
    LaunchedIsSound(w.session, w.heard, r, |w.turns|);
    assert [] + r.messages == r.messages;
  }

  // Requests.

  lemma NewSuccessSound(successes: seq<Success>, e: Success)
    requires SuccessesSound(successes) && KeptPolicy(e) && ValidAnswer(e.answer)
    ensures SuccessesSound(successes + [e])
  {
    hide KeptPolicy, ValidAnswer;
  }

  lemma PlainRequestKeepsInv(w: World, r: Request, engine: Engine)
    requires Inv(w) && Enabled(w, PlainRequest(r, engine))
    ensures Inv(Apply(w, PlainRequest(r, engine)))
  {
    hide Turns.Inv, Turns.Outstanding, Turns.ValidCall, Collected, Shape, Coherent, Remembers, SuccessesSound;
    hide PlainExchange;
    var e := PlainExchange(w.session, w.record, r, engine);
    PlainExchangeIsSound(w.session, w.record, w.heard, r, engine);
    if e.reply.Answered? {
      NewSuccessSound(w.successes, Success(r.policy, e.reply.answer));
    }
  }

  lemma ToolDecisionFits(s: Session, heard: seq<Message>, r: Request)
    requires Shape(s) && Remembers(s, heard) && Admitted(r) && TakesToolPath(s, r)
    ensures r.messages != []
    ensures match DecideTool(s, r)
      case Launch(clear, delta) =>
        && !Last(r.messages).role.Tool?
        && if clear then delta == r.messages
        else s.active.None? && s.facade.Some? && s.process.Some? && s.cwd == r.cwd && s.toolHash == ToolHashOf(r.tools)
             && r.messages == heard + delta
      case ResolveWith(batch) =>
        s.active.Some? && s.cwd == r.cwd && s.toolHash == ToolHashOf(r.tools) && r.messages == heard + batch
      case _ => true
  {
    hide Promptable;
    HashAgreesWithPrefix(s, heard, r.messages);
  }

  /** Resuming a suspended turn: an accepted batch is the answer to its one delivered call. */
  lemma ResumingKeepsTurn(t: Turns.Turn, history: Option<seq<Message>>, batch: seq<Message>, policy: Policy)
    requires Turns.Inv(t) && Suspended(t, history) && ActiveTurns.Acceptable(t.st, batch)
    ensures var t' := Turns.Accept(t, batch, policy);
      && Turns.Inv(t') && Turns.Outstanding(t', {}) && |t'.answers| == |t'.batches| && t'.st.policy == policy
      && t'.tools == t.tools && t'.st.cancelled == t.st.cancelled
      && Collected(t', Gather("", "", t.st.sawDelta, t.st.sawThinking))
  {
    hide Turns.Inv, Turns.Outstanding, ActiveTurns.Acceptable, AbsorbAll, SpokenIn, AnswerTexts;
    Turns.AcceptingKeepsInv(t, batch, policy, Turns.CallOf(Last(t.answers)).id);
  }

  lemma ToolRequestKeepsInv(w: World, r: Request)
    requires Inv(w) && Enabled(w, ToolRequest(r))
    ensures Inv(Apply(w, ToolRequest(r)))
  {
    hide Turns.Inv, Turns.Outstanding, Turns.Accept, Collected, Shape, Remembers, SuccessesSound, DecideTool;
    hide ActiveTurns.Acceptable;
    hide Suspended, Clearable, Admitted;
    ToolDecisionFits(w.session, w.heard, r);
    InvIsClearable(w);
    match DecideTool(w.session, r)
    case RejectResult(clear) => StartClearKeepsInv(w, Release);
    case RejectUser(clear) => StartClearKeepsInv(w, Release);
    case TurnPending =>
    case Launch(clear, delta) =>
      if clear {
        StartClearKeepsInv(w, LaunchNext(r, delta));
      }
    case ResolveWith(batch) =>
      if Active(w) && ActiveTurns.Acceptable(Current(w).st, batch) {
        ResumingKeepsTurn(Current(w), w.session.history, batch, r.policy);
      }
  }

  // The event loop.

  lemma SpokenGrows(events: seq<ActiveTurns.Event>, e: ActiveTurns.Event)
    ensures SpokenIn(events + [e]) == SpokenIn(events) + (if e.MessageEvent? then [e.message] else [])
  {
    assert (events + [e])[..|events|] == events;
  }

  lemma CollectedGrows(t: Turns.Turn, g: Gather)
    requires Collected(t, g) && t.st.events != []
    ensures var e := t.st.events[0];
      Collected(Turns.Consume(t), if e.MessageEvent? then Absorb(g, e.message) else g)
  {
    var e := t.st.events[0];
    SpokenGrows(t.consumed, e);
    if e.MessageEvent? {
      AbsorbAllAppends(NOTHING, SpokenIn(t.consumed), [e.message]);
      var whole := AbsorbAll(NOTHING, SpokenIn(t.consumed));
      assert AbsorbAll(whole, [e.message]) == Absorb(whole, e.message) by { assert [e.message][..0] == []; }
      assert AnswerTexts(t.answers) + g.text + TextOf(g, e.message)
          == AnswerTexts(t.answers) + (g.text + TextOf(g, e.message));
    }
  }

  lemma ConsumingFrame(t: Turns.Turn)
    requires t.st.events != []
    ensures var t' := Turns.Consume(t);
      t'.answers == t.answers && t'.batches == t.batches && t'.tools == t.tools && t'.st.policy == t.st.policy
      && t'.st.cancelled == t.st.cancelled
      && t'.consumed == t.consumed + [t.st.events[0]]
  {
  }

  /** The loop's world with its turn replaced is still clearable. */
  lemma ReplacingIsClearable(w: World, t: Turns.Turn)
    requires Clearable(w) && Active(w) && Turns.Inv(t)
    ensures Clearable(WithActive(w, t))
  {
    hide Turns.Inv, Shape, Coherent, Remembers, SuccessesSound;
  }

  lemma ConsumeMessageKeepsInv(w: World, modelRefused: bool)
    requires w.holder.Consuming? && Active(w) && Current(w).st.events != [] && Current(w).st.events[0].MessageEvent?
    requires Inv(w)
    ensures Inv(Consumed(w, modelRefused))
  {
    hide Turns.Inv, Turns.Outstanding, Turns.Consume, Collected, Shape, Coherent, Remembers, SuccessesSound;
    hide Clearable, Admitted, Absorb;
    var t := Current(w);
    Turns.ConsumingKeepsInv(t);
    Turns.ConsumingOthers(t, {});
    CollectedGrows(t, w.holder.g);
    ConsumingFrame(t);
    InvIsClearable(w);
    ReplacingIsClearable(w, Turns.Consume(t));
    StartClearKeepsInv(WithActive(w, Turns.Consume(t)), Release);
  }

  lemma DeliveringFrame(t: Turns.Turn, id: string, g: Gather)
    ensures var t' := Turns.DeliverTo(t, id);
      && t'.answers == t.answers && t'.batches == t.batches && t'.tools == t.tools && t'.st.policy == t.st.policy
      && t'.st.cancelled == t.st.cancelled && (Collected(t, g) ==> Collected(t', g))
  {
    hide AbsorbAll, SpokenIn, AnswerTexts;
  }

  lemma HeadIsValid(t: Turns.Turn)
    requires Turns.Inv(t) && t.st.events != [] && t.st.events[0].CallEvent?
    ensures Turns.ValidCall(t.st.events[0].call, t.tools)
  {
    hide Turns.ValidCall, Turns.ExchangesSound, Turns.PendingSound, Turns.ResultsSound, Turns.Contents;
    assert t.emitted[|t.consumed|] == t.st.events[0];
    assert Turns.HasEmitted(t.st.events[0].call, t.callers);
  }

  lemma ConsumeCallKeepsInv(w: World, modelRefused: bool)
    requires w.holder.Consuming? && Active(w) && Current(w).st.events != [] && Current(w).st.events[0].CallEvent?
    requires Inv(w)
    ensures Inv(Consumed(w, modelRefused))
  {
    hide Turns.Inv, Turns.Outstanding, Turns.Consume, Turns.DeliverTo, Turns.Fresh, Turns.ValidCall;
    hide Collected, Shape, Coherent, Remembers, SuccessesSound, Clearable, Admitted;
    var t, call := Current(w), Current(w).st.events[0].call;
    Turns.ConsumingKeepsInv(t);
    Turns.DeliveringHead(t);
    CollectedGrows(t, w.holder.g);
    ConsumingFrame(t);
    DeliveringFrame(Turns.Consume(t), call.id, w.holder.g);
    HeadIsValid(t);
    InvIsClearable(w);
    ReplacingIsClearable(w, Turns.Consume(t));
    StartClearKeepsInv(WithActive(w, Turns.Consume(t)), Release);
  }

  lemma UnboundIsSound(s: Session, record: Option<Record>, heard: seq<Message>)
    requires Shape(s) && Remembers(s, heard) && s.active.Some?
    ensures Shape(Unbound(s)) && Remembers(Unbound(s), heard) && Coherent(Unbound(s), None)
  {
  }

  lemma CancellingFrame(t: Turns.Turn, g: Gather)
    requires Collected(t, g)
    ensures Collected(Turns.CancelTurn(t), g)
  {
    hide AbsorbAll, SpokenIn, AnswerTexts;
  }

  lemma ConsumeDoneKeepsInv(w: World, modelRefused: bool)
    requires w.holder.Consuming? && Active(w) && Current(w).st.events != [] && Current(w).st.events[0].DoneEvent?
    requires Inv(w)
    ensures Inv(Consumed(w, modelRefused))
  {
    hide Turns.Inv, Turns.Outstanding, Turns.Consume;
    hide Collected, Shape, Coherent, Remembers, SuccessesSound, Clearable, Admitted;
    var t := Current(w);
    Turns.ConsumingKeepsInv(t);
    CollectedGrows(t, w.holder.g);
    ConsumingFrame(t);
    CancellingKeepsInv(Turns.Consume(t));
    CancellingFrame(Turns.Consume(t), w.holder.g);
    ActiveHasProcess(w.session);
    UnboundIsSound(w.session, w.record, w.heard);
    InvIsClearable(w);
    ReplacingIsClearable(w, Turns.Consume(t));
    StartClearKeepsInv(WithActive(w, Turns.Consume(t)), Release);
  }

  lemma ActiveHasProcess(s: Session)
    requires Shape(s) && s.active.Some?
    ensures s.process.Some?
  {
  }

  lemma ConsumeNextKeepsInv(w: World, modelRefused: bool)
    requires Inv(w) && Enabled(w, ConsumeNext(modelRefused))
    ensures Inv(Apply(w, ConsumeNext(modelRefused)))
  {
    hide Inv, Consumed;
    match Current(w).st.events[0]
    case MessageEvent(_) => ConsumeMessageKeepsInv(w, modelRefused);
    case CallEvent(_) => ConsumeCallKeepsInv(w, modelRefused);
    case DoneEvent(_) => ConsumeDoneKeepsInv(w, modelRefused);
  }

  // The commit.

  lemma CommittedIsSound(s: Session, heard: seq<Message>, slice: seq<Message>, r: Request, answer: Message,
                         resumeID: string)
    requires Shape(s) && Remembers(s, heard) && r.messages == heard + slice && answer.role.Assistant?
    ensures var s' := Committed(s, r.messages, answer, resumeID);
      Shape(s') && Remembers(s', heard + slice + [answer]) && Coherent(s', None)
  {
  }

  lemma AnsweringFrame(t: Turns.Turn, answer: Message, g: Gather)
    requires Collected(t, g) && answer.content == g.text
    ensures var t' := Turns.Answer(t, answer, g);
      && t'.tools == t.tools && t'.st.cancelled == t.st.cancelled && t'.batches == t.batches
      && t'.answers == t.answers + [answer]
      && Collected(t', Gather("", "", t'.st.sawDelta, t'.st.sawThinking))
  {
    assert (t.answers + [answer])[..|t.answers|] == t.answers;
    assert AnswerTexts(t.answers) + g.text + "" == AnswerTexts(t.answers) + g.text;
  }

  lemma AnswerIsValid(h: Holder, tools: seq<FunctionTool>)
    requires h.Committing? || h.Finished?
    requires Admitted(h.request)
    requires if h.Committing? then
        Turns.ValidCall(h.call, tools) && tools == h.request.tools && Allows(h.request.policy, h.call.name)
             else !h.request.policy.Required? && !h.request.policy.Named?
    ensures ValidAnswer(AnswerOf(h)) && KeptPolicy(Success(h.request.policy, AnswerOf(h)))
  {
  }

  lemma ServedIsRequested(s: Session, r: Request)
    requires Shape(s) && s.toolHash == ToolHashOf(r.tools)
    ensures ServedTools(s) == r.tools
  {
  }

  lemma CommitKeepsInv(w: World, resumeID: string)
    requires Inv(w) && Enabled(w, Commit(resumeID))
    ensures Inv(Apply(w, Commit(resumeID)))
  {
    hide Turns.Inv, Turns.Outstanding, Turns.Answer, Turns.Fresh, Turns.ValidCall;
    hide Collected, Shape, Coherent, Remembers, SuccessesSound, Admitted, KeptPolicy, ValidAnswer;
    var h, answer := w.holder, AnswerOf(w.holder);
    CommittedIsSound(w.session, w.heard, h.slice, h.request, answer, resumeID);
    if h.Committing? {
      var t := Current(w);
      ServedIsRequested(w.session, h.request);
      Turns.AnsweringKeepsInv(t, answer, h.g, h.call);
      Turns.AnsweringKeepsOutstanding(t, answer, h.g, {h.call.id});
      AnsweringFrame(t, answer, h.g);
    }
    AnswerIsValid(h, h.request.tools);
    NewSuccessSound(w.successes, Success(h.request.policy, answer));
    assert w.heard + h.slice + [answer] == h.request.messages + [answer];
  }
}
