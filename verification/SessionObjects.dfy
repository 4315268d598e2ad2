/**
 The objects the handlers update in place: the MCP facade, the session state, the store, the
 registry, and the server methods on them. Each method is proved against its function in
 Sessions; what the source promises is proved about those functions.
 */
module SessionObjects {
  import opened Types
  import opened History
  import opened Sessions
  import opened ActiveTurns
  import opened StreamCollector
  import opened ToolLoop

  class McpFacade {
    const tools: seq<FunctionTool>
    var cancelled: bool
    var active: ActiveTurn?

    constructor (tools: seq<FunctionTool>)
      ensures this.tools == tools && !cancelled && active == null
    {
      this.tools := tools;
      cancelled, active := false, null;
    }

    ghost function View(): Facade
      reads this
    {
      Facade(tools, Serial(active), !cancelled)
    }

    method Bind(turn: ActiveTurn?)
      modifies this`active
      ensures active == turn && View() == old(View()).(active := Serial(turn))
    {
      active := turn;
    }

    method Abort()
      requires active != null ==> active.Valid()
      modifies (if active == null then {} else {active})`cancelled
      ensures active != null ==> active.Valid() && active.View() == old(active.View()).(cancelled := true)
    {
      if active != null {
        active.Cancel();
      }
    }

    method Close()
      requires active != null ==> active.Valid()
      modifies this`cancelled, (if active == null then {} else {active})`cancelled
      ensures View() == old(View()).(alive := false)
      ensures active != null ==> active.Valid() && active.View() == old(active.View()).(cancelled := true)
    {
      cancelled := true;
      Abort();
    }

    /** The /call branch: only a served name on a bound turn reaches call; absent arguments are an empty object. */
    method RouteCall(id: string, name: string, arguments: Option<Json.Tree>,
                     present: bool) returns (turn: ActiveTurn?, registered: bool)
      requires active != null ==> active.Valid() && id !in active.results
      modifies (if active == null then {} else {active})`pending, (if active == null then {} else {active})`results
      ensures turn != null <==> active != null && exists f | f in tools :: f.name == name
      ensures turn != null ==> turn == active && turn.Valid()
      ensures registered <==>
        && turn != null && Allows(turn.policy, name)
        && (present ==> arguments.Some? && Json.Canon(arguments.value).Object?)
      ensures registered ==>
        var text := if present then Json.Canon(arguments.value) else Json.Object(Json.NoMember);
        turn.View() == Register(old(active.View()), ToolCall(id, name, text))
      ensures !registered && active != null ==> active.View() == old(active.View())
    {
      turn, registered := null, false;
      var known := false;
      for i := 0 to |tools|
        invariant known <==> exists k | 0 <= k < i :: tools[k].name == name
      {
        if tools[i].name == name {
          known := true;
        }
      }
      if !known || active == null {
        assert forall f | f in tools :: exists k | 0 <= k < |tools| :: tools[k] == f;
        return;
      }
      turn := active;
      registered := turn.RegisterCall(id, name, if present then arguments else Some(Json.Object(Json.NoMember)));
    }
  }

  function Serial(turn: ActiveTurn?): Option<nat> {
    if turn == null then None else Some(turn.serial)
  }

  class SessionState {
    var active: ActiveTurn?
    var facade: McpFacade?
    var toolHash: ToolHash
    var process: Option<Process>
    var history: Option<seq<Message>>
    var historyCount: nat
    var historyHash: Digest
    var resumeID: string
    var cwd: string
    var lastAccess: int

    constructor (saved: Option<Record>, now: int)
      ensures View() == Reloaded(saved) && active == null && facade == null && lastAccess == now
    {
      active, facade, toolHash, process, history := null, null, NoTools, None, None;
      match saved {
        case Some(r) => resumeID, cwd, historyCount, historyHash := r.resumeID, r.cwd, r.historyCount, r.historyHash;
        case None => resumeID, cwd, historyCount, historyHash := "", "", 0, NoDigest;
      }
      lastAccess := now;
    }

    ghost function View(): Session
      reads this, if facade == null then {} else {facade}
    {
      Session(Serial(active), if facade == null then None else Some(facade.View()), toolHash, process,
              history, historyCount, historyHash, resumeID, cwd)
    }

    /** The objects that belong to this session. */
    ghost function Owned(): set<object>
      reads this, if facade == null then {} else {facade}
    {
      {this} + (if active == null then {} else {active})
      + (if facade == null then {} else {facade} + (if facade.active == null then {} else {facade.active}))
    }

    ghost predicate Valid()
      reads Owned()
      reads this, if facade == null then {} else {facade}
    {
      && (active != null ==> active.Valid())
      && (facade != null && facade.active != null ==> facade.active.Valid())
    }

    function PersistedCount(): nat
      reads this
    {
      match history
      case Some(h) => |h|
      case None => historyCount
    }

    method MatchesPrefix(messages: seq<Message>) returns (r: bool)
      ensures r <==> MatchesHistoryPrefix(View(), messages)
    {
      if history.Some? {
        r := HasPrefix(messages, history.value);
        return;
      }
      if historyCount <= 0 || historyCount > |messages| || historyHash == NoDigest {
        return false;
      }
      return TranscriptHash(messages[..historyCount]) == historyHash;
    }

    /** Called under the session lock; the caller then waits for the cancelled turn's runner. */
    method Stop()
      requires Valid()
      modifies Owned()
      ensures View() == Stopped(old(View())) && lastAccess == old(lastAccess) && Owned() == {this}
      ensures active == null && facade == null && process.None?
      ensures unchanged(this`history, this`historyCount, this`historyHash, this`resumeID, this`toolHash, this`cwd)
      ensures old(active) != null ==> old(active).cancelled
      ensures old(facade) != null ==> old(facade).cancelled
    {
      if active != null {
        active.Cancel();
      }
      if facade != null {
        facade.Close();
        facade := null;
      }
      process := None;
      if active != null {
        active := null;
      }
    }

    /** The fields both kinds of exchange write when they succeed. */
    method Commit(messages: seq<Message>, answer: Message, newResumeID: string)
      modifies this`history, this`historyCount, this`historyHash, this`resumeID
      ensures View() == Committed(old(View()), messages, answer, newResumeID)
      ensures resumeID == if newResumeID != "" then newResumeID else old(resumeID)
    {
      history := Some(messages + [answer]);
      historyCount := |messages| + 1;
      historyHash := TranscriptHash(messages + [answer]);
      if newResumeID != "" {
        resumeID := newResumeID;
      }
    }

    /** What evictIdle does to one stale session. */
    method Evict()
      requires Valid()
      modifies Owned()
      ensures View() == Evicted(old(View())) && lastAccess == old(lastAccess) && Owned() == {this}
      ensures active == null && facade == null && process.None? && cwd == old(cwd)
      ensures if old(facade != null || active != null)
        then history.None? && historyCount == 0 && historyHash == NoDigest && resumeID == "" && toolHash == NoTools
        else unchanged(this`history, this`historyCount, this`historyHash, this`resumeID, this`toolHash)
      ensures old(active) != null ==> old(active).cancelled
    {
      var hadTools := facade != null || active != null;
      Stop();
      if hadTools {
        history, historyCount, historyHash, resumeID, toolHash := None, 0, NoDigest, "", NoTools;
      }
      process := None;
    }
  }

  class SessionStore {
    const path: string
    var records: map<string, Record>

    /** Loading: entries that could not be resumed are dropped one by one. */
    constructor (path: string, stored: map<string, Record>)
      ensures this.path == path
      ensures records == if path == "" then map[]
        else map key | key in stored && Loadable(key, stored[key]) :: stored[key]
      ensures forall key :: key in records <==>
        && path != "" && key in stored && key != ""
        && stored[key].resumeID != "" && AbsolutePath(stored[key].cwd)
        && stored[key].historyCount > 0 && stored[key].historyHash != NoDigest
    {
      this.path := path;
      records := map[];
      new;
      if path == "" {
        return;
      }
      var rest := stored.Keys;
      while rest != {}
        invariant rest <= stored.Keys
        invariant records == map key | key in stored && key !in rest && Loadable(key, stored[key]) :: stored[key]
        decreases rest
      {
        var key :| key in rest;
        if Loadable(key, stored[key]) {
          records := records[key := stored[key]];
        }
        rest := rest - {key};
      }
    }

    /** The records after this key's entry is set or removed: without a path there are none to change. */
    function Updated(before: map<string, Record>, key: string, r: Option<Record>): map<string, Record> {
      if path == "" then before else WithRecord(before, key, r)
    }

    method Put(key: string, record: Record)
      modifies this`records
      ensures records == Updated(old(records), key, Some(record))
    {
      if path == "" {
        return;
      }
      records := records[key := record];
    }

    method Delete(key: string)
      modifies this`records
      ensures records == Updated(old(records), key, None)
    {
      if path == "" || key !in records {
        return;
      }
      records := records - {key};
    }
  }

  class Registry {
    var sessions: map<string, SessionState>
    const ttl: int
    const store: SessionStore

    ghost function Footprint(): set<object>
      reads this, sessions.Values, set s, o | s in sessions.Values && o in s.Owned() :: o
    {
      set key, o | key in sessions && o in sessions[key].Owned() :: o
    }

    /** Every session is sound and its objects are its own. */
    ghost predicate Valid()
      reads this, sessions.Values
      reads set s, o | s in sessions.Values && o in s.Owned() :: o
    {
      && (forall s | s in sessions.Values :: s.Valid() && this !in s.Owned())
      && (forall s, t | s in sessions.Values && t in sessions.Values && s != t :: s.Owned() !! t.Owned())
      && (forall a, b | a in sessions && b in sessions && a != b :: sessions[a] != sessions[b])
    }

    /** newRegistry: one process-less session for each loaded record. */
    constructor (ttl: int, store: SessionStore, now: int)
      ensures this.store == store && this.ttl == ttl && Valid() && fresh(Footprint())
      ensures sessions.Keys == store.records.Keys
      ensures forall key | key in sessions ::
        sessions[key].View() == Reloaded(Some(store.records[key])) && sessions[key].lastAccess == now
    {
      this.ttl, this.store := ttl, store;
      sessions := map[];
      new;
      var rest := store.records.Keys;
      while rest != {}
        invariant rest <= store.records.Keys && sessions.Keys == store.records.Keys - rest
        invariant forall key | key in sessions ::
          && fresh(sessions[key]) && sessions[key].Owned() == {sessions[key]} && sessions[key].Valid()
          && sessions[key] as object != this
          && sessions[key].View() == Reloaded(Some(store.records[key])) && sessions[key].lastAccess == now
        invariant forall a, b | a in sessions && b in sessions && a != b :: sessions[a] != sessions[b]
        decreases rest
      {
        var key :| key in rest;
        var state := new SessionState(Some(store.records[key]), now);
        sessions := sessions[key := state];
        rest := rest - {key};
      }
    }

    /** The state for a key, created on first use. Waiting for its lock is not modelled here. */
    method Lock(key: string, now: int) returns (state: SessionState)
      requires Valid()
      modifies this`sessions
      ensures key in sessions && state == sessions[key]
      ensures key in old(sessions) ==> sessions == old(sessions)
      ensures key !in old(sessions) ==> sessions == old(sessions)[key := state] && fresh(state) && state.View() == FRESH
    {
      if key !in sessions {
        state := new SessionState(None, now);
        sessions := sessions[key := state];
      }
      state := sessions[key];
    }

    /**
     One pass of the janitor. The sessions whose lock is taken (busy) or that were used
     recently stay as they are; the others are evicted. The store is not touched.
     */
    method EvictIdle(now: int, busy: set<string>)
      requires Valid()
      modifies Footprint()
      ensures sessions == old(sessions)
      ensures forall key | key in sessions ::
        if ttl > 0 && key !in busy && now - old(sessions[key].lastAccess) > ttl
        then sessions[key].View() == Evicted(old(sessions[key].View()))
        else sessions[key].View() == old(sessions[key].View())
    {
      if ttl <= 0 {
        return;
      }
      var stale := CollectStale(now, busy);
      EvictAll(stale);
    }

    /** First half: under the registry lock, try each session's lock. */
    method CollectStale(now: int, busy: set<string>) returns (stale: set<string>)
      ensures forall key :: key in stale <==> key in sessions && key !in busy && now - sessions[key].lastAccess > ttl
    {
      var cutoff := now - ttl;
      stale := {};
      var rest := sessions.Keys;
      while rest != {}
        invariant rest <= sessions.Keys
        invariant forall key ::
          key in stale <==> key in sessions && key !in rest && key !in busy && now - sessions[key].lastAccess > ttl
        decreases rest
      {
        var key :| key in rest;
        if key !in busy && sessions[key].lastAccess < cutoff {
          stale := stale + {key};
        }
        rest := rest - {key};
      }
    }

    /** Second half: stop the collected sessions one after the other. */
    method EvictAll(stale: set<string>)
      requires Valid() && stale <= sessions.Keys
      modifies Footprint()
      ensures sessions == old(sessions)
      ensures forall key | key in sessions ::
        sessions[key].View() == if key in stale then Evicted(old(sessions[key].View())) else old(sessions[key].View())
    {
      hide Valid, Evicted, SessionState.View, SessionState.Owned, SessionState.Valid;
      var left := stale;
      while left != {}
        invariant left <= stale && Valid()
        invariant sessions == old(sessions)
        invariant forall key | key in sessions && (key in left || key !in stale) ::
          sessions[key].View() == old(sessions[key].View()) && sessions[key].Owned() == old(sessions[key].Owned())
        invariant forall key | key in stale && key !in left ::
          sessions[key].View() == Evicted(old(sessions[key].View()))
        decreases left
      {
        var key :| key in left;
        EvictOne(key);
        left := left - {key};
      }
    }

    method EvictOne(key: string)
      requires Valid() && key in sessions
      modifies sessions[key].Owned()
      ensures Valid() && sessions == old(sessions)
      ensures sessions[key].View() == Evicted(old(sessions[key].View()))
      ensures forall k | k in sessions && k != key ::
        sessions[k].View() == old(sessions[k].View()) && sessions[k].Owned() == old(sessions[k].Owned())
    {
      hide Evicted, SessionState.View;
      var state := sessions[key];
      assert state in sessions.Values;
      assert forall k | k in sessions && k != key ::
        sessions[k] in sessions.Values && sessions[k].Owned() !! state.Owned();
      state.Evict();
    }
  }

  function RecordFor(records: map<string, Record>, key: string): Option<Record> {
    if key in records then Some(records[key]) else None
  }

  /** The records with the key's entry replaced, and no other touched. */
  function WithRecord(records: map<string, Record>, key: string, r: Option<Record>): map<string, Record> {
    if r.Some? then records[key := r.value] else records - {key}
  }

  lemma WithRecordLaws(records: map<string, Record>, key: string)
    ensures WithRecord(records, key, RecordFor(records, key)) == records
    ensures forall r :: RecordFor(WithRecord(records, key, r), key) == r
    ensures forall r, r' :: WithRecord(WithRecord(records, key, r), key, r') == WithRecord(records, key, r')
  {
    assert key !in records ==> records - {key} == records;
    forall r, r'
      ensures WithRecord(WithRecord(records, key, r), key, r') == WithRecord(records, key, r')
    {
    }
  }

  /** The same laws through a store, and that one without a path keeps what it has. */
  lemma StoreLaws(store: SessionStore, records: map<string, Record>, key: string)
    ensures store.Updated(records, key, RecordFor(records, key)) == records
    ensures store.path != "" ==> forall r :: RecordFor(store.Updated(records, key, r), key) == r
    ensures store.path == "" ==> forall r :: store.Updated(records, key, r) == records
    ensures forall r, r' :: store.Updated(store.Updated(records, key, r), key, r') == store.Updated(records, key, r')
  {
    WithRecordLaws(records, key);
  }

  class Server {
    const store: SessionStore

    constructor (store: SessionStore)
      ensures this.store == store
    {
      this.store := store;
    }

    method ClearSession(state: SessionState, key: string)
      requires state.Valid() && store !in state.Owned()
      modifies state.Owned(), store`records
      ensures state.View() == Cleared(old(state.View())) && state.Owned() == {state}
      ensures state.active == null && state.facade == null && state.process.None? && state.history.None?
      ensures state.historyCount == 0 && state.historyHash == NoDigest && state.resumeID == ""
      ensures state.toolHash == NoTools && state.cwd == old(state.cwd)
      ensures store.records == store.Updated(old(store.records), key, None)
      ensures old(state.active) != null ==> old(state.active).cancelled
    {
      state.Stop();
      state.toolHash := NoTools;
      state.process := None;
      state.history, state.historyCount, state.historyHash, state.resumeID := None, 0, NoDigest, "";
      store.Delete(key);
    }

    /** The end of handleChat for a turn that answered. */
    method CommitPlain(state: SessionState, key: string, r: Request, anew: bool, slice: seq<Message>, text: string,
                       resumeID: string)
      returns (reply: Reply)
      modifies state, store`records
      ensures var e := old(PlainSuccess(state.View(), RecordFor(store.records, key), r, anew, slice, text, resumeID));
        state.View() == e.session && reply == e.reply &&
        store.records == store.Updated(old(store.records), key, e.record)
      ensures state.active == old(state.active) && state.facade == old(state.facade)
    {
      StoreLaws(store, store.records, key);
      var answer := AssistantMessage(text, []);
      state.Commit(r.messages, answer, resumeID);
      if state.resumeID != "" {
        store.Put(key, Record(state.resumeID, state.cwd, state.historyCount, state.historyHash));
      }
      return Answered(anew, slice, answer);
    }

    /** handleChat from the first native run on, with the retry when the resumed session turns out lost. */
    method RunPlainTurn(state: SessionState, key: string, r: Request, anew: bool, resume: bool, slice: seq<Message>,
                        engine: Engine)
      returns (reply: Reply)
      requires Admitted(r) && state.active == null && state.facade == null
      modifies state, store`records
      ensures var e := old(RunPlain(state.View(), RecordFor(store.records, key), r, anew, resume, slice, engine));
        state.View() == e.session && reply == e.reply &&
        store.records == store.Updated(old(store.records), key, e.record)
      ensures state.active == null && state.facade == null
    {
      hide Promptable, SpokenOf, SessionStore.Updated;
      StoreLaws(store, store.records, key);
      if !engine.opens {
        return Failed;
      }
      var run, startedAnew, sent := engine.run, anew, slice;
      if run.RunMissing? && resume && run.textEmpty {
        ClearSession(state, key);
        startedAnew, sent := true, r.messages;
        var prompt := TurnPrompt(r.messages);
        if prompt.Ok? && engine.lateStart == Started {
          state.process, state.cwd := Some(Process([])), r.cwd;
          run := engine.lateRun;
        } else {
          run := RunFailed;
        }
        StoreLaws(store, store.records, key);
      }
      if !run.Done? {
        state.process, state.history := None, None;
        return Failed;
      }
      reply := CommitPlain(state, key, r, startedAnew, sent, run.text, run.resumeID);
    }

    /**
     handleChat from the decision on, for a request that does not take the tool path. The
     engine's behaviour at each call is a parameter; the reply says what the native session
     that answered was sent.
     */
    method HandleChat(state: SessionState, key: string, r: Request, engine: Engine) returns (reply: Reply)
      requires Admitted(r) && state.active == null && state.facade == null
      modifies state, store`records
      ensures var e := old(PlainExchange(state.View(), RecordFor(store.records, key), r, engine));
        state.View() == e.session && reply == e.reply &&
        store.records == store.Updated(old(store.records), key, e.record)
      ensures state.active == null && state.facade == null
    {
      hide Promptable, SpokenOf, SessionStore.Updated, ServePlain;
      StoreLaws(store, store.records, key);
      var matches := state.MatchesPrefix(r.messages);
      var continuation := state.cwd == r.cwd && matches;
      var resume := state.process.None? && state.resumeID != "" && continuation;
      var reset := !continuation || (state.process.None? && !resume);
      var delta := r.messages;
      if reset {
        ClearSession(state, key);
        StoreLaws(store, store.records, key);
      } else {
        delta := r.messages[state.PersistedCount()..];
      }
      ServingReadsNoRecord(state.View(), RecordFor(store.records, key), None, r, resume, delta, engine);
      reply := ServeDelta(state, key, r, resume, delta, engine);
    }

    /** handleChat from the prompt on: an agent is started if none runs, anew if its session is lost. */
    method ServeDelta(state: SessionState, key: string, r: Request, resume: bool, delta: seq<Message>, engine: Engine)
      returns (reply: Reply)
      requires Admitted(r) && WellFormed(delta) && state.active == null && state.facade == null
      modifies state, store`records
      ensures var e := old(ServePlain(state.View(), RecordFor(store.records, key), r, resume, delta, engine));
        state.View() == e.session && reply == e.reply &&
        store.records == store.Updated(old(store.records), key, e.record)
      ensures state.active == null && state.facade == null
    {
      hide Promptable, SpokenOf, SessionStore.Updated, RunPlain;
      StoreLaws(store, store.records, key);
      var prompt := TurnPrompt(delta);
      if prompt.Err? {
        return Rejected;
      }
      if state.process.Some? {
        reply := RunPlainTurn(state, key, r, false, resume, delta, engine);
        return;
      }
      if engine.start.Started? {
        state.process, state.cwd := Some(Process([])), r.cwd;
        reply := RunPlainTurn(state, key, r, !resume, resume, delta, engine);
        return;
      }
      if !(engine.start.StartMissing? && resume) {
        return Failed;
      }
      ClearSession(state, key);
      StoreLaws(store, store.records, key);
      prompt := TurnPrompt(r.messages);
      if prompt.Err? || engine.restart != Started {
        return Failed;
      }
      state.process, state.cwd := Some(Process([])), r.cwd;
      RecordIsNotRead(state.View(), RecordFor(store.records, key), None, r, true, false, r.messages, engine);
      reply := RunPlainTurn(state, key, r, true, false, r.messages, engine);
    }

    /** Which handler serves a request: tools asked for, served or pending, or a result brought, take the tool path. */
    method NeedsTools(state: SessionState, r: Request) returns (needs: bool)
      requires Admitted(r)
      ensures needs <==> r.tools != [] || state.facade != null || state.active != null || Last(r.messages).role.Tool?
      ensures needs <==> TakesToolPath(state.View(), r)
    {
      return |r.tools| > 0 || state.facade != null || state.active != null || Last(r.messages).role.Tool?;
    }

    /**
     The first part of handleToolChat: what it decides, and what it does to the session before a
     turn is launched or events are consumed.
     */
    method AdmitToolChat(state: SessionState, key: string, r: Request) returns (d: ToolDecision, resumed: bool)
      requires Admitted(r) && state.Valid() && store !in state.Owned()
      modifies state.Owned(), store`records
      ensures d == old(DecideTool(state.View(), r))
      ensures var clears := (d.RejectResult? || d.RejectUser? || d.Launch?) && d.clear;
        && state.View() == (if clears then Cleared(old(state.View())) else old(state.View()))
        && store.records == (if clears then store.Updated(old(store.records), key, None) else old(store.records))
        && (clears && old(state.active) != null ==> old(state.active).cancelled)
      ensures resumed <==> d.ResolveWith? && Acceptable(old(state.active.View()), d.batch)
      ensures d.ResolveWith? ==>
        && state.active == old(state.active)
        && state.active.View() == (if resumed
          then Resolved(old(state.active.View()), d.batch, r.policy) else old(state.active.View()))
    {
      hide Promptable, SpokenOf, Resolved, Acceptable, Cleared, SessionStore.Updated, ActiveTurn.Valid;
      resumed := false;
      var hash := ToolHashOf(r.tools);
      var matches := state.MatchesPrefix(r.messages);
      var same := state.cwd == r.cwd && state.toolHash == hash && matches;
      if Last(r.messages).role.Tool? {
        d, resumed := AdmitResult(state, key, r, same);
        return;
      }
      d := AdmitUser(state, key, r, same);
    }

    /** The branch for a request that brings none: it waits, is refused, or may launch. */
    method AdmitUser(state: SessionState, key: string, r: Request, same: bool) returns (d: ToolDecision)
      requires Admitted(r) && state.Valid() && store !in state.Owned()
      requires !Last(r.messages).role.Tool? && (same <==> SameToolSession(state.View(), r))
      modifies state.Owned(), store`records
      ensures d == old(DecideTool(state.View(), r)) && (d.TurnPending? || d.RejectUser? || d.Launch?)
      ensures var clears := !d.TurnPending? && d.clear;
        && state.View() == (if clears then Cleared(old(state.View())) else old(state.View()))
        && store.records == (if clears then store.Updated(old(store.records), key, None) else old(store.records))
        && (clears && old(state.active) != null ==> old(state.active).cancelled)
    {
      hide Promptable, SpokenOf, Cleared, SessionStore.Updated, ActiveTurn.Valid;
      if same && state.active != null {
        return TurnPending;
      }
      var delta := r.messages;
      var clear := false;
      if same && state.process.Some? && (state.facade == null || !state.facade.cancelled) {
        delta := r.messages[state.PersistedCount()..];
      } else {
        clear := true;
        ClearSession(state, key);
      }
      var carries := CarriesResult(delta, same);
      if carries {
        return RejectUser(clear);
      }
      var prompt := TurnPrompt(delta);
      if prompt.Err? {
        return RejectUser(clear);
      }
      return Launch(clear, delta);
    }

    method CarriesResult(delta: seq<Message>, same: bool) returns (carries: bool)
      ensures carries <==> same && exists m | m in delta :: m.role.Tool?
    {
      for i := 0 to |delta|
        invariant same ==> forall k | 0 <= k < i :: !delta[k].role.Tool?
      {
        if delta[i].role.Tool? && same {
          return true;
        }
      }
      return false;
    }

    /** The branch for a request that brings tool results. */
    method AdmitResult(state: SessionState, key: string, r: Request, same: bool)
      returns (d: ToolDecision, resumed: bool)
      requires Admitted(r) && state.Valid() && store !in state.Owned()
      requires Last(r.messages).role.Tool? && (same <==> SameToolSession(state.View(), r))
      modifies state.Owned(), store`records
      ensures d == old(DecideTool(state.View(), r)) && (d.RejectResult? || d.ResolveWith?)
      ensures var clears := d.RejectResult? && d.clear;
        && state.View() == (if clears then Cleared(old(state.View())) else old(state.View()))
        && store.records == (if clears then store.Updated(old(store.records), key, None) else old(store.records))
        && (clears && old(state.active) != null ==> old(state.active).cancelled)
      ensures resumed <==> d.ResolveWith? && Acceptable(old(state.active.View()), d.batch)
      ensures d.ResolveWith? ==>
        && state.active == old(state.active)
        && state.active.View() == (if resumed
          then Resolved(old(state.active.View()), d.batch, r.policy) else old(state.active.View()))
    {
      hide Promptable, Resolved, Acceptable, Cleared, SessionStore.Updated, ActiveTurn.Valid;
      if state.active != null && (state.cwd != r.cwd || state.toolHash != ToolHashOf(r.tools)) {
        ClearSession(state, key);
        return RejectResult(true), false;
      }
      if state.active == null || !same {
        return RejectResult(false), false;
      }
      var batch := r.messages[state.PersistedCount()..];
      d := ResolveWith(batch);
      resumed := state.active.Resolve(batch, r.policy);
    }

    /**
     The launch in handleToolChat: facade, turn, binding, engine. Without a turn the exchange
     has failed: no facade could be started, or the engine refused and the session is cleared.
     */
    method LaunchTurn(state: SessionState, key: string, r: Request, serial: nat, facadeStarts: bool, engineStarts: bool)
      returns (turn: ActiveTurn?)
      requires state.Valid() && store !in state.Owned()
      requires state.active == null && (state.process.None? ==> state.facade == null)
      modifies state.Owned(), store`records
      ensures turn != null <==> old(state.process.Some?) || ((r.tools == [] || facadeStarts) && engineStarts)
      ensures turn != null ==>
        && state.View() == Launched(old(state.View()), r, serial) && store.records == old(store.records)
        && state.active == turn && turn.View() == NewTurn(r.policy) && turn.serial == serial && fresh(turn)
        && (state.facade != null ==> state.facade.active == turn)
      ensures turn == null && r.tools != [] && !facadeStarts ==>
        state.View() == old(state.View()) && store.records == old(store.records)
      ensures turn == null && (r.tools == [] || facadeStarts) ==>
        && state.View() == Cleared(old(state.View())).(cwd := r.cwd)
        && store.records == store.Updated(old(store.records), key, None)
    {
      var first := state.process.None?;
      if first && |r.tools| > 0 {
        if !facadeStarts {
          return null;
        }
        state.facade := new McpFacade(r.tools);
      }
      turn := new ActiveTurn(serial, r.policy);
      state.active := turn;
      state.toolHash := ToolHashOf(r.tools);
      state.cwd := r.cwd;
      if state.facade != null {
        state.facade.Bind(turn);
      }
      if first {
        if !engineStarts {
          turn.CloseDone();
          ClearSession(state, key);
          return null;
        }
        state.process := Some(Process(if state.facade != null then state.facade.tools else []));
      }
    }

    /** A successful exchange of the tool path is committed and never persisted. */
    method CommitTool(state: SessionState, key: string, messages: seq<Message>, turn: ActiveTurn, collector: Collector)
      returns (answer: Message)
      modifies state, turn`sawDelta, turn`sawThinking, store`records
      ensures answer == AssistantMessage(collector.text, collector.toolCalls)
      ensures state.View() == Committed(old(state.View()), messages, answer, collector.resumeID)
      ensures state.active == old(state.active) && state.facade == old(state.facade)
      ensures turn.View() == old(turn.View()).(sawDelta := collector.sawDelta, sawThinking := collector.sawThinking)
      ensures store.records == store.Updated(old(store.records), key, None)
    {
      hide Committed;
      turn.sawDelta := collector.sawDelta;
      turn.sawThinking := collector.sawThinking;
      answer := AssistantMessage(collector.text, collector.toolCalls);
      state.Commit(messages, answer, collector.resumeID);
      store.Delete(key);
    }

    /** A completed turn leaves the session and its facade, and is then cancelled. */
    method FinishTurn(state: SessionState, turn: ActiveTurn)
      requires turn.Valid() && state.active == turn
      requires state.facade != null ==> state.facade.active == turn
      modifies state`active, if state.facade == null then {} else {state.facade}, turn`cancelled
      ensures state.View() == Unbound(old(state.View())) && state.active == null && state.facade == old(state.facade)
      ensures state.facade != null ==> state.facade.active == null
      ensures turn.Valid() && turn.View() == old(turn.View()).(cancelled := true)
    {
      state.active := null;
      if state.facade != null {
        state.facade.Bind(null);
      }
      turn.Cancel();
    }

    /**
     handleToolChat after its loop: a completed turn is unbound, a failed or cancelled exchange
     clears the session, a success is committed.
     */
    method EndToolChat(state: SessionState, key: string, r: Request, turn: ActiveTurn, collector: Collector,
                       end: LoopEnd)
      returns (answer: Option<Message>)
      requires state.Valid() && store !in state.Owned()
      requires state.active == turn && (state.facade != null ==> state.facade.active == turn)
      requires !end.StillWaiting?
      modifies state.Owned(), store`records
      ensures answer.Some? <==> end.Completed? || (end.Called? && !old(turn.cancelled))
      ensures store.records == store.Updated(old(store.records), key, None)
      ensures turn.cancelled <==> !end.Called? || old(turn.cancelled)
      ensures answer.Some? ==>
        && answer.value == AssistantMessage(collector.text, collector.toolCalls)
        && state.View() == Committed(if end.Completed? then Unbound(old(state.View())) else old(state.View()),
                                     r.messages, answer.value, collector.resumeID)
        && turn.View() == old(turn.View())
          .(cancelled := end.Completed?, sawDelta := collector.sawDelta, sawThinking := collector.sawThinking)
      ensures answer.None? ==> state.View() == Cleared(old(state.View()))
    {
      hide Committed, Cleared, Unbound, SessionStore.Updated;
      var failed := end.Aborted?;
      if end.Completed? {
        FinishTurn(state, turn);
      }
      if !failed && state.active != null {
        failed := turn.cancelled;
      }
      if failed {
        ClearSession(state, key);
        return None;
      }
      var message := CommitTool(state, key, r.messages, turn, collector);
      return Some(message);
    }
  }
}
