/**
 What a plain exchange answers, field by field, in terms of the session, the request and what the
 engine did: when it is answered at all, with which text, on which native session, and what stays.
 The text of a run is what its collector gathers from the agent's messages.
 */
module Answers {
  import opened Types
  import opened History
  import opened Sessions
  import opened Collecting
  import opened StreamCollector

  /** The prompt was accepted and the first native run could begin. */
  predicate Began(s: Session, r: Request, engine: Engine) {
    var d := Decide(s, r);
    && Promptable(d.delta)
    && (|| (s.process.Some? && !d.reset)
        || engine.start.Started?
        || (engine.start.StartMissing? && d.resume && Promptable(r.messages) && engine.restart.Started?))
  }

  /** The saved native session turned out lost: when it was resumed, or, before any text, when it ran. */
  predicate Lost(s: Session, r: Request, engine: Engine) {
    var d := Decide(s, r);
    && Promptable(d.delta) && d.resume
    && (|| engine.start.StartMissing?
        || (engine.start.Started? && engine.opens && engine.run.RunMissing? && engine.run.textEmpty))
  }

  /** The first run is lost and is tried again on a new native session. */
  predicate Retried(s: Session, r: Request, engine: Engine) {
    Lost(s, r, engine) && engine.start.Started? && Promptable(r.messages) && engine.lateStart.Started?
  }

  /**
   An exchange is answered exactly when its run, or the retry of a lost one, is done. The answer
   is that run's text; its native session is the old one exactly if that was live, or was resumed
   and not lost, and was sent what it lacked, or the whole transcript if it is new. A run that
   reports no resume id keeps the one its native session has.
   */
  lemma AnsweredExactly(s: Session, record: Option<Record>, r: Request, engine: Engine)
    ensures var e, d := PlainExchange(s, record, r, engine), Decide(s, r);
      && (e.reply.Answered? <==>
            && Began(s, r, engine) && engine.opens
            && (engine.run.Done? || (Retried(s, r, engine) && engine.lateRun.Done?)))
      && (e.reply.Rejected? <==> !Promptable(d.delta))
    ensures var e, d := PlainExchange(s, record, r, engine), Decide(s, r);
      var done := if engine.run.Done? then engine.run else engine.lateRun;
      e.reply.Answered? ==>
        && done.Done?
        && e.reply.answer == Message.Message(Assistant, done.text, [], "")
        && (e.reply.anew <==> d.reset || Lost(s, r, engine))
        && e.reply.slice == (if e.reply.anew then r.messages else d.delta)
        && e.session.history == Some(r.messages + [e.reply.answer])
        && e.session.process == (if s.process.Some? && !d.reset then s.process else Some(Process([])))
        && e.session.cwd == r.cwd
        && e.session.resumeID ==
             (if done.resumeID != "" then done.resumeID else if e.reply.anew then "" else s.resumeID)
        && e.record ==
             (if e.session.resumeID != "" then Some(RecordOf(e.session)) else if e.reply.anew then None else record)
  {
    hide Promptable;
  }

  /**
   An exchange without an answer forgets the session exactly if it started over or its native
   session is lost; otherwise count, hash, resume id and record stay. A process is left only by a
   refused prompt, which changes nothing else, and by a response that could not be opened.
   */
  lemma UnansweredExactly(s: Session, record: Option<Record>, r: Request, engine: Engine)
    requires !PlainExchange(s, record, r, engine).reply.Answered?
    ensures var e, d := PlainExchange(s, record, r, engine), Decide(s, r);
      if d.reset || Lost(s, r, engine) then
        && e.record.None? && e.session.resumeID == "" && e.session.history.None?
        && e.session.historyCount == 0 && e.session.historyHash == NoDigest
      else
        && e.record == record && e.session.cwd == s.cwd && e.session.resumeID == s.resumeID
        && e.session.historyCount == s.historyCount && e.session.historyHash == s.historyHash
        && (e.session.history == s.history || (e.session.history.None? && Began(s, r, engine) && engine.opens))
    ensures var e, d := PlainExchange(s, record, r, engine), Decide(s, r);
      e.session.process.Some? <==>
        || (!Promptable(d.delta) && s.process.Some? && !d.reset)
        || (Began(s, r, engine) && !engine.opens)
  {
    hide Promptable;
  }

  // One native run: the agent's messages go through the collector.

  predicate Accepted(effectiveIDs: seq<string>, ms: seq<AgentMessage>) {
    forall m | m in ms :: !m.Failure? && !Foreign(effectiveIDs, m)
  }

  /** The error of a run, or of its failed message, may say that the native session is missing. */
  function Ending(missing: bool, text: string): RunResult {
    if missing then RunMissing(text == "") else RunFailed
  }

  /**
   RunTurn with collector.handle: a refused message ends it, and after the last message the agent
   either completes or fails. A completed run is done with what was gathered from the live messages.
   */
  method RunNative(collector: Collector, messages: seq<AgentMessage>, completes: bool, missing: bool, now: int)
    returns (run: RunResult)
    modifies collector
    ensures run.Done? <==> completes && Accepted(collector.effectiveIDs, messages)
    ensures run.Done? ==>
      && run.text == AbsorbAll(old(collector.View()).g, Live(old(collector.waitingForInit), messages)).text
      && run.resumeID == LastResumeID(old(collector.resumeID), messages)
    ensures !run.Done? ==> run == Ending(missing, collector.text)
    ensures Accepted(collector.effectiveIDs, messages) ==>
      collector.View() == HandledAll(old(collector.View()), messages, now)
  {
    hide Handled;
    ghost var before := collector.View();
    for i := 0 to |messages|
      invariant Accepted(collector.effectiveIDs, messages[..i])
      invariant collector.View() == HandledAll(before, messages[..i], now)
    {
      assert messages[..i + 1] == messages[..i] + [messages[i]];
      assert messages[..i + 1][..i] == messages[..i];
      var ok := collector.Handle(messages[i], now);
      if !ok {
        assert messages[i] in messages;
        return Ending(missing, collector.text);
      }
    }
    assert messages[..|messages|] == messages;
    GathersTheLive(before, messages, now);
    if !completes {
      return Ending(missing, collector.text);
    }
    return Done(collector.text, collector.resumeID);
  }
}
