/**
 The collector of one HTTP response (stream.go): what it gathers, what it writes, and the
 heartbeat that writes beside it. A chunk is a tagged value; c.mu makes every write atomic, so
 an interleaving with the heartbeat is a sequence of operations.
 */
module StreamCollector {
  import opened Types
  import opened Collecting

  datatype Chunk =
    | RoleChunk
    | ContentChunk(text: string)
    | ReasoningChunk(text: string)
    | HeartbeatChunk                       // reasoning_content holding the zero-width marker
    | ToolCallsChunk(calls: seq<ToolCall>)
    | FinishChunk(reason: string, usage: Tokens)
    | ErrorChunk
    | DoneMark

  // What the agent's last result message reported; the total on the wire is the sum.
  datatype Tokens = Tokens(prompt: nat, completion: nat)

  datatype State = State(
    stream: bool,
    g: Gather,
    usage: Tokens,
    resumeID: string,
    waitingForInit: bool,
    effectiveIDs: seq<string>,
    toolCalls: seq<ToolCall>,
    streamStarted: bool,
    closed: bool,
    lastWrite: int,
    out: seq<Chunk>)

  function NewState(stream: bool, resumed: bool, effectiveIDs: seq<string>): State {
    State(stream, Gather("", "", false, false), Tokens(0, 0), "", resumed, effectiveIDs, [], false, false, 0, [])
  }

  function Write(c: State, chunk: Chunk, now: int): State {
    if c.closed then c else c.(out := c.out + [chunk], lastWrite := now)
  }

  function Start(c: State, now: int): State {
    Write(c.(streamStarted := true), RoleChunk, now)
  }

  predicate Refused(c: State, m: AgentMessage) {
    m.Failure? || (m.Init? && m.model != "" && c.effectiveIDs != [] && m.model !in c.effectiveIDs)
  }

  /** What a message puts on the wire. */
  function ChunkOf(c: State, m: AgentMessage): Option<Chunk> {
    if TextOf(c.g, m) != "" then Some(ContentChunk(TextOf(c.g, m)))
    else if ReasoningOf(c.g, m) != "" then Some(ReasoningChunk(ReasoningOf(c.g, m)))
    else None
  }

  function WriteIf(c: State, chunk: Option<Chunk>, now: int): State {
    if chunk.Some? then Write(c, chunk.value, now) else c
  }

  function AddText(c: State, s: string, now: int): State {
    WriteIf(c.(g := c.g.(text := c.g.text + s)),
      if c.stream && s != "" then Some(ContentChunk(s)) else None, now)
  }

  function AddReasoning(c: State, s: string, now: int): State {
    WriteIf(c.(g := c.g.(reasoning := c.g.reasoning + s)),
      if c.stream && s != "" then Some(ReasoningChunk(s)) else None, now)
  }

  function Handled(c: State, m: AgentMessage, now: int): State {
    match m
    case Init(_, resumeID) =>
      if Refused(c, m) then c
      else c.(resumeID := if resumeID != "" then resumeID else c.resumeID, waitingForInit := false)
    case Usage(input, output) => c.(usage := Tokens(input, output))
    case Failure(_) => c
    case Other => c
    case _ =>
      if c.waitingForInit then c
      else WriteIf(c.(g := Absorb(c.g, m)), if c.stream then ChunkOf(c, m) else None, now)
  }

  /** A text message adds its content with the flag up, or, if no delta announced it, before the flag goes down. */
  lemma TextHandled(c: State, m: AgentMessage, now: int)
    ensures m.TextDelta? && !c.waitingForInit ==>
      Handled(c, m, now) == AddText(c.(g := c.g.(sawDelta := true)), m.content, now)
    ensures m.FullText? && !c.waitingForInit ==>
      var added := if c.g.sawDelta then c else AddText(c, m.content, now);
      Handled(c, m, now) == added.(g := added.g.(sawDelta := false))
  {
    assert c.g.text + "" == c.g.text && c.g.reasoning + "" == c.g.reasoning;
  }

  /** The same for reasoning, which never enters the text. */
  lemma ReasoningHandled(c: State, m: AgentMessage, now: int)
    ensures m.ThinkingDelta? && !c.waitingForInit ==>
      Handled(c, m, now) == AddReasoning(c.(g := c.g.(sawThinking := true)), m.content, now)
    ensures m.FullThinking? && !c.waitingForInit ==>
      var added := if c.g.sawThinking then c else AddReasoning(c, m.content, now);
      Handled(c, m, now) == added.(g := added.g.(sawThinking := false))
  {
    assert c.g.text + "" == c.g.text && c.g.reasoning + "" == c.g.reasoning;
  }

  /** Before initialisation, and for the other kinds, nothing is written. */
  lemma OthersHandled(c: State, m: AgentMessage, now: int)
    ensures m.Init? && !Refused(c, m) ==>
      Handled(c, m, now) == c.(resumeID := if m.resumeID != "" then m.resumeID else c.resumeID, waitingForInit := false)
    ensures m.Usage? ==> Handled(c, m, now) == c.(usage := Tokens(m.input, m.output))
    ensures Refused(c, m) || m.Other? || (c.waitingForInit && !m.Init? && !m.Usage?) ==> Handled(c, m, now) == c
  {
  }

  function Beaten(c: State, now: int, interval: int): State {
    if now - c.lastWrite < interval then c else Write(c, HeartbeatChunk, now)
  }

  function ResetForFreshSession(c: State): State {
    c.(g := Gather("", "", false, false), usage := Tokens(0, 0), resumeID := "", waitingForInit := false)
  }

  function FinishReason(c: State): string {
    if c.toolCalls != [] then "tool_calls" else "stop"
  }

  function FinishTail(c: State): seq<Chunk> {
    (if c.toolCalls != [] then [ToolCallsChunk(c.toolCalls)] else [])
    + [FinishChunk(FinishReason(c), c.usage), DoneMark]
  }

  function Finished(c: State, now: int): State {
    if c.closed then c else c.(out := c.out + FinishTail(c), lastWrite := now, closed := true)
  }

  function Errored(c: State): State {
    if !c.streamStarted || c.closed then c else c.(out := c.out + [ErrorChunk, DoneMark], closed := true)
  }

  class Collector {
    const stream: bool
    const effectiveIDs: seq<string>
    var text: string
    var reasoning: string
    var sawDelta: bool
    var sawThinking: bool
    var usage: Tokens
    var resumeID: string
    var waitingForInit: bool
    var toolCalls: seq<ToolCall>
    var streamStarted: bool
    var closed: bool
    var lastWrite: int
    var out: seq<Chunk>

    ghost function View(): State
      reads this
    {
      State(stream, Gather(text, reasoning, sawDelta, sawThinking), usage, resumeID, waitingForInit, effectiveIDs,
            toolCalls, streamStarted, closed, lastWrite, out)
    }

    constructor (stream: bool, resumed: bool, effectiveIDs: seq<string>)
      ensures View() == NewState(stream, resumed, effectiveIDs)
    {
      this.stream, this.effectiveIDs := stream, effectiveIDs;
      text, reasoning, sawDelta, sawThinking := "", "", false, false;
      usage, resumeID, waitingForInit, toolCalls := Tokens(0, 0), "", resumed, [];
      streamStarted, closed, lastWrite, out := false, false, 0, [];
    }

    method WriteChunk(chunk: Chunk, now: int)
      modifies this`out, this`lastWrite
      ensures View() == Write(old(View()), chunk, now)
    {
      if closed {
        return;
      }
      out := out + [chunk];
      lastWrite := now;
    }

    method StartStream(now: int)
      modifies this
      ensures View() == Start(old(View()), now)
    {
      streamStarted := true;
      WriteChunk(RoleChunk, now);
    }

    method AppendText(s: string, now: int)
      modifies this`text, this`out, this`lastWrite
      ensures View() == AddText(old(View()), s, now)
    {
      text := text + s;
      if stream && s != "" {
        WriteChunk(ContentChunk(s), now);
      }
    }

    method AppendReasoning(s: string, now: int)
      modifies this`reasoning, this`out, this`lastWrite
      ensures View() == AddReasoning(old(View()), s, now)
    {
      if s == "" {
        assert reasoning + s == reasoning;
        return;
      }
      reasoning := reasoning + s;
      if stream {
        WriteChunk(ReasoningChunk(s), now);
      }
    }

    /** One agent message; ok is false when the turn must fail. */
    method Handle(m: AgentMessage, now: int) returns (ok: bool)
      modifies this`text, this`reasoning, this`sawDelta, this`sawThinking, this`usage
      modifies this`resumeID, this`waitingForInit, this`out, this`lastWrite
      ensures ok <==>
        !m.Failure? && !(m.Init? && m.model != "" && effectiveIDs != [] && m.model !in effectiveIDs)
      ensures View() == Handled(old(View()), m, now)
    {
      TextHandled(View(), m, now);
      ReasoningHandled(View(), m, now);
      OthersHandled(View(), m, now);
      hide AddText, AddReasoning, Handled;
      match m
      case Init(model, id) =>
        if model != "" && |effectiveIDs| > 0 && model !in effectiveIDs {
          return false;
        }
        if id != "" {
          resumeID := id;
        }
        waitingForInit := false;
        return true;
      case TextDelta(content) =>
        if waitingForInit {
          return true;
        }
        sawDelta := true;
        AppendText(content, now);
        return true;
      case FullText(content) =>
        if waitingForInit {
          return true;
        }
        if !sawDelta {
          AppendText(content, now);
        }
        sawDelta := false;
        return true;
      case ThinkingDelta(content) =>
        if waitingForInit {
          return true;
        }
        sawThinking := true;
        AppendReasoning(content, now);
        return true;
      case FullThinking(content) =>
        if waitingForInit {
          return true;
        }
        if !sawThinking {
          AppendReasoning(content, now);
        }
        sawThinking := false;
        return true;
      case Usage(input, output) =>
        usage := Tokens(input, output);
        return true;
      case Failure(_) =>
        return false;
      case _ =>
        return true;
    }

    /** One tick of the heartbeat goroutine. */
    method Beat(now: int, interval: int)
      modifies this`out, this`lastWrite
      ensures View() == Beaten(old(View()), now, interval)
    {
      if closed || now - lastWrite < interval {
        return;
      }
      WriteChunk(HeartbeatChunk, now);
    }

    method Reset()
      modifies this
      ensures View() == ResetForFreshSession(old(View()))
    {
      text, reasoning, sawDelta, sawThinking := "", "", false, false;
      usage, resumeID, waitingForInit := Tokens(0, 0), "", false;
    }

    method FinishStream(now: int)
      modifies this
      ensures View() == Finished(old(View()), now)
    {
      if closed {
        return;
      }
      var reason := if |toolCalls| > 0 then "tool_calls" else "stop";
      if |toolCalls| > 0 {
        WriteChunk(ToolCallsChunk(toolCalls), now);
      }
      WriteChunk(FinishChunk(reason, usage), now);
      out := out + [DoneMark];
      closed := true;
    }

    method StreamError()
      modifies this`out, this`closed
      ensures View() == Errored(old(View()))
    {
      if !streamStarted || closed {
        return;
      }
      out := out + [ErrorChunk];
      out := out + [DoneMark];
      closed := true;
    }
  }

  // The wire grammar.

  predicate BodyChunk(c: Chunk) {
    c.ContentChunk? || c.ReasoningChunk? || c.HeartbeatChunk?
  }

  /** The role, then any content, reasoning and heartbeats. */
  ghost predicate OpenStream(out: seq<Chunk>) {
    out != [] && out[0].RoleChunk? && forall i | 1 <= i < |out| :: BodyChunk(out[i])
  }

  ghost predicate FinishMarks(tail: seq<Chunk>, reason: string) {
    |tail| == 2 && tail[0].FinishChunk? && tail[0].reason == reason && tail[1].DoneMark?
  }

  ghost predicate Tail(tail: seq<Chunk>) {
    || FinishMarks(tail, "stop")
    || (|tail| == 3 && tail[0].ToolCallsChunk? && tail[0].calls != [] && FinishMarks(tail[1..], "tool_calls"))
    || tail == [ErrorChunk, DoneMark]
  }

  ghost predicate ClosedStream(out: seq<Chunk>) {
    exists n | 1 <= n <= |out| :: OpenStream(out[..n]) && Tail(out[n..])
  }

  function ContentOf(out: seq<Chunk>): string {
    if out == [] then ""
    else ContentOf(out[..|out| - 1]) + (if out[|out| - 1].ContentChunk? then out[|out| - 1].text else "")
  }

  /** Reasoning on the wire, heartbeats apart. */
  function ReasoningIn(out: seq<Chunk>): string {
    if out == [] then ""
    else ReasoningIn(out[..|out| - 1]) + (if out[|out| - 1].ReasoningChunk? then out[|out| - 1].text else "")
  }

  // What can happen to a started stream, in any order. The retry has the guard of its only caller.
  datatype Op =
    | Message(m: AgentMessage, now: int)
    | Tick(now: int, interval: int)
    | Retry
    | OfferCall(call: ToolCall)
    | Finish(now: int)
    | Fail

  predicate OpEnabled(c: State, op: Op) {
    op.Retry? ==> c.g.text == ""
  }

  function OpApply(c: State, op: Op): State {
    match op
    case Message(m, now) => Handled(c, m, now)
    case Tick(now, interval) => Beaten(c, now, interval)
    case Retry => ResetForFreshSession(c)
    case OfferCall(call) => c.(toolCalls := c.toolCalls + [call])
    case Finish(now) => Finished(c, now)
    case Fail => Errored(c)
  }

  ghost predicate OpRun(states: seq<State>, ops: seq<Op>) {
    && |states| == |ops| + 1
    && (exists resumed, ids, now :: states[0] == Start(NewState(true, resumed, ids), now))
    && forall k | 0 <= k < |ops| :: OpEnabled(states[k], ops[k]) && states[k + 1] == OpApply(states[k], ops[k])
  }

  ghost predicate WireSound(c: State) {
    && c.stream && c.streamStarted
    && (if c.closed then ClosedStream(c.out) else OpenStream(c.out) && ContentOf(c.out) == c.g.text)
  }

  lemma WritingBody(c: State, chunk: Chunk, now: int)
    requires !c.closed && OpenStream(c.out) && BodyChunk(chunk)
    ensures var c' := Write(c, chunk, now);
      && OpenStream(c'.out) && !c'.closed
      && ContentOf(c'.out) == ContentOf(c.out) + (if chunk.ContentChunk? then chunk.text else "")
      && ReasoningIn(c'.out) == ReasoningIn(c.out) + (if chunk.ReasoningChunk? then chunk.text else "")
  {
    assert (c.out + [chunk])[..|c.out|] == c.out;
  }

  lemma HandlingKeepsWire(c: State, m: AgentMessage, now: int)
    requires WireSound(c)
    ensures WireSound(Handled(c, m, now))
    ensures !c.closed ==> forall lost |
      ReasoningIn(c.out) == lost + c.g.reasoning ::
        ReasoningIn(Handled(c, m, now).out) == lost + Handled(c, m, now).g.reasoning
  {
    var chunk := ChunkOf(c, m);
    var c1 := c.(g := Absorb(c.g, m));
    assert c.g.text + "" == c.g.text && c.g.reasoning + "" == c.g.reasoning;
    if chunk.Some? && !c.closed {
      WritingBody(c1, chunk.value, now);
    }
  }

  lemma ClosingKeepsWire(out: seq<Chunk>, tail: seq<Chunk>)
    requires OpenStream(out) && Tail(tail)
    ensures ClosedStream(out + tail)
  {
    var n := |out|;
    assert (out + tail)[..n] == out && (out + tail)[n..] == tail;
  }

  lemma OpKeepsWire(c: State, op: Op)
    requires WireSound(c) && OpEnabled(c, op)
    ensures WireSound(OpApply(c, op))
  {
    match op
    case Message(m, now) => HandlingKeepsWire(c, m, now);
    case Tick(now, interval) =>
      if !c.closed {
        WritingBody(c, HeartbeatChunk, now);
      }
    case Finish(_) =>
      if !c.closed {
        assert Tail(FinishTail(c));
        ClosingKeepsWire(c.out, FinishTail(c));
      }
    case Fail =>
      if !c.closed {
        ClosingKeepsWire(c.out, [ErrorChunk, DoneMark]);
      }
    case _ =>
  }

  /**
   The wire grammar under every interleaving with the heartbeat: an open stream is the role
   chunk and body chunks whose content deltas spell the collected text, even across a retry; a
   closed one ends in exactly one finish, with the tool calls before it if there are any, or
   exactly one error, and then the one [DONE].
   */
  lemma {:induction false} WireGrammar(states: seq<State>, ops: seq<Op>, k: nat)
    requires OpRun(states, ops) && k < |states|
    ensures WireSound(states[k])
  {
    if k == 0 {
      assert forall resumed, ids, now :: ContentOf(Start(NewState(true, resumed, ids), now).out) == "";
    } else {
      WireGrammar(states, ops, k - 1);
      assert states[k - 1 + 1] == OpApply(states[k - 1], ops[k - 1]);
      OpKeepsWire(states[k - 1], ops[k - 1]);
    }
  }

  /** Once closed, a stream never changes again, whatever still arrives. */
  lemma {:induction false} ClosedStaysAsItIs(states: seq<State>, ops: seq<Op>, k: nat, l: nat)
    requires OpRun(states, ops) && k <= l < |states| && states[k].closed
    ensures states[l].closed && states[l].out == states[k].out
    decreases l - k
  {
    if k < l {
      ClosedStaysAsItIs(states, ops, k, l - 1);
      assert states[l - 1 + 1] == OpApply(states[l - 1], ops[l - 1]);
    }
  }

  /** A heartbeat enters neither text nor reasoning, and it may fall anywhere inside a message's handling. */
  lemma HeartbeatIsSilent(c: State, now: int, interval: int, g: Gather)
    ensures Beaten(c, now, interval).g == c.g
    ensures ContentOf(Beaten(c, now, interval).out) == ContentOf(c.out)
    ensures ReasoningIn(Beaten(c, now, interval).out) == ReasoningIn(c.out)
    ensures Beaten(c.(g := g), now, interval) == Beaten(c, now, interval).(g := g)
  {
    assert (c.out + [HeartbeatChunk])[..|c.out|] == c.out;
    assert ContentOf(c.out) + "" == ContentOf(c.out) && ReasoningIn(c.out) + "" == ReasoningIn(c.out);
  }

  lemma ClosedBefore(c: State, op: Op)
    ensures c.closed ==> OpApply(c, op).closed
  {
  }

  /** What the retries among the first k operations have taken from the collected reasoning. */
  function Discarded(states: seq<State>, ops: seq<Op>, k: nat): string
    requires k <= |ops| < |states|
  {
    if k == 0 then ""
    else Discarded(states, ops, k - 1) + (if ops[k - 1].Retry? then states[k - 1].g.reasoning else "")
  }

  lemma OpKeepsReasoning(c: State, op: Op, lost: string)
    requires WireSound(c) && !c.closed && ReasoningIn(c.out) == lost + c.g.reasoning && !OpApply(c, op).closed
    ensures var c' := OpApply(c, op);
      ReasoningIn(c'.out) == lost + (if op.Retry? then c.g.reasoning else "") + c'.g.reasoning
  {
    hide ReasoningIn, WireSound, ContentOf, Handled, Beaten;
    assert lost + "" == lost && lost + c.g.reasoning + "" == lost + c.g.reasoning;
    match op
    case Message(m, now) => HandlingKeepsWire(c, m, now);
    case Tick(now, interval) => HeartbeatIsSilent(c, now, interval, c.g);
    case _ =>
  }

  /** The reasoning on the wire is what the retries have discarded, then what is collected now. */
  lemma {:induction false} StreamedReasoning(states: seq<State>, ops: seq<Op>, k: nat)
    requires OpRun(states, ops) && k < |states| && !states[k].closed
    ensures ReasoningIn(states[k].out) == Discarded(states, ops, k) + states[k].g.reasoning
  {
    hide OpApply, WireSound;
    if k == 0 {
      assert forall resumed, ids, now :: ReasoningIn(Start(NewState(true, resumed, ids), now).out) == "";
    } else {
      assert states[k - 1 + 1] == OpApply(states[k - 1], ops[k - 1]);
      WireGrammar(states, ops, k - 1);
      ClosedBefore(states[k - 1], ops[k - 1]);
      StreamedReasoning(states, ops, k - 1);
      OpKeepsReasoning(states[k - 1], ops[k - 1], Discarded(states, ops, k - 1));
    }
  }

  lemma {:induction false} NothingDiscarded(states: seq<State>, ops: seq<Op>, k: nat)
    requires k <= |ops| < |states|
    ensures Discarded(states, ops, k) == "" <==> forall n | 0 <= n < k && ops[n].Retry? :: states[n].g.reasoning == ""
  {
    if k > 0 {
      NothingDiscarded(states, ops, k - 1);
    }
  }

  /**
   An open stream shows the collected reasoning, and no other, if and only if every retry so far
   found none to forget.
   */
  lemma ReasoningIsStreamedExactly(states: seq<State>, ops: seq<Op>, k: nat)
    requires OpRun(states, ops) && k < |states| && !states[k].closed
    ensures ReasoningIn(states[k].out) == states[k].g.reasoning <==>
      forall n | 0 <= n < k && ops[n].Retry? :: states[n].g.reasoning == ""
  {
    StreamedReasoning(states, ops, k);
    NothingDiscarded(states, ops, k);
    var lost, kept := Discarded(states, ops, k), states[k].g.reasoning;
    assert |lost + kept| == |lost| + |kept|;
    assert "" + kept == kept;
  }

  /** The failing run: a resumed session thinks aloud, is found lost, and is retried. */
  lemma RetryForgetsReasoning(thought: string) returns (states: seq<State>, ops: seq<Op>)
    requires thought != ""
    ensures OpRun(states, ops) && !Last(states).closed
    ensures ReasoningIn(Last(states).out) == thought && Last(states).g.reasoning == ""
  {
    ops := [Op.Message(Init("", ""), 0), Op.Message(ThinkingDelta(thought), 0), Retry];
    var s0 := Start(NewState(true, true, []), 0);
    var s1 := OpApply(s0, ops[0]);
    var s2 := OpApply(s1, ops[1]);
    states := [s0, s1, s2, OpApply(s2, ops[2])];
    assert s2.out == [RoleChunk, ReasoningChunk(thought)];
    assert OpRun(states, ops);
    StreamedReasoning(states, ops, 3);
    assert Discarded(states, ops, 3) == thought by {
      assert Discarded(states, ops, 1) == "" && Discarded(states, ops, 2) == "";
      assert "" + thought == thought;
    }
  }

  /** The tokens a finish reports are those of the agent's last result message since the last retry. */
  function LastUsage(ops: seq<Op>, k: nat): Tokens
    requires k <= |ops|
  {
    if k == 0 || ops[k - 1].Retry? then Tokens(0, 0)
    else if ops[k - 1].Message? && ops[k - 1].m.Usage? then Tokens(ops[k - 1].m.input, ops[k - 1].m.output)
    else LastUsage(ops, k - 1)
  }

  lemma {:induction false} UsageIsTheLast(states: seq<State>, ops: seq<Op>, k: nat)
    requires OpRun(states, ops) && k < |states|
    ensures states[k].usage == LastUsage(ops, k)
    ensures k < |ops| && ops[k].Finish? && !states[k].closed ==>
      |states[k + 1].out| >= 2 &&
      states[k + 1].out[|states[k + 1].out| - 2] == FinishChunk(FinishReason(states[k]), LastUsage(ops, k))
  {
    if k > 0 {
      UsageIsTheLast(states, ops, k - 1);
      assert states[k - 1 + 1] == OpApply(states[k - 1], ops[k - 1]);
    }
  }

  // What the heartbeat and the finish write, over whole runs.

  /** When the wire was last written before the k-th operation. */
  function LastWriteAt(states: seq<State>, ops: seq<Op>, k: nat): int
    requires k <= |ops| < |states|
  {
    if k == 0 then states[0].lastWrite
    else if states[k].out == states[k - 1].out then LastWriteAt(states, ops, k - 1)
    else
      match ops[k - 1]
      case Message(_, now) => now
      case Tick(now, _) => now
      case Finish(now) => now
      case _ => LastWriteAt(states, ops, k - 1)
  }

  lemma WritesAreTimed(c: State, op: Op)
    requires !OpApply(c, op).closed
    ensures !c.closed
    ensures var c' := OpApply(c, op);
      if c'.out == c.out then c'.lastWrite == c.lastWrite
      else (op.Message? || op.Tick?) && c'.lastWrite == op.now
  {
  }

  lemma {:induction false} LastWriteIsKept(states: seq<State>, ops: seq<Op>, k: nat)
    requires OpRun(states, ops) && k < |states| && !states[k].closed
    ensures states[k].lastWrite == LastWriteAt(states, ops, k)
  {
    hide OpApply;
    if k > 0 {
      assert states[k - 1 + 1] == OpApply(states[k - 1], ops[k - 1]);
      WritesAreTimed(states[k - 1], ops[k - 1]);
      LastWriteIsKept(states, ops, k - 1);
    }
  }

  /** A tick of the heartbeat writes one beat if the wire is open and was silent for the interval, and else nothing. */
  lemma BeatsAfterSilence(states: seq<State>, ops: seq<Op>, k: nat)
    requires OpRun(states, ops) && k < |ops| && ops[k].Tick?
    ensures states[k + 1].out ==
      if !states[k].closed && ops[k].now - LastWriteAt(states, ops, k) >= ops[k].interval
      then states[k].out + [HeartbeatChunk] else states[k].out
  {
    assert states[k + 1] == OpApply(states[k], ops[k]);
    if !states[k].closed {
      LastWriteIsKept(states, ops, k);
    }
  }

  /** The calls offered among the first k operations. */
  function Offered(ops: seq<Op>, k: nat): seq<ToolCall>
    requires k <= |ops|
  {
    if k == 0 then [] else Offered(ops, k - 1) + (if ops[k - 1].OfferCall? then [ops[k - 1].call] else [])
  }

  lemma {:induction false} CallsAreOffered(states: seq<State>, ops: seq<Op>, k: nat)
    requires OpRun(states, ops) && k < |states|
    ensures states[k].toolCalls == Offered(ops, k)
  {
    if k > 0 {
      CallsAreOffered(states, ops, k - 1);
      assert states[k - 1 + 1] == OpApply(states[k - 1], ops[k - 1]);
    }
  }

  /**
   A finish closes an open stream with exactly the offered calls, if there are any, the reason
   that goes with them, the last usage, and the end mark.
   */
  lemma FinishWrites(states: seq<State>, ops: seq<Op>, k: nat)
    requires OpRun(states, ops) && k < |ops| && ops[k].Finish? && !states[k].closed
    ensures states[k + 1].closed
    ensures states[k + 1].out == states[k].out +
      if Offered(ops, k) == [] then [FinishChunk("stop", LastUsage(ops, k)), DoneMark]
      else [ToolCallsChunk(Offered(ops, k)), FinishChunk("tool_calls", LastUsage(ops, k)), DoneMark]
  {
    CallsAreOffered(states, ops, k);
    UsageIsTheLast(states, ops, k);
    assert states[k + 1] == OpApply(states[k], ops[k]);
  }

  // A turn's messages, one after the other.

  function HandledAll(c: State, ms: seq<AgentMessage>, now: int): State {
    if ms == [] then c else Handled(HandledAll(c, ms[..|ms| - 1], now), ms[|ms| - 1], now)
  }

  /** An agent that reports a model other than the ones asked for. */
  predicate Foreign(effectiveIDs: seq<string>, m: AgentMessage) {
    m.Init? && m.model != "" && effectiveIDs != [] && m.model !in effectiveIDs
  }

  predicate Initialised(ms: seq<AgentMessage>) {
    exists m | m in ms :: m.Init?
  }

  /** What counts: all, or, of a resumed session that replays its past, what follows the first initialisation. */
  function Live(resumed: bool, ms: seq<AgentMessage>): seq<AgentMessage> {
    if !resumed || ms == [] then ms
    else if ms[0].Init? then ms[1..]
    else Live(resumed, ms[1..])
  }

  function LastResumeID(before: string, ms: seq<AgentMessage>): string {
    if ms == [] then before
    else
      var m := ms[|ms| - 1];
      if m.Init? && m.resumeID != "" then m.resumeID else LastResumeID(before, ms[..|ms| - 1])
  }

  lemma {:induction false} LiveGrows(resumed: bool, ms: seq<AgentMessage>, m: AgentMessage)
    ensures Live(resumed, ms + [m]) ==
      if resumed && !Initialised(ms) then [] else Live(resumed, ms) + [m]
    ensures resumed && !Initialised(ms) ==> Live(resumed, ms) == []
  {
    if resumed && ms != [] && !ms[0].Init? {
      assert (ms + [m])[1..] == ms[1..] + [m];
      LiveGrows(resumed, ms[1..], m);
      assert ms == [ms[0]] + ms[1..];
      assert Initialised(ms) <==> Initialised(ms[1..]);
    } else if ms != [] {
      assert (ms + [m])[1..] == ms[1..] + [m];
    }
  }

  /** Of accepted messages a collector gathers the live ones, as Collecting says, and the last resume id. */
  lemma {:induction false} GathersTheLive(c: State, ms: seq<AgentMessage>, now: int)
    requires forall m | m in ms :: !m.Failure? && !Foreign(c.effectiveIDs, m)
    ensures var c' := HandledAll(c, ms, now);
      && c'.g == AbsorbAll(c.g, Live(c.waitingForInit, ms))
      && c'.resumeID == LastResumeID(c.resumeID, ms)
      && (c'.waitingForInit <==> c.waitingForInit && !Initialised(ms))
      && c'.effectiveIDs == c.effectiveIDs && c'.stream == c.stream && c'.toolCalls == c.toolCalls
  {
    if ms != [] {
      var before, m := ms[..|ms| - 1], ms[|ms| - 1];
      assert ms == before + [m];
      GathersTheLive(c, before, now);
      LiveGrows(c.waitingForInit, before, m);
      var mid := HandledAll(c, before, now);
      HandledGathers(mid, m, now);
      if !mid.waitingForInit || m.Init? {
        AbsorbLast(c.g, Live(c.waitingForInit, before), m);
      }
    }
  }

  lemma AbsorbLast(g: Gather, ms: seq<AgentMessage>, m: AgentMessage)
    ensures AbsorbAll(g, ms + [m]) == Absorb(AbsorbAll(g, ms), m)
  {
    assert (ms + [m])[..|ms|] == ms;
  }

  lemma HandledGathers(c: State, m: AgentMessage, now: int)
    requires !m.Failure? && !Foreign(c.effectiveIDs, m)
    ensures var c' := Handled(c, m, now);
      && c'.g == (if c.waitingForInit then c.g else Absorb(c.g, m))
      && c'.resumeID == (if m.Init? && m.resumeID != "" then m.resumeID else c.resumeID)
      && (c'.waitingForInit <==> c.waitingForInit && !m.Init?)
      && c'.effectiveIDs == c.effectiveIDs && c'.stream == c.stream && c'.toolCalls == c.toolCalls
  {
    assert c.g.text + "" == c.g.text && c.g.reasoning + "" == c.g.reasoning;
  }

  /** A response that is not streamed writes no chunk while it collects, and none when it fails. */
  lemma UnstreamedIsSilent(c: State, m: AgentMessage, now: int)
    requires !c.stream && !c.streamStarted
    ensures Handled(c, m, now).out == c.out && Errored(c) == c
    ensures !Handled(c, m, now).stream && !Handled(c, m, now).streamStarted
  {
  }

  /** A new collector starts from nothing, and skips a replay exactly if its session was resumed. */
  lemma NewCollectorGathers(stream: bool, resumed: bool, effectiveIDs: seq<string>, ms: seq<AgentMessage>, now: int)
    requires forall m | m in ms :: !m.Failure? && !Foreign(effectiveIDs, m)
    ensures var c := HandledAll(NewState(stream, resumed, effectiveIDs), ms, now);
      && c.g == AbsorbAll(Gather("", "", false, false), Live(resumed, ms))
      && c.resumeID == LastResumeID("", ms) && c.toolCalls == []
  {
    GathersTheLive(NewState(stream, resumed, effectiveIDs), ms, now);
  }

  /** After a retry the collector is a new one, of a session that is not resumed, on the same wire. */
  lemma RetryStartsAnew(c: State)
    ensures ResetForFreshSession(c) ==
      NewState(c.stream, false, c.effectiveIDs).(toolCalls := c.toolCalls, streamStarted := c.streamStarted,
                                                 closed := c.closed, lastWrite := c.lastWrite, out := c.out)
  {
  }
}
