/** How agent output becomes an answer (stream.go): the delta and full-text rules, without the wire. */
module Collecting {
  import opened Types

  datatype AgentMessage =
    | Init(model: string, resumeID: string)
    | TextDelta(content: string)
    | FullText(content: string)
    | ThinkingDelta(content: string)
    | FullThinking(content: string)
    | Usage(input: nat, output: nat)
    | Failure(content: string)
    | Other

  /** What a collector has gathered, with the two flags that survive a response boundary. */
  datatype Gather = Gather(text: string, reasoning: string, sawDelta: bool, sawThinking: bool)

  /** The text a message adds: a delta always, a full text only when no delta announced it. */
  function TextOf(g: Gather, m: AgentMessage): string {
    if m.TextDelta? || (m.FullText? && !g.sawDelta) then m.content else ""
  }

  function ReasoningOf(g: Gather, m: AgentMessage): string {
    if m.ThinkingDelta? || (m.FullThinking? && !g.sawThinking) then m.content else ""
  }

  function Absorb(g: Gather, m: AgentMessage): Gather {
    Gather(
      g.text + TextOf(g, m),
      g.reasoning + ReasoningOf(g, m),
      if m.TextDelta? then true else if m.FullText? then false else g.sawDelta,
      if m.ThinkingDelta? then true else if m.FullThinking? then false else g.sawThinking)
  }

  function AbsorbAll(g: Gather, ms: seq<AgentMessage>): Gather {
    if ms == [] then g else Absorb(AbsorbAll(g, ms[..|ms| - 1]), ms[|ms| - 1])
  }

  /** A collector for the next response segment: empty text, the turn's flags. */
  function NextSegment(g: Gather): Gather {
    Gather("", "", g.sawDelta, g.sawThinking)
  }

  function Prefixed(text: string, reasoning: string, g: Gather): Gather {
    g.(text := text + g.text, reasoning := reasoning + g.reasoning)
  }

  lemma AbsorbIsSegmented(text: string, reasoning: string, g: Gather, m: AgentMessage)
    ensures Absorb(Prefixed(text, reasoning, g), m) == Prefixed(text, reasoning, Absorb(g, m))
  {
    assert text + g.text + TextOf(g, m) == text + (g.text + TextOf(g, m));
    assert reasoning + g.reasoning + ReasoningOf(g, m) == reasoning + (g.reasoning + ReasoningOf(g, m));
  }

  /** What was gathered before only stands in front. */
  lemma {:induction false} AbsorbAllIsSegmented(text: string, reasoning: string, g: Gather, ms: seq<AgentMessage>)
    ensures AbsorbAll(Prefixed(text, reasoning, g), ms) == Prefixed(text, reasoning, AbsorbAll(g, ms))
  {
    if ms != [] {
      var init := ms[..|ms| - 1];
      AbsorbAllIsSegmented(text, reasoning, g, init);
      AbsorbIsSegmented(text, reasoning, AbsorbAll(g, init), ms[|ms| - 1]);
    }
  }

  lemma {:induction false} AbsorbAllAppends(g: Gather, a: seq<AgentMessage>, b: seq<AgentMessage>)
    ensures AbsorbAll(g, a + b) == AbsorbAll(AbsorbAll(g, a), b)
  {
    if b == [] {
      assert a + b == a;
    } else {
      assert (a + b)[..|a + b| - 1] == a + b[..|b| - 1];
      AbsorbAllAppends(g, a, b[..|b| - 1]);
    }
  }

  lemma AbsorbFirst(g: Gather, m: AgentMessage, ms: seq<AgentMessage>)
    ensures AbsorbAll(g, []) == g
    ensures AbsorbAll(g, [m] + ms) == AbsorbAll(Absorb(g, m), ms)
  {
    assert [m][..0] == [];
    AbsorbAllAppends(g, [m], ms);
  }

  /** One gather per response segment, each starting from the flags the previous one left. */
  function Segments(g: Gather, parts: seq<seq<AgentMessage>>): seq<Gather>
    decreases |parts|
  {
    if parts == [] then []
    else
      var first := AbsorbAll(NextSegment(g), parts[0]);
      [first] + Segments(first, parts[1..])
  }

  function Flatten<T>(parts: seq<seq<T>>): seq<T> {
    if parts == [] then [] else parts[0] + Flatten(parts[1..])
  }

  /** The segments' texts and reasonings one after the other, with the last segment's flags. */
  function Join(g: Gather, segments: seq<Gather>): Gather
    decreases |segments|
  {
    if segments == [] then g else Join(Prefixed(g.text, g.reasoning, segments[0]), segments[1..])
  }

  /**
   Splitting a turn's output over any number of responses loses and repeats nothing: joined,
   the segments are what one collector makes of the whole.
   */
  lemma {:induction false} SegmentedEqualsWhole(g: Gather, parts: seq<seq<AgentMessage>>)
    ensures Join(g, Segments(g, parts)) == AbsorbAll(g, Flatten(parts))
    decreases |parts|
  {
    if parts != [] {
      var first := AbsorbAll(NextSegment(g), parts[0]);
      var whole := AbsorbAll(g, parts[0]);
      assert Prefixed(g.text, g.reasoning, NextSegment(g)) == g;
      AbsorbAllIsSegmented(g.text, g.reasoning, NextSegment(g), parts[0]);
      assert Segments(first, parts[1..]) == Segments(whole, parts[1..]);
      SegmentedEqualsWhole(whole, parts[1..]);
      AbsorbAllAppends(g, parts[0], Flatten(parts[1..]));
    }
  }

  // Well-formed output: every block is either deltas followed by their full text, or the full text alone.

  datatype Block = Streamed(thinking: bool, deltas: seq<string>, full: string) | Whole(thinking: bool, full: string)

  predicate WellFormed(b: Block) {
    b.Streamed? ==> b.deltas != [] && Flatten(b.deltas) == b.full
  }

  function Delta(thinking: bool, s: string): AgentMessage {
    if thinking then ThinkingDelta(s) else TextDelta(s)
  }

  function Deltas(thinking: bool, ss: seq<string>): seq<AgentMessage> {
    seq(|ss|, i requires 0 <= i < |ss| => Delta(thinking, ss[i]))
  }

  function Messages(b: Block): seq<AgentMessage> {
    (if b.Streamed? then Deltas(b.thinking, b.deltas) else [])
    + [if b.thinking then FullThinking(b.full) else FullText(b.full)]
  }

  function Output(blocks: seq<Block>): seq<AgentMessage> {
    if blocks == [] then [] else Messages(blocks[0]) + Output(blocks[1..])
  }

  function AddBlock(g: Gather, b: Block): Gather {
    if b.thinking then g.(reasoning := g.reasoning + b.full) else g.(text := g.text + b.full)
  }

  function AddBlocks(g: Gather, blocks: seq<Block>): Gather
    decreases |blocks|
  {
    if blocks == [] then g else AddBlocks(AddBlock(g, blocks[0]), blocks[1..])
  }

  lemma {:induction false} FlattenAppends(ss: seq<string>, s: string)
    ensures Flatten(ss + [s]) == Flatten(ss) + s
  {
    if ss == [] {
      assert Flatten([s]) == s + Flatten<char>([]);
    } else {
      assert (ss + [s])[1..] == ss[1..] + [s];
      FlattenAppends(ss[1..], s);
    }
  }

  lemma OneFlattens(s: string)
    ensures Flatten([s]) == s
  {
    assert Flatten([s]) == s + Flatten<char>([]);
  }

  /** More text, or more reasoning, with its flag up. */
  function Added(g: Gather, thinking: bool, s: string): Gather {
    if thinking then g.(reasoning := g.reasoning + s, sawThinking := true) else g.(text := g.text + s, sawDelta := true)
  }

  lemma DeltaIsAdded(g: Gather, thinking: bool, s: string)
    ensures Absorb(g, Delta(thinking, s)) == Added(g, thinking, s)
  {
    assert g.text + "" == g.text && g.reasoning + "" == g.reasoning;
  }

  lemma AddingTwice(g: Gather, thinking: bool, a: string, b: string)
    ensures Added(Added(g, thinking, a), thinking, b) == Added(g, thinking, a + b)
  {
    assert g.text + a + b == g.text + (a + b);
    assert g.reasoning + a + b == g.reasoning + (a + b);
  }

  /** Deltas are gathered in order and leave their flag up. */
  lemma {:induction false} DeltasAreGathered(g: Gather, thinking: bool, ss: seq<string>)
    requires ss != []
    ensures AbsorbAll(g, Deltas(thinking, ss)) == Added(g, thinking, Flatten(ss))
  {
    var init, s := ss[..|ss| - 1], ss[|ss| - 1];
    var ms := Deltas(thinking, ss);
    assert ms[..|ms| - 1] == Deltas(thinking, init) && ss == init + [s];
    hide Absorb, Flatten, Added;
    if init != [] {
      DeltasAreGathered(g, thinking, init);
      DeltaIsAdded(AbsorbAll(g, Deltas(thinking, init)), thinking, s);
      AddingTwice(g, thinking, Flatten(init), s);
      FlattenAppends(init, s);
    } else {
      DeltaIsAdded(g, thinking, s);
      OneFlattens(s);
      assert AbsorbAll(g, ms[..|ms| - 1]) == g;
    }
  }

  lemma BlockIsGatheredOnce(g: Gather, b: Block)
    requires !g.sawDelta && !g.sawThinking && WellFormed(b)
    ensures AbsorbAll(g, Messages(b)) == AddBlock(g, b)
  {
    var ms := Messages(b);
    if b.Streamed? {
      DeltasAreGathered(g, b.thinking, b.deltas);
      assert ms[..|ms| - 1] == Deltas(b.thinking, b.deltas);
    } else {
      assert AbsorbAll(g, ms[..|ms| - 1]) == g;
    }
  }

  /** Well-formed output is gathered as each block once, text and reasoning apart. */
  lemma {:induction false} WellFormedOutputIsEachBlockOnce(g: Gather, blocks: seq<Block>)
    requires !g.sawDelta && !g.sawThinking
    requires forall b | b in blocks :: WellFormed(b)
    ensures AbsorbAll(g, Output(blocks)) == AddBlocks(g, blocks)
    decreases |blocks|
  {
    if blocks != [] {
      BlockIsGatheredOnce(g, blocks[0]);
      AbsorbAllAppends(g, Messages(blocks[0]), Output(blocks[1..]));
      WellFormedOutputIsEachBlockOnce(AddBlock(g, blocks[0]), blocks[1..]);
    }
  }

  // Text and reasoning do not see each other.

  function TextOnly(ms: seq<AgentMessage>): seq<AgentMessage> {
    if ms == [] then []
    else
      var before, m := TextOnly(ms[..|ms| - 1]), ms[|ms| - 1];
      if m.TextDelta? || m.FullText? then before + [m] else before
  }

  function ReasoningOnly(ms: seq<AgentMessage>): seq<AgentMessage> {
    if ms == [] then []
    else
      var before, m := ReasoningOnly(ms[..|ms| - 1]), ms[|ms| - 1];
      if m.ThinkingDelta? || m.FullThinking? then before + [m] else before
  }

  /** However they are interleaved, the text depends on the text messages alone, and the reasoning on its own. */
  lemma {:induction false} TextAndReasoningAreApart(g: Gather, ms: seq<AgentMessage>)
    ensures var all, text, reasoning := AbsorbAll(g, ms), AbsorbAll(g, TextOnly(ms)), AbsorbAll(g, ReasoningOnly(ms));
      && all.text == text.text && all.sawDelta == text.sawDelta
      && all.reasoning == reasoning.reasoning && all.sawThinking == reasoning.sawThinking
  {
    if ms != [] {
      var before, m := ms[..|ms| - 1], ms[|ms| - 1];
      TextAndReasoningAreApart(g, before);
      var t, r := TextOnly(before), ReasoningOnly(before);
      assert (t + [m])[..|t|] == t && (r + [m])[..|r|] == r;
      var mid := AbsorbAll(g, before);
      assert mid.text + "" == mid.text && mid.reasoning + "" == mid.reasoning;
    }
  }
}
