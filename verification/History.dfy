/** Transcripts (history.go): normalising requests, continuity, and which slice becomes a prompt. */
module History {
  import opened Types
  import opened Spaces
  import Json

  // A message as a client sends it, after JSON decoding.

  datatype Part = Part(kind: string, text: string)

  datatype Content = Missing | Plain(text: string) | Parts(parts: seq<Part>) | Unsupported

  datatype RawCall = RawCall(id: string, kind: string, name: string, arguments: Option<Json.Tree>)

  datatype ChatMessage = ChatMessage(role: Option<Role>, content: Content, toolCalls: seq<RawCall>, toolCallID: string)

  predicate ValidName(name: string) {
    1 <= |name| <= 64 &&
    forall c | c in name :: 'a' <= c <= 'z' || 'A' <= c <= 'Z' || '0' <= c <= '9' || c == '_' || c == '-'
  }

  predicate ValidRawCall(c: RawCall) {
    c.id != "" && c.kind == "function" && ValidName(c.name) &&
    c.arguments.Some? && Json.Canon(c.arguments.value).Object?
  }

  function NormalCall(c: RawCall): ToolCall
    requires ValidRawCall(c)
  {
    ToolCall(c.id, c.name, Json.Canon(c.arguments.value))
  }

  ghost predicate DistinctCallIds(calls: seq<RawCall>) {
    forall a, b :: 0 <= a < b < |calls| ==> calls[a].id != calls[b].id
  }

  ghost predicate ValidCalls(calls: seq<RawCall>) {
    (forall i | 0 <= i < |calls| :: ValidRawCall(calls[i])) && DistinctCallIds(calls)
  }

  ghost function NormalCalls(calls: seq<RawCall>): seq<ToolCall>
    requires ValidCalls(calls)
  {
    seq(|calls|, i requires 0 <= i < |calls| => NormalCall(calls[i]))
  }

  function JoinParts(parts: seq<Part>): Result<string> {
    if parts == [] then Ok("")
    else
      var p := parts[|parts| - 1];
      var before := JoinParts(parts[..|parts| - 1]);
      if before.Err? || (p.kind != "text" && p.kind != "input_text") then Err else Ok(before.value + p.text)
  }

  function TextContent(c: Content): Result<string> {
    match c
    case Plain(text) => Ok(text)
    case Parts(parts) => JoinParts(parts)
    case _ => Err
  }

  /** Content may be left out only beside tool calls of an assistant. */
  function EffectiveContent(m: ChatMessage): Content {
    if m.role == Some(Assistant) && m.toolCalls != [] && m.content.Missing? then Plain("") else m.content
  }

  ghost predicate AcceptedMessage(m: ChatMessage) {
    && m.role.Some?
    && (m.toolCalls != [] ==> m.role.value.Assistant?)
    && (m.role.value.Tool? <==> m.toolCallID != "")
    && ValidCalls(m.toolCalls)
    && TextContent(EffectiveContent(m)).Ok?
  }

  ghost function Normal(m: ChatMessage): Message
    requires AcceptedMessage(m)
  {
    Message(m.role.value, TextContent(EffectiveContent(m)).value, NormalCalls(m.toolCalls), m.toolCallID)
  }

  ghost function Normalized(messages: seq<ChatMessage>): Result<seq<Message>> {
    if messages != [] && forall i | 0 <= i < |messages| :: AcceptedMessage(messages[i])
    then Ok(seq(|messages|, i requires 0 <= i < |messages| => Normal(messages[i])))
    else Err
  }

  /** The inner loop of normalizeMessages: arguments are rewritten in the copied slice. */
  method NormalizeCalls(raw: seq<RawCall>) returns (r: Result<seq<ToolCall>>)
    ensures r.Ok? <==> ValidCalls(raw)
    ensures r.Ok? ==> r.value == NormalCalls(raw)
  {
    var calls := [];
    var seen: set<string> := {};
    for j := 0 to |raw|
      invariant ValidCalls(raw[..j]) && calls == NormalCalls(raw[..j])
      invariant forall a | 0 <= a < j :: raw[a].id in seen
      invariant forall id | id in seen :: exists a :: 0 <= a < j && raw[a].id == id
    {
      hide ValidRawCall;
      var call := raw[j];
      assert raw[..j + 1] == raw[..j] + [call];
      if call.id in seen {
        var a :| 0 <= a < j && raw[a].id == call.id;
        return Err;
      }
      if !ValidRawCall(call) {
        return Err;
      }
      seen := seen + {call.id};
      calls := calls + [NormalCall(call)];
    }
    assert raw[..|raw|] == raw;
    return Ok(calls);
  }

  method NormalizeMessages(messages: seq<ChatMessage>) returns (r: Result<seq<Message>>)
    ensures r == Normalized(messages)
  {
    if |messages| == 0 {
      return Err;
    }
    var result: seq<Message> := [];
    for i := 0 to |messages|
      invariant |result| == i
      invariant forall k | 0 <= k < i :: AcceptedMessage(messages[k]) && result[k] == Normal(messages[k])
    {
      var message := messages[i];
      if message.role.None?
        || (|message.toolCalls| > 0 && message.role.value != Assistant)
        || (message.role.value.Tool? != (message.toolCallID != "")) {
        return Err;
      }
      var calls := NormalizeCalls(message.toolCalls);
      if calls.Err? {
        return Err;
      }
      var raw := message.content;
      if message.role.value.Assistant? && |calls.value| > 0 && raw.Missing? {
        raw := Plain("");
      }
      var content := TextContent(raw);
      if content.Err? {
        return Err;
      }
      result := result + [Message(message.role.value, content.value, calls.value, message.toolCallID)];
    }
    assert result == Normalized(messages).value;
    return Ok(result);
  }

  method HasPrefix(messages: seq<Message>, prefix: seq<Message>) returns (r: bool)
    ensures r <==> prefix <= messages
  {
    if |messages| < |prefix| {
      return false;
    }
    for i := 0 to |prefix|
      invariant prefix[..i] == messages[..i]
    {
      if messages[i] != prefix[i] {
        return false;
      }
    }
    return true;
  }

  // What a successful exchange returned, sent back by the client.

  function EchoCall(c: ToolCall): RawCall {
    RawCall(c.id, "function", c.name, Some(c.arguments))
  }

  function Echo(answer: Message): ChatMessage {
    ChatMessage(Some(answer.role), Plain(answer.content),
                seq(|answer.toolCalls|, i requires 0 <= i < |answer.toolCalls| => EchoCall(answer.toolCalls[i])),
                answer.toolCallID)
  }

  predicate ValidToolCall(c: ToolCall) {
    c.id != "" && ValidName(c.name) && c.arguments.Object? && Json.Canonical(c.arguments)
  }

  /** An answer the gateway returns: plain text, or text with one valid call. */
  predicate ValidAnswer(answer: Message) {
    && answer.role.Assistant? && answer.toolCallID == ""
    && |answer.toolCalls| <= 1
    && forall c | c in answer.toolCalls :: ValidToolCall(c)
  }

  lemma CanonicalIsFixed(t: Json.Tree)
    requires Json.Canonical(t)
    ensures Json.Canon(t) == t
  {
    Json.CanonKeepsMeaning(t);
    Json.CanonicalIsUnique(Json.Canon(t), t);
  }

  lemma EchoIsNormal(answer: Message)
    requires ValidAnswer(answer)
    ensures AcceptedMessage(Echo(answer)) && Normal(Echo(answer)) == answer
  {
    EchoKeeps(answer);
  }

  /**
   A client that repeats its messages and the returned answer, and adds anything, is seen to
   continue: the stored history is a prefix of what its next request normalises to.
   */
  lemma EchoContinues(sent: seq<ChatMessage>, answer: Message, more: seq<ChatMessage>)
    requires Normalized(sent).Ok? && ValidAnswer(answer)
    ensures Normalized(sent + [Echo(answer)]) == Ok(Normalized(sent).value + [answer])
    ensures Normalized(sent + [Echo(answer)] + more).Ok? ==>
      Normalized(sent).value + [answer] <= Normalized(sent + [Echo(answer)] + more).value
  {
    EchoIsNormal(answer);
    var next := sent + [Echo(answer)];
    assert forall i | 0 <= i < |next| :: AcceptedMessage(next[i]);
    assert Normalized(next).value == Normalized(sent).value + [answer];
    var all := next + more;
    if Normalized(all).Ok? {
      assert forall i | 0 <= i < |next| :: all[i] == next[i];
      assert Normalized(all).value[..|next|] == Normalized(next).value;
    }
  }

  // turnPrompt: the slice of the transcript that becomes the next native prompt.

  predicate IsSystem(m: Message) {
    m.role.System? || m.role.Developer?
  }

  predicate Spoken(m: Message) {
    !IsSystem(m) && !m.role.Tool? && m.toolCalls == []
  }

  function SpokenOf(messages: seq<Message>): seq<Message> {
    if messages == [] then []
    else
      var before := SpokenOf(messages[..|messages| - 1]);
      if Spoken(messages[|messages| - 1]) then before + [messages[|messages| - 1]] else before
  }

  function LastSpeaker(messages: seq<Message>): Option<Message> {
    if messages == [] then None
    else if IsSystem(messages[|messages| - 1]) then LastSpeaker(messages[..|messages| - 1])
    else Some(messages[|messages| - 1])
  }

  /** A slice can be prompted when a user spoke last, and said something if nobody else spoke. */
  predicate Promptable(messages: seq<Message>) {
    var last := LastSpeaker(messages);
    && last.Some? && last.value.role.User? && last.value.toolCalls == []
    && (|SpokenOf(messages)| == 1 ==> !Blank(last.value.content))
  }

  lemma {:induction false} LastSpeakerIsSpokenLast(messages: seq<Message>)
    requires LastSpeaker(messages).Some? && Spoken(LastSpeaker(messages).value)
    ensures SpokenOf(messages) != [] && Last(SpokenOf(messages)) == LastSpeaker(messages).value
  {
    if IsSystem(messages[|messages| - 1]) {
      LastSpeakerIsSpokenLast(messages[..|messages| - 1]);
    }
  }

  lemma {:induction false} SpokenNeedsSpeaker(messages: seq<Message>)
    ensures SpokenOf(messages) != [] ==> LastSpeaker(messages).Some?
  {
    if messages != [] && IsSystem(messages[|messages| - 1]) {
      SpokenNeedsSpeaker(messages[..|messages| - 1]);
    }
  }

  /** The three scans of turnPrompt accept exactly the promptable slices; tool traffic is filtered out. */
  method TurnPrompt(messages: seq<Message>) returns (r: Result<seq<Message>>)
    requires forall m | m in messages :: m.toolCalls != [] ==> m.role.Assistant?
    ensures r == if Promptable(messages) then Ok(SpokenOf(messages)) else Err
  {
    var i := |messages|;
    assert messages[..i] == messages;
    while i > 0 && IsSystem(messages[i - 1])
      invariant 0 <= i <= |messages|
      invariant LastSpeaker(messages) == LastSpeaker(messages[..i])
    {
      assert messages[..i][..i - 1] == messages[..i - 1];
      i := i - 1;
    }
    if i > 0 && messages[i - 1].role != User {
      return Err;
    }
    assert i > 0 ==> messages[i - 1] in messages && LastSpeaker(messages) == Some(messages[i - 1]);
    var filtered := [];
    for k := 0 to |messages|
      invariant filtered == SpokenOf(messages[..k])
    {
      assert messages[..k + 1][..k] == messages[..k];
      if Spoken(messages[k]) {
        filtered := filtered + [messages[k]];
      }
    }
    assert messages[..|messages|] == messages;
    SpokenNeedsSpeaker(messages);
    if |filtered| == 0 {
      if i > 0 { LastSpeakerIsSpokenLast(messages); }
      return Err;
    }
    var lastUser := |filtered| - 1;
    while lastUser >= 0 && filtered[lastUser].role != User
      invariant -1 <= lastUser < |filtered|
      invariant forall k | lastUser < k < |filtered| :: filtered[k].role != User
    {
      lastUser := lastUser - 1;
    }
    LastSpeakerIsSpokenLast(messages);
    if lastUser < 0 || lastUser != |filtered| - 1 {
      return Err;
    }
    if |filtered| == 1 && TrimSpace(filtered[0].content) == "" {
      TrimmedAway(filtered[0].content);
      return Err;
    }
    TrimmedAway(filtered[0].content);
    return Ok(filtered);
  }

  // What normalising, joining and prompting mean, without their definitions.

  /** Text parts are joined in order, and any other part refuses the whole. */
  lemma {:induction false} PartsJoinInOrder(a: seq<Part>, b: seq<Part>)
    ensures JoinParts(a + b) ==
      if JoinParts(a).Ok? && JoinParts(b).Ok? then Ok(JoinParts(a).value + JoinParts(b).value) else Err
    ensures JoinParts([]) == Ok("")
    ensures forall p: Part :: JoinParts([p]) == if p.kind in {"text", "input_text"} then Ok(p.text) else Err
  {
    assert forall p: Part :: [p][..0] == [];
    assert forall p: Part :: "" + p.text == p.text;
    if b == [] {
      assert a + b == a;
      assert JoinParts(a).Ok? ==> JoinParts(a).value + "" == JoinParts(a).value;
    } else {
      var p := b[|b| - 1];
      assert (a + b)[..|a + b| - 1] == a + b[..|b| - 1];
      PartsJoinInOrder(a, b[..|b| - 1]);
      var x, y := JoinParts(a), JoinParts(b[..|b| - 1]);
      assert x.Ok? && y.Ok? ==> x.value + y.value + p.text == x.value + (y.value + p.text);
    }
  }

  /** What an accepted message is, and what it normalises to, field by field. */
  lemma NormalisedFields(m: ChatMessage)
    requires AcceptedMessage(m)
    ensures var n := Normal(m);
      && m.role == Some(n.role) && n.toolCallID == m.toolCallID
      && (n.role.Tool? <==> n.toolCallID != "") && (n.toolCalls != [] ==> n.role.Assistant?)
      && |n.toolCalls| == |m.toolCalls|
      && (forall i | 0 <= i < |n.toolCalls| ::
            && n.toolCalls[i].id == m.toolCalls[i].id && n.toolCalls[i].name == m.toolCalls[i].name
            && m.toolCalls[i].kind == "function" && m.toolCalls[i].arguments.Some?
            && Json.Denote(n.toolCalls[i].arguments) == Json.Denote(m.toolCalls[i].arguments.value)
            && ValidToolCall(n.toolCalls[i]))
      && (forall i, j | 0 <= i < j < |n.toolCalls| :: n.toolCalls[i].id != n.toolCalls[j].id)
    ensures var n := Normal(m);
      match m.content
      case Plain(text) => n.content == text
      case Parts(parts) => JoinParts(parts) == Ok(n.content)
      case Missing => n.content == "" && n.toolCalls != []
      case Unsupported => false
  {
    forall i | 0 <= i < |m.toolCalls|
      ensures ValidToolCall(Normal(m).toolCalls[i])
      ensures Json.Denote(Normal(m).toolCalls[i].arguments) == Json.Denote(m.toolCalls[i].arguments.value)
    {
      Json.CanonKeepsMeaning(m.toolCalls[i].arguments.value);
    }
  }

  /** A message that normalising can yield: any one with the fields above. */
  ghost predicate NormalMessage(m: Message) {
    && (m.role.Tool? <==> m.toolCallID != "") && (m.toolCalls != [] ==> m.role.Assistant?)
    && (forall c | c in m.toolCalls :: ValidToolCall(c))
    && (forall i, j | 0 <= i < j < |m.toolCalls| :: m.toolCalls[i].id != m.toolCalls[j].id)
  }

  lemma EchoKeeps(m: Message)
    requires NormalMessage(m)
    ensures AcceptedMessage(Echo(m)) && Normal(Echo(m)) == m
  {
    var echo := Echo(m);
    forall i | 0 <= i < |m.toolCalls|
      ensures ValidRawCall(echo.toolCalls[i]) && NormalCall(echo.toolCalls[i]) == m.toolCalls[i]
    {
      assert m.toolCalls[i] in m.toolCalls;
      CanonicalIsFixed(m.toolCalls[i].arguments);
    }
    assert NormalCalls(echo.toolCalls) == m.toolCalls;
  }

  function EchoAll(messages: seq<Message>): seq<ChatMessage> {
    seq(|messages|, i requires 0 <= i < |messages| => Echo(messages[i]))
  }

  /**
   The transcripts the gateway works on are exactly the non-empty lists of such messages: each is
   normalised from its own echo, and nothing else is ever normalised. So normalising is idempotent.
   */
  lemma NormalisedExactly(messages: seq<Message>)
    ensures (exists raw :: Normalized(raw) == Ok(messages)) <==>
      messages != [] && forall m | m in messages :: NormalMessage(m)
    ensures (exists raw :: Normalized(raw) == Ok(messages)) ==> Normalized(EchoAll(messages)) == Ok(messages)
  {
    if raw :| Normalized(raw) == Ok(messages) {
      forall i | 0 <= i < |messages|
        ensures NormalMessage(messages[i])
      {
        assert AcceptedMessage(raw[i]) && messages[i] == Normal(raw[i]);
        NormalisedFields(raw[i]);
      }
    }
    if messages != [] && forall m | m in messages :: NormalMessage(m) {
      var echoes := EchoAll(messages);
      forall i | 0 <= i < |messages|
        ensures AcceptedMessage(echoes[i]) && Normal(echoes[i]) == messages[i]
      {
        assert messages[i] in messages;
        EchoKeeps(messages[i]);
      }
      assert Normalized(echoes).value == messages;
    }
  }

  /** Prompts keep, in order, exactly what users and assistants said; tool calls, results and system messages go. */
  lemma {:induction false} SpokenIsFiltered(a: seq<Message>, b: seq<Message>)
    ensures SpokenOf(a + b) == SpokenOf(a) + SpokenOf(b)
    ensures forall m :: SpokenOf([m]) == if (m.role.User? || m.role.Assistant?) && m.toolCalls == [] then [m] else []
  {
    assert forall m: Message :: [m][..0] == [];
    if b == [] {
      assert a + b == a;
    } else {
      assert (a + b)[..|a + b| - 1] == a + b[..|b| - 1];
      SpokenIsFiltered(a, b[..|b| - 1]);
    }
  }

  /**
   A slice can be prompted if and only if it is some messages, a user's, and nothing after it but
   system messages; and the user's words are not blank unless somebody spoke before.
   */
  lemma PromptableExactly(messages: seq<Message>)
    ensures Promptable(messages) <==>
      exists k: nat :: UserSpeaksLast(messages, k) && (SpokenOf(messages[..k]) != [] || !Blank(messages[k].content))
  {
    if k: nat :| UserSpeaksLast(messages, k) && (SpokenOf(messages[..k]) != [] || !Blank(messages[k].content)) {
      UserSpeaksLastMeans(messages, k);
    }
    if Promptable(messages) {
      var k := LastSpeakerAt(messages);
      UserSpeaksLastMeans(messages, k);
    }
  }

  ghost predicate UserSpeaksLast(messages: seq<Message>, k: nat) {
    && k < |messages| && messages[k].role.User? && messages[k].toolCalls == []
    && forall i | k < i < |messages| :: messages[i].role.System? || messages[i].role.Developer?
  }

  lemma {:induction false} LastSpeakerAt(messages: seq<Message>) returns (k: nat)
    requires LastSpeaker(messages).Some?
    ensures k < |messages| && messages[k] == LastSpeaker(messages).value
    ensures forall i | k < i < |messages| :: messages[i].role.System? || messages[i].role.Developer?
  {
    var n := |messages| - 1;
    if IsSystem(messages[n]) {
      k := LastSpeakerAt(messages[..n]);
    } else {
      k := n;
    }
  }

  lemma {:induction false} UserSpeaksLastMeans(messages: seq<Message>, k: nat)
    requires UserSpeaksLast(messages, k)
    ensures LastSpeaker(messages) == Some(messages[k]) && SpokenOf(messages) == SpokenOf(messages[..k]) + [messages[k]]
  {
    var n := |messages| - 1;
    if k < n {
      UserSpeaksLastMeans(messages[..n], k);
      assert messages[..n][..k] == messages[..k];
    }
  }
}
