/** What a native session was handed, failed turns included, against its committed transcript. */
module Retelling {
  import opened Types
  import opened History
  import opened Spaces
  import opened Sessions
  import opened Gateway
  import opened Runs

  function ReplyTo(w: World, a: Action): Reply
    requires a.PlainRequest?
  {
    PlainExchange(w.session, w.record, a.request, a.engine).reply
  }

  /** A continued or resumed turn is handed to the native session and brings no answer. */
  predicate FailsOnSession(w: World, a: Action) {
    && a.PlainRequest?
    && var d := Decide(w.session, a.request);
    && !d.reset && Promptable(d.delta)
    && a.engine.opens && (w.session.process.Some? || a.engine.start.Started?)
    && !ReplyTo(w, a).Answered?
  }

  /** The native session is a new one from here on. */
  predicate StartsSession(w: World, a: Action) {
    match a
    case PlainRequest(_, _) => ReplyTo(w, a).Answered? && ReplyTo(w, a).anew
    case Install => w.session.process.None?
    case Crash => w.record.None?
    case _ => false
  }

  /** The slices and answers the native session has seen, whether or not they were committed. */
  function ToldBy(w: World, a: Action, before: seq<Message>): seq<Message> {
    if StartsSession(w, a) && !a.PlainRequest? then []
    else match a
      case PlainRequest(r, _) =>
        (match ReplyTo(w, a)
         case Answered(anew, slice, answer) => (if anew then [] else before) + slice + [answer]
         case _ => if FailsOnSession(w, a) then before + Decide(w.session, r).delta else before)
      case Commit(_) =>
        if w.holder.Committing? || w.holder.Finished? then before + w.holder.slice + [AnswerOf(w.holder)] else before
      case _ => before
  }

  function Told(worlds: seq<World>, actions: seq<Action>, k: nat): seq<Message>
    requires k <= |actions| < |worlds|
  {
    if k == 0 then [] else ToldBy(worlds[k - 1], actions[k - 1], Told(worlds, actions, k - 1))
  }

  /** How many messages failed turns have handed to the native session that is current after k steps. */
  function Wasted(worlds: seq<World>, actions: seq<Action>, k: nat): nat
    requires k <= |actions| < |worlds|
  {
    if k == 0 || StartsSession(worlds[k - 1], actions[k - 1]) then 0
    else
      Wasted(worlds, actions, k - 1)
      + (if FailsOnSession(worlds[k - 1], actions[k - 1])
         then |Decide(worlds[k - 1].session, actions[k - 1].request).delta| else 0)
  }

  lemma StepTells(w: World, a: Action, before: seq<Message>)
    requires Gateway.Enabled(w, a)
    ensures var w', told := Gateway.Apply(w, a), ToldBy(w, a, before);
      if StartsSession(w, a) then told == w'.heard
      else if FailsOnSession(w, a) then told == before + Decide(w.session, a.request).delta && w'.heard == w.heard
      else (before == w.heard ==> told == w'.heard) && |told| - |before| == |w'.heard| - |w.heard|
  {
    hide Promptable, PlainExchange, Decide, TakesToolPath, AcceptRequest, Consumed, AnswerOf;
    match a
    case ToolRequest(r) => AcceptingTellsNothing(w, r);
    case ConsumeNext(modelRefused) => ConsumingTellsNothing(w, modelRefused);
    case _ =>
  }

  lemma AcceptingTellsNothing(w: World, r: Request)
    requires r.messages != []
    ensures AcceptRequest(w, r).heard == w.heard
  {
    hide DecideTool;
  }

  lemma ConsumingTellsNothing(w: World, modelRefused: bool)
    requires w.holder.Consuming? && Active(w) && Current(w).st.events != []
    ensures Consumed(w, modelRefused).heard == w.heard
  {
  }

  lemma {:induction false} ToldIsHeardAndWasted(worlds: seq<World>, actions: seq<Action>, k: nat)
    requires Run(worlds, actions) && k < |worlds|
    ensures |Told(worlds, actions, k)| == |worlds[k].heard| + Wasted(worlds, actions, k)
    ensures Wasted(worlds, actions, k) == 0 ==> Told(worlds, actions, k) == worlds[k].heard
  {
    hide Gateway.Apply, Gateway.Enabled, ToldBy, StartsSession, FailsOnSession, Decide;
    if k > 0 {
      ToldIsHeardAndWasted(worlds, actions, k - 1);
      assert worlds[k - 1 + 1] == Gateway.Apply(worlds[k - 1], actions[k - 1]);
      StepTells(worlds[k - 1], actions[k - 1], Told(worlds, actions, k - 1));
      var w, a := worlds[k - 1], actions[k - 1];
      if FailsOnSession(w, a) {
        FailingHandsSomething(w, a);
      }
    }
  }

  lemma FailingHandsSomething(w: World, a: Action)
    requires FailsOnSession(w, a)
    ensures Decide(w.session, a.request).delta != []
  {
  }

  /** Every failure so far was on a native session that has been replaced since. */
  ghost predicate FailuresForgotten(worlds: seq<World>, actions: seq<Action>, k: nat)
    requires k <= |actions| < |worlds|
  {
    forall n | 0 <= n < k && FailsOnSession(worlds[n], actions[n]) ::
      exists m :: n < m < k && StartsSession(worlds[m], actions[m])
  }

  lemma {:induction false} WastedMeans(worlds: seq<World>, actions: seq<Action>, k: nat)
    requires k <= |actions| < |worlds|
    ensures Wasted(worlds, actions, k) == 0 <==> FailuresForgotten(worlds, actions, k)
  {
    hide StartsSession, FailsOnSession, Decide;
    if k > 0 {
      WastedMeans(worlds, actions, k - 1);
      var w, a := worlds[k - 1], actions[k - 1];
      StartingIsNoFailure(w, a);
      if FailsOnSession(w, a) {
        FailingHandsSomething(w, a);
      }
    }
  }

  lemma StartingIsNoFailure(w: World, a: Action)
    ensures !(StartsSession(w, a) && FailsOnSession(w, a))
  {
  }

  /**
   The native session has seen exactly the committed transcript if and only if every turn that
   failed on a native session did so on one replaced since.
   */
  lemma ToldExactly(worlds: seq<World>, actions: seq<Action>, k: nat)
    requires Run(worlds, actions) && k < |worlds|
    ensures Told(worlds, actions, k) == worlds[k].heard <==> FailuresForgotten(worlds, actions, k)
  {
    ToldIsHeardAndWasted(worlds, actions, k);
    WastedMeans(worlds, actions, k);
  }

  // A run that tells a slice twice.

  function EngineThat(run: RunResult): Engine {
    Engine(Started, StartResult.StartFailed, true, run, StartResult.StartFailed, RunFailed)
  }

  ghost predicate PlainFirst(r: Request) {
    Admitted(r) && r.tools == [] && !Last(r.messages).role.Tool? && Promptable(r.messages)
  }

  /** The transcript so far, and one more thing the user says. */
  function SayingMore(r: Request, said: string): Request {
    r.(messages := r.messages + [AssistantMessage("", []), Message(User, said, [], "")])
  }

  lemma SayingMoreIsFit(r: Request, said: string)
    requires PlainFirst(r) && !Blank(said)
    ensures Admitted(SayingMore(r, said)) && Promptable([Message(User, said, [], "")])
    ensures !Last(SayingMore(r, said).messages).role.Tool?
  {
  }

  function Answering(r: Request, id: string): Session {
    Committed(StartPlain(FRESH, r.cwd), r.messages, AssistantMessage("", []), id)
  }

  lemma FirstAnswer(r: Request, id: string)
    requires PlainFirst(r) && id != ""
    ensures !TakesToolPath(FRESH, r)
    ensures PlainExchange(FRESH, None, r, EngineThat(Done("", id))) ==
      Exchange(Answering(r, id), Some(RecordOf(Answering(r, id))), Answered(true, r.messages, AssistantMessage("", [])))
  {
    hide Promptable;
  }

  /** The decision for the next words: live after an answer, resumed after a failure. */
  lemma NextDecision(r: Request, id: string, said: string)
    requires PlainFirst(r) && id != ""
    ensures var next, words := SayingMore(r, said), [Message(User, said, [], "")];
      && Decide(Answering(r, id), next) == Decision(false, false, words)
      && Decide(Answering(r, id).(process := None, history := None), next) == Decision(true, false, words)
  {
    hide Promptable;
    var next, words := SayingMore(r, said), [Message(User, said, [], "")];
    var heard := r.messages + [AssistantMessage("", [])];
    assert next.messages == heard + words && next.messages[|heard|..] == words && next.messages[..|heard|] == heard;
  }

  /** First answered and recorded, then a turn that fails, then the same request answered. */
  lemma RetellingIsReachable(r: Request, id: string, said: string) returns (worlds: seq<World>, actions: seq<Action>)
    requires PlainFirst(r) && id != "" && !Blank(said)
    ensures Run(worlds, actions) && |actions| == 3 && FailsOnSession(worlds[1], actions[1])
    ensures var words := Message(User, said, [], "");
      && worlds[3].heard == SayingMore(r, said).messages + [AssistantMessage("", [])]
      && Told(worlds, actions, 3) == SayingMore(r, said).messages + [words, AssistantMessage("", [])]
      && Told(worlds, actions, 3) != worlds[3].heard
  {
    hide Promptable, Blank, Decide, PlainExchange, Admitted;
    var next, words := SayingMore(r, said), [Message(User, said, [], "")];
    var answered, failed := Answering(r, id), Answering(r, id).(process := None, history := None);
    var w0 := World(FRESH, None, [], Free, [], [], true);
    actions := [PlainRequest(r, EngineThat(Done("", id))),
                PlainRequest(next, EngineThat(RunFailed)),
                PlainRequest(next, EngineThat(Done("", id)))];
    FirstAnswer(r, id);
    SayingMoreIsFit(r, said);
    NextDecision(r, id, said);
    LaterReplies(r, id, said);
    var w1 := PlainServed(w0, r, EngineThat(Done("", id)));
    var w2 := PlainServed(w1, next, EngineThat(RunFailed));
    var w3 := PlainServed(w2, next, EngineThat(Done("", id)));
    worlds := [w0, w1, w2, w3];
    assert Run(worlds, actions);
    assert Told(worlds, actions, 1) == r.messages + [AssistantMessage("", [])];
    assert Told(worlds, actions, 2) == Told(worlds, actions, 1) + words;
    assert Told(worlds, actions, 3) == Told(worlds, actions, 2) + words + [AssistantMessage("", [])];
  }

  lemma LaterReplies(r: Request, id: string, said: string)
    requires PlainFirst(r) && id != "" && !Blank(said)
    ensures var next, words := SayingMore(r, said), [Message(User, said, [], "")];
      var answered, record := Answering(r, id), Some(RecordOf(Answering(r, id)));
      var failed := answered.(process := None, history := None);
      && PlainExchange(answered, record, next, EngineThat(RunFailed)) == Exchange(failed, record, Failed)
      && PlainExchange(failed, record, next, EngineThat(Done("", id))).reply
         == Answered(false, words, AssistantMessage("", []))
  {
    hide Promptable, Decide, Admitted;
    SayingMoreIsFit(r, said);
    NextDecision(r, id, said);
  }
}
