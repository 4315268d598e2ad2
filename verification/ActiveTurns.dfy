/**
 The turn object shared by an agent's runner, its concurrent MCP calls and the HTTP handlers
 (active_turn.go). TurnState is its value; class ActiveTurn is the object whose methods are the
 critical sections. A result channel is a sequence of at most one string, kept under its
 call's id because it outlives the pending entry.
 */
module ActiveTurns {
  import opened Types
  import opened Collecting
  import Json

  const QUEUE_CAPACITY := 64
  const RESULT_CAPACITY := 1

  datatype Event = MessageEvent(message: AgentMessage) | CallEvent(call: ToolCall) | DoneEvent(failed: bool)

  datatype Pending = Pending(call: ToolCall, delivered: bool)

  datatype TurnState = TurnState(
    cancelled: bool,
    events: seq<Event>,
    closes: nat,                         // how often close(done) has run
    pending: map<string, Pending>,
    policy: Policy,
    results: map<string, seq<string>>,
    sawDelta: bool,
    sawThinking: bool)

  function NewTurn(policy: Policy): TurnState {
    TurnState(false, [], 0, map[], policy, map[], false, false)
  }

  function Register(s: TurnState, call: ToolCall): TurnState {
    s.(pending := s.pending[call.id := Pending(call, false)], results := s.results[call.id := []])
  }

  function Enqueue(s: TurnState, e: Event): TurnState {
    s.(events := s.events + [e])
  }

  function Deliver(s: TurnState, id: string): TurnState {
    if id in s.pending then s.(pending := s.pending[id := s.pending[id].(delivered := true)]) else s
  }

  ghost predicate DistinctIds(batch: seq<Message>) {
    forall a, b :: 0 <= a < b < |batch| ==> batch[a].toolCallID != batch[b].toolCallID
  }

  function DeliveredIds(pending: map<string, Pending>): set<string> {
    set id | id in pending && pending[id].delivered
  }

  /** The batch answers exactly the delivered calls, each once, on a live turn. */
  ghost predicate Acceptable(s: TurnState, batch: seq<Message>) {
    && !s.cancelled
    && batch != []
    && (forall m | m in batch :: m.role.Tool?)
    && DistinctIds(batch)
    && IdsOf(batch) == DeliveredIds(s.pending)
  }

  /** The content a batch gives for an id. */
  ghost function ContentFor(batch: seq<Message>, id: string): string
    requires id in IdsOf(batch)
  {
    var m :| m in batch && m.toolCallID == id;
    m.content
  }

  /** Every call of the batch is released with its own content, and only those. */
  ghost function Resolved(s: TurnState, batch: seq<Message>, policy: Policy): TurnState {
    var ids := IdsOf(batch);
    s.(policy := policy,
       pending := map id | id in s.pending && id !in ids :: s.pending[id],
       results := map id | id in s.results ::
         if id in ids then s.results[id] + [ContentFor(batch, id)] else s.results[id])
  }

  lemma NoIdsNoBatch(batch: seq<Message>)
    ensures IdsOf(batch) == {} <==> batch == []
  {
    if batch != [] {
      assert batch[0].toolCallID in IdsOf(batch);
    }
  }

  lemma NothingReleased(s: TurnState, policy: Policy)
    ensures Resolved(s, [], policy) == s.(policy := policy)
  {
    assert Resolved(s, [], policy).pending == s.pending;
    assert Resolved(s, [], policy).results == s.results;
  }

  /** Releasing one more call of a duplicate-free batch extends the released part. */
  lemma ReleaseOne(s: TurnState, batch: seq<Message>, i: nat, policy: Policy)
    requires i < |batch| && DistinctIds(batch) && IdsOf(batch) <= s.pending.Keys
    requires forall id | id in s.pending :: id in s.results && s.results[id] == []
    ensures var m, now := batch[i], Resolved(s, batch[..i], policy);
      && m.toolCallID in now.pending && m.toolCallID in now.results && now.results[m.toolCallID] == []
      && Resolved(s, batch[..i + 1], policy) == now.(
           pending := map id | id in now.pending && id != m.toolCallID :: now.pending[id],
           results := now.results[m.toolCallID := [m.content]])
  {
    var m, done, more := batch[i], batch[..i], batch[..i + 1];
    assert more == done + [m];
    assert IdsOf(more) == IdsOf(done) + {m.toolCallID};
    assert m in batch && m.toolCallID in IdsOf(batch);
    assert m.toolCallID !in IdsOf(done);
    forall id | id in IdsOf(more)
      ensures ContentFor(more, id) == if id == m.toolCallID then m.content else ContentFor(done, id)
    {
      OnlyContentFor(more, id);
      if id in IdsOf(done) {
        OnlyContentFor(done, id);
        assert forall x | x in done :: x in more;
      }
    }
    var before, after := Resolved(s, done, policy), Resolved(s, more, policy);
    assert after.pending == map id | id in before.pending && id != m.toolCallID :: before.pending[id];
    assert m.toolCallID in s.pending && m.toolCallID in IdsOf(more);
    var released := before.results[m.toolCallID := [m.content]];
    forall id | id in s.results
      ensures after.results[id] == released[id]
    {
      if id == m.toolCallID {
        assert after.results[id] == s.results[id] + [ContentFor(more, id)];
      } else if id in IdsOf(done) {
        assert after.results[id] == s.results[id] + [ContentFor(more, id)];
        assert before.results[id] == s.results[id] + [ContentFor(done, id)];
      }
    }
    assert after.results == released;
  }

  /** With distinct ids the content for an id is that of the one message naming it. */
  lemma OnlyContentFor(batch: seq<Message>, id: string)
    requires DistinctIds(batch) && id in IdsOf(batch)
    ensures forall m | m in batch && m.toolCallID == id :: m.content == ContentFor(batch, id)
  {
    var m0 :| m0 in batch && m0.toolCallID == id && m0.content == ContentFor(batch, id);
    forall m | m in batch && m.toolCallID == id
      ensures m.content == ContentFor(batch, id)
    {
      var a :| 0 <= a < |batch| && batch[a] == m0;
      var b :| 0 <= b < |batch| && batch[b] == m;
    }
  }

  class ActiveTurn {
    const serial: nat
    var cancelled: bool
    var events: seq<Event>
    var closes: nat
    var pending: map<string, Pending>
    var policy: Policy
    var results: map<string, seq<string>>
    var sawDelta: bool
    var sawThinking: bool

    ghost function View(): TurnState
      reads this
    {
      TurnState(cancelled, events, closes, pending, policy, results, sawDelta, sawThinking)
    }

    /** Every pending call has an open, empty result channel: the send under the mutex cannot block. */
    ghost predicate Valid()
      reads this
    {
      && |events| <= QUEUE_CAPACITY
      && forall id | id in pending :: id in results && results[id] == []
    }

    constructor (serial: nat, policy: Policy)
      ensures Valid() && View() == NewTurn(policy) && this.serial == serial
    {
      this.serial := serial;
      cancelled, events, closes := false, [], 0;
      pending, results := map[], map[];
      this.policy := policy;
      sawDelta, sawThinking := false, false;
    }

    method Cancel()
      requires Valid()
      modifies this`cancelled
      ensures Valid() && View() == old(View()).(cancelled := true)
    {
      cancelled := true;
    }

    /** close(done): by the runner when it leaves, or by the handler when no runner was started. */
    method CloseDone()
      requires Valid()
      modifies this`closes
      ensures Valid() && View() == old(View()).(closes := old(closes) + 1)
    {
      closes := closes + 1;
    }

    /** One firing of the select in emit: with both cases ready, either may win. */
    method TryEmit(e: Event, preferCancel: bool) returns (sent: bool, refused: bool)
      requires Valid()
      modifies this`events
      ensures Valid()
      ensures sent ==> |old(events)| < QUEUE_CAPACITY && View() == Enqueue(old(View()), e)
      ensures !sent ==> View() == old(View())
      ensures refused ==> !sent && cancelled
      ensures !sent && !refused ==> !cancelled && |events| == QUEUE_CAPACITY
    {
      sent, refused := false, false;
      if cancelled && (preferCancel || |events| == QUEUE_CAPACITY) {
        refused := true;
      } else if |events| < QUEUE_CAPACITY {
        events := events + [e];
        sent := true;
      }
    }

    /** The critical section of call: the policy check and the registration are one step. */
    method RegisterCall(id: string, name: string, arguments: Option<Json.Tree>) returns (registered: bool)
      requires Valid() && id !in results
      modifies this`pending, this`results
      ensures Valid()
      ensures registered <==> arguments.Some? && Json.Canon(arguments.value).Object? && Allows(policy, name)
      ensures registered ==> View() == Register(old(View()), ToolCall(id, name, Json.Canon(arguments.value)))
      ensures !registered ==> View() == old(View())
    {
      if arguments.None? || !Json.Canon(arguments.value).Object? {
        return false;
      }
      if policy == Never || (policy.Named? && policy.name != name) {
        return false;
      }
      pending := pending[id := Pending(ToolCall(id, name, Json.Canon(arguments.value)), false)];
      results := results[id := []];
      return true;
    }

    method DeliverCall(id: string)
      requires Valid()
      modifies this`pending
      ensures Valid() && View() == Deliver(old(View()), id)
    {
      if id in pending {
        pending := pending[id := pending[id].(delivered := true)];
      }
    }

    /** A send on a buffered channel; the precondition is that it does not block. */
    method Send(id: string, content: string)
      requires id in results && |results[id]| < RESULT_CAPACITY
      modifies this`results
      ensures results == old(results)[id := old(results)[id] + [content]]
    {
      results := results[id := results[id] + [content]];
    }

    /** First loop of resolve: every message must name a delivered pending call, each once. */
    method CheckBatch(batch: seq<Message>) returns (ok: bool, seen: set<string>)
      ensures ok <==>
        (forall m | m in batch :: m.role.Tool? && m.toolCallID in pending && pending[m.toolCallID].delivered)
                      && DistinctIds(batch)
      ensures ok ==> seen == IdsOf(batch)
    {
      seen := {};
      for i := 0 to |batch|
        invariant seen == IdsOf(batch[..i])
        invariant DistinctIds(batch[..i])
        invariant forall m | m in batch[..i] ::
          m.role.Tool? && m.toolCallID in pending && pending[m.toolCallID].delivered
      {
        var m := batch[i];
        assert m in batch;
        assert batch[..i + 1] == batch[..i] + [m];
        if m.role != Tool || m.toolCallID !in pending || !pending[m.toolCallID].delivered {
          return false, seen;
        }
        if m.toolCallID in seen {
          var earlier :| earlier in batch[..i] && earlier.toolCallID == m.toolCallID;
          var a :| 0 <= a < i && batch[a] == earlier;
          assert batch[a].toolCallID == batch[i].toolCallID;
          return false, seen;
        }
        seen := seen + {m.toolCallID};
      }
      assert batch[..|batch|] == batch;
      return true, seen;
    }

    /** Second loop of resolve: no delivered call may be left out. */
    method AllAnswered(seen: set<string>) returns (ok: bool)
      ensures ok <==> DeliveredIds(pending) <= seen
    {
      var rest := pending.Keys;
      while rest != {}
        invariant rest <= pending.Keys
        invariant forall id | id in pending && id !in rest && pending[id].delivered :: id in seen
        decreases rest
      {
        var id :| id in rest;
        if pending[id].delivered && id !in seen {
          assert id in DeliveredIds(pending);
          return false;
        }
        rest := rest - {id};
      }
      return true;
    }

    /** Third loop of resolve: each named call leaves pending and receives its content. */
    method Release(batch: seq<Message>)
      requires Valid() && DistinctIds(batch) && IdsOf(batch) <= pending.Keys
      modifies this`pending, this`results
      ensures Valid() && View() == Resolved(old(View()), batch, policy)
    {
      ghost var before := View();
      NothingReleased(before, policy);
      for i := 0 to |batch|
        invariant Valid()
        invariant View() == Resolved(before, batch[..i], policy)
      {
        ReleaseOne(before, batch, i, policy);
        ReleaseNext(batch[i]);
      }
      assert batch[..|batch|] == batch;
    }

    /** delete(t.pending, id) and the send, for one message. */
    method ReleaseNext(m: Message)
      requires Valid() && m.toolCallID in pending
      modifies this`pending, this`results
      ensures Valid()
      ensures pending == old(map id | id in pending && id != m.toolCallID :: pending[id])
      ensures results == old(results)[m.toolCallID := [m.content]]
    {
      pending := map id | id in pending && id != m.toolCallID :: pending[id];
      assert results[m.toolCallID] + [m.content] == [m.content];
      Send(m.toolCallID, m.content);
    }

    /** Accepts exactly the complete batches; a refused batch changes nothing. */
    method Resolve(batch: seq<Message>, newPolicy: Policy) returns (accepted: bool)
      requires Valid()
      modifies this`pending, this`results, this`policy
      ensures Valid()
      ensures accepted <==> Acceptable(old(View()), batch)
      ensures accepted ==> View() == Resolved(old(View()), batch, newPolicy)
      ensures !accepted ==> View() == old(View())
    {
      if cancelled {
        return false;
      }
      var ok, seen := CheckBatch(batch);
      if !ok {
        assert Acceptable(View(), batch) ==> forall m | m in batch :: m.toolCallID in IdsOf(batch);
        return false;
      }
      assert IdsOf(batch) <= DeliveredIds(pending);
      if seen == {} {
        NoIdsNoBatch(batch);
        return false;
      }
      var all := AllAnswered(seen);
      if !all {
        return false;
      }
      policy := newPolicy;
      Release(batch);
      return true;
    }
  }
}
