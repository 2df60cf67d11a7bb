/**
 * Sender, network and receivers together. Requests and responses may be lost or arrive late, handlers may
 * throw, sender drives may overlap. A request reaches its target at most once, and the sender sees an ack
 * for a request only after that request was answered 200; anything else settles the send as a failure.
 */
module Delivery {
  import opened Common
  import O = OutboxProtocol
  import I = InboxProtocol
  import Once = InboxOnce

  datatype System = System(
    sender: O.Sender,
    wires: seq<I.Wire>,             // the wire format of each request, by request number
    peers: map<string, I.Receiver>,
    oks: set<nat>)                  // the requests answered 200

  const START := System(O.START, [], map[], {})

  datatype Event =
    | Send(sev: O.Event, wire: I.Wire)           // a step of the sender
    | Deliver(n: nat)                           // request n arrives
    | Peer(p: string, pev: I.Event)              // a step of a receiver
    | Answer(n: nat)                            // the handler of request n answers

  function PeerOf(s: System, p: string): I.Receiver {
    if p in s.peers then s.peers[p] else I.START
  }

  ghost function Step(oc: O.Config, ic: I.Config, s: System, ev: Event): System {
    match ev
    case Send(sev, wire) =>
      if sev.Settle? && sev.ack && !Answered(s, sev.d) then s else
        var sender := O.Step(oc, s.sender, sev);
        s.(sender := sender, wires := if |sender.sent| > |s.wires| then s.wires + [wire] else s.wires)
    case Deliver(n) =>
      if n >= |s.sender.sent| || n >= |s.wires| then s else
        var e := s.sender.sent[n].entry;
        var arrival := I.Arrive(n, e.id, I.Received(s.wires[n], e.payload));
        s.(peers := s.peers[e.target := I.Step(ic, PeerOf(s, e.target), arrival)])
    case Peer(p, pev) =>
      if pev.Arrive? then s else s.(peers := s.peers[p := I.Step(ic, PeerOf(s, p), pev)])
    case Answer(n) =>
      if n >= |s.sender.sent| then s else
        var hs := PeerOf(s, s.sender.sent[n].entry.target).handlers;
        if n in hs && hs[n].Replied? && hs[n].ok then s.(oks := s.oks + {n}) else s
  }

  /** The send that drive `d` awaits was answered 200. */
  ghost predicate Answered(s: System, d: nat) {
    d in s.sender.drives && s.sender.drives[d].sending.Some? && s.sender.drives[d].sending.value.n in s.oks
  }

  ghost function After(oc: O.Config, ic: I.Config, evs: seq<Event>): System {
    if evs == [] then START
    else Step(oc, ic, After(oc, ic, evs[..|evs| - 1]), evs[|evs| - 1])
  }

  // ---------------------------------------------------------------------------------------------
  // What every run keeps
  // ---------------------------------------------------------------------------------------------

  /** The receiver at `p` works on requests addressed to it, and stores what their senders enqueued. */
  ghost predicate ReceiverSound(sn: O.Sender, p: string, r: I.Receiver) {
    && (forall h :: h in r.handlers ==>
          && h < |sn.sent|
          && sn.sent[h].entry.target == p && sn.sent[h].entry.id == r.handlers[h].id
          && r.handlers[h].id in r.inbox)
    && (forall id :: id in r.inbox ==>
          && id in sn.born
          && sn.born[id].target == p && r.inbox[id].payload.payload == sn.born[id].payload)
  }

  ghost predicate PeerSound(s: System, p: string) {
    ReceiverSound(s.sender, p, PeerOf(s, p))
  }

  /** The message is in its target's inbox. */
  ghost predicate Held(s: System, id: O.Id) {
    id in s.sender.born && id in PeerOf(s, s.sender.born[id].target).inbox
  }

  ghost predicate Inv(oc: O.Config, s: System) {
    && O.Inv(oc, s.sender)
    && (forall p :: PeerSound(s, p))
    && (forall n :: n in s.oks ==> n < |s.sender.sent| && Held(s, s.sender.sent[n].entry.id))
    && (forall i :: 0 <= i < |s.sender.ended| && s.sender.ended[i].Acked? ==> Held(s, s.sender.ended[i].id))
  }

  /** Messages, sends and inbox entries are never taken back. */
  ghost predicate Grows(s: System, s': System) {
    && (forall id :: id in s.sender.born ==> id in s'.sender.born && s'.sender.born[id] == s.sender.born[id])
    && s.sender.sent <= s'.sender.sent
    && (forall p, id :: id in PeerOf(s, p).inbox ==> id in PeerOf(s', p).inbox)
  }

  lemma HeldGrows(s: System, s': System, id: O.Id)
    requires Grows(s, s') && Held(s, id)
    ensures Held(s', id)
  {
  }

  lemma SenderGrows(oc: O.Config, s: O.Sender, ev: O.Event)
    requires O.Inv(oc, s)
    ensures forall id :: id in s.born ==> id in O.Step(oc, s, ev).born && O.Step(oc, s, ev).born[id] == s.born[id]
    ensures s.sent <= O.Step(oc, s, ev).sent
  {
  }

  /** A sender step ends a message by an ack only when that message's request was answered 200. */
  lemma AckedNow(oc: O.Config, s: System, sev: O.Event, i: nat)
    requires O.Inv(oc, s.sender) && |s.sender.ended| <= i < |O.Step(oc, s.sender, sev).ended|
    requires O.Step(oc, s.sender, sev).ended[i].Acked? && (sev.Settle? && sev.ack ==> Answered(s, sev.d))
    ensures exists n :: n in s.oks && n < |s.sender.sent| &&
                        s.sender.sent[n].entry.id == O.Step(oc, s.sender, sev).ended[i].id
  {
    var r := s.sender.drives[sev.d].sending.value;
    assert O.DriveSound(oc, s.sender.born, s.sender.sent, s.sender.drives[sev.d]);
    assert s.sender.sent[r.n].entry == r.entry;
  }

  lemma SendEnds(oc: O.Config, s: System, sev: O.Event, i: nat)
    requires Inv(oc, s) && i < |O.Step(oc, s.sender, sev).ended|
    requires O.Step(oc, s.sender, sev).ended[i].Acked? && (sev.Settle? && sev.ack ==> Answered(s, sev.d))
    ensures Held(s, O.Step(oc, s.sender, sev).ended[i].id)
  {
    if i < |s.sender.ended| {
      assert O.Step(oc, s.sender, sev).ended[i] == s.sender.ended[i];
    } else {
      AckedNow(oc, s, sev, i);
    }
  }

  lemma SendInv(oc: O.Config, ic: I.Config, s: System, sev: O.Event, wire: I.Wire)
    requires Inv(oc, s)
    ensures Inv(oc, Step(oc, ic, s, Send(sev, wire)))
  {
    var s' := Step(oc, ic, s, Send(sev, wire));
    if s' != s {
      O.StepInv(oc, s.sender, sev);
      SenderGrows(oc, s.sender, sev);
      assert Grows(s, s');
      forall p
        ensures PeerSound(s', p)
      {
        assert PeerSound(s, p) && PeerOf(s', p) == PeerOf(s, p);
      }
      forall n | n in s'.oks
        ensures n < |s'.sender.sent| && Held(s', s'.sender.sent[n].entry.id)
      {
        HeldGrows(s, s', s.sender.sent[n].entry.id);
      }
      forall i | 0 <= i < |s'.sender.ended| && s'.sender.ended[i].Acked?
        ensures Held(s', s'.sender.ended[i].id)
      {
        SendEnds(oc, s, sev, i);
        HeldGrows(s, s', s'.sender.ended[i].id);
      }
    }
  }

  lemma ArriveGrows(ic: I.Config, r: I.Receiver, ev: I.Event)
    requires ev.Arrive?
    ensures forall id :: id in r.inbox ==> id in I.Step(ic, r, ev).inbox
  {
  }

  lemma InboxKept(ic: I.Config, r: I.Receiver, ev: I.Event)
    requires !ev.Arrive?
    ensures I.Step(ic, r, ev).inbox.Keys == r.inbox.Keys
    ensures forall id :: id in r.inbox ==> I.Step(ic, r, ev).inbox[id].payload == r.inbox[id].payload
  {
  }

  lemma HandlersKept(ic: I.Config, r: I.Receiver, ev: I.Event)
    requires !ev.Arrive?
    ensures I.Step(ic, r, ev).handlers.Keys == r.handlers.Keys
    ensures forall h :: h in r.handlers ==> I.Step(ic, r, ev).handlers[h].id == r.handlers[h].id
  {
  }

  /** The one receiver `p` moves on to `r`. */
  lemma PeerInv(oc: O.Config, s: System, p: string, r: I.Receiver)
    requires Inv(oc, s) && ReceiverSound(s.sender, p, r)
    requires forall id :: id in PeerOf(s, p).inbox ==> id in r.inbox
    ensures Inv(oc, s.(peers := s.peers[p := r]))
  {
    var s' := s.(peers := s.peers[p := r]);
    assert Grows(s, s');
    forall p2
      ensures PeerSound(s', p2)
    {
      assert PeerSound(s, p2);
    }
    forall id | Held(s, id)
      ensures Held(s', id)
    {
      HeldGrows(s, s', id);
    }
  }

  lemma ArriveSound(ic: I.Config, sn: O.Sender, p: string, r: I.Receiver, n: nat, e: O.Entry, wire: I.Wire)
    requires ReceiverSound(sn, p, r) && n < |sn.sent| && e == sn.sent[n].entry
    requires e.target == p && e.id in sn.born && O.SameMessage(e, sn.born[e.id])
    ensures ReceiverSound(sn, p, I.Step(ic, r, I.Arrive(n, e.id, I.Received(wire, e.payload))))
  {
  }

  lemma DeliverInv(oc: O.Config, ic: I.Config, s: System, n: nat)
    requires Inv(oc, s)
    ensures Inv(oc, Step(oc, ic, s, Deliver(n)))
  {
    if n < |s.sender.sent| && n < |s.wires| {
      var e := s.sender.sent[n].entry;
      var r := PeerOf(s, e.target);
      assert PeerSound(s, e.target);
      assert O.SameMessage(e, s.sender.born[e.id]);
      ArriveSound(ic, s.sender, e.target, r, n, e, s.wires[n]);
      ArriveGrows(ic, r, I.Arrive(n, e.id, I.Received(s.wires[n], e.payload)));
      PeerInv(oc, s, e.target, I.Step(ic, r, I.Arrive(n, e.id, I.Received(s.wires[n], e.payload))));
    }
  }

  lemma PeerStepInv(oc: O.Config, ic: I.Config, s: System, p: string, pev: I.Event)
    requires Inv(oc, s)
    ensures Inv(oc, Step(oc, ic, s, Peer(p, pev)))
  {
    if !pev.Arrive? {
      InboxKept(ic, PeerOf(s, p), pev);
      HandlersKept(ic, PeerOf(s, p), pev);
      assert PeerSound(s, p);
      PeerInv(oc, s, p, I.Step(ic, PeerOf(s, p), pev));
    }
  }

  lemma AnswerInv(oc: O.Config, ic: I.Config, s: System, n: nat)
    requires Inv(oc, s)
    ensures Inv(oc, Step(oc, ic, s, Answer(n)))
  {
    var s' := Step(oc, ic, s, Answer(n));
    if s' != s {
      assert PeerSound(s, s.sender.sent[n].entry.target);
      assert O.SameMessage(s.sender.sent[n].entry, s.sender.born[s.sender.sent[n].entry.id]);
    }
    forall p
      ensures PeerSound(s', p)
    {
      assert PeerSound(s, p) && PeerOf(s', p) == PeerOf(s, p);
    }
    assert forall id :: Held(s, id) ==> Held(s', id);
  }

  lemma {:induction false} RunInv(oc: O.Config, ic: I.Config, evs: seq<Event>)
    ensures Inv(oc, After(oc, ic, evs))
  {
    if evs != [] {
      var s := After(oc, ic, evs[..|evs| - 1]);
      RunInv(oc, ic, evs[..|evs| - 1]);
      match evs[|evs| - 1]
      case Send(sev, wire) => SendInv(oc, ic, s, sev, wire);
      case Deliver(n) => DeliverInv(oc, ic, s, n);
      case Peer(p, pev) => PeerStepInv(oc, ic, s, p, pev);
      case Answer(n) => AnswerInv(oc, ic, s, n);
    }
  }

  /**
   * Persist-then-ack, end to end: in every run, a message the sender dropped because of an ack is in the
   * inbox of the receiver it was enqueued for, and there with a payload derived from the one enqueued.
   */
  lemma AckedIsPersisted(oc: O.Config, ic: I.Config, evs: seq<Event>, i: nat)
    requires i < |After(oc, ic, evs).sender.ended| && After(oc, ic, evs).sender.ended[i].Acked?
    ensures var s := After(oc, ic, evs);
            var id := s.sender.ended[i].id;
            && id in s.sender.born
            && id in PeerOf(s, s.sender.born[id].target).inbox
            && PeerOf(s, s.sender.born[id].target).inbox[id].payload.payload == s.sender.born[id].payload
  {
    RunInv(oc, ic, evs);
    var s := After(oc, ic, evs);
    assert Held(s, s.sender.ended[i].id) && PeerSound(s, s.sender.born[s.sender.ended[i].id].target);
  }

  /** No receiver ever holds a message that was not enqueued for it. */
  lemma NothingInvented(oc: O.Config, ic: I.Config, evs: seq<Event>, p: string, id: O.Id)
    requires id in PeerOf(After(oc, ic, evs), p).inbox
    ensures var s := After(oc, ic, evs);
            && id in s.sender.born && s.sender.born[id].target == p
            && PeerOf(s, p).inbox[id].payload.payload == s.sender.born[id].payload
  {
    RunInv(oc, ic, evs);
    assert PeerSound(After(oc, ic, evs), p);
  }

  // ---------------------------------------------------------------------------------------------
  // Each half runs its own protocol
  // ---------------------------------------------------------------------------------------------

  ghost predicate AllPrompt(oc: O.Config, ic: I.Config, evs: seq<Event>, p: string) {
    && Once.Prompt(ic.grace, PeerOf(After(oc, ic, evs), p))
    && (evs != [] ==> AllPrompt(oc, ic, evs[..|evs| - 1], p))
  }

  /** What a receiver has seen of a run is a run of the receiver protocol, prompt if the whole was. */
  lemma {:induction false} PeerRuns(oc: O.Config, ic: I.Config, evs: seq<Event>, p: string) returns (pevs: seq<I.Event>)
    ensures PeerOf(After(oc, ic, evs), p) == I.After(ic, I.START, pevs)
    ensures AllPrompt(oc, ic, evs, p) ==> Once.PromptRun(ic, ic.grace, pevs)
  {
    if evs == [] {
      pevs := [];
    } else {
      var pre := evs[..|evs| - 1];
      var s := After(oc, ic, pre);
      pevs := PeerRuns(oc, ic, pre, p);
      var s' := After(oc, ic, evs);
      if PeerOf(s', p) != PeerOf(s, p) {
        var ev := PeerEvent(oc, ic, s, evs[|evs| - 1], p);
        I.AfterAppend(ic, I.START, pevs, ev);
        assert (pevs + [ev])[..|pevs|] == pevs;
        pevs := pevs + [ev];
      }
    }
  }

  /** What the sender has done in a run is a run of the outbox protocol. */
  lemma {:induction false} SenderRuns(oc: O.Config, ic: I.Config, evs: seq<Event>) returns (sevs: seq<O.Event>)
    ensures After(oc, ic, evs).sender == O.After(oc, O.START, sevs)
  {
    sevs := [];
    if evs != [] {
      var pre := evs[..|evs| - 1];
      sevs := SenderRuns(oc, ic, pre);
      if After(oc, ic, evs).sender != After(oc, ic, pre).sender {
        O.AfterAppend(oc, O.START, sevs, evs[|evs| - 1].sev);
        sevs := sevs + [evs[|evs| - 1].sev];
      }
    }
  }

  lemma PeerEvent(oc: O.Config, ic: I.Config, s: System, ev: Event, p: string) returns (pev: I.Event)
    requires PeerOf(Step(oc, ic, s, ev), p) != PeerOf(s, p)
    ensures PeerOf(Step(oc, ic, s, ev), p) == I.Step(ic, PeerOf(s, p), pev)
  {
    match ev
    case Deliver(n) =>
      var e := s.sender.sent[n].entry;
      pev := I.Arrive(n, e.id, I.Received(s.wires[n], e.payload));
    case Peer(_, pev2) => pev := pev2;
    case _ => pev := I.TickEnd; assert false;
  }

  /**
   * Effectively once, over every run of the whole system: a message is received only by its target; there
   * the receipt path calls `onNotify` at most once and the drain at most `maxAttempts` times; and if every
   * receipt handler finishes within the grace window, `onNotify` returns normally at most once.
   */
  lemma EffectivelyOnce(oc: O.Config, ic: I.Config, evs: seq<Event>, p: string, id: O.Id)
    ensures var r := PeerOf(After(oc, ic, evs), p);
            && r.log[I.Called(id, I.Receipt)] == (if id in r.inbox then 1 else 0)
            && r.log[I.Called(id, I.Drain)] <= ic.maxAttempts
            && (id in r.inbox && r.inbox[id].processed ==> I.Returns(r, id) >= 1)
            && (AllPrompt(oc, ic, evs, p) ==> I.Returns(r, id) <= 1)
  {
    var pevs := PeerRuns(oc, ic, evs, p);
    Once.CallBounds(ic, pevs, id);
    if AllPrompt(oc, ic, evs, p) {
      Once.ReturnsAtMostOnce(ic, ic.grace, pevs, id);
    }
  }
}
