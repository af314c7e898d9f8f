/** The go-plugin broker rendezvous: announcements and dials for a numeric id meet in a slot that
    whichever comes first creates. */
module PluginBroker {
  import opened Options

  datatype ConnInfo = ConnInfo(serviceId: nat, network: string, address: string)

  /** Who has the slot's receiver: nobody yet, a dial that waits on it, or nobody any more. */
  datatype Receiver = Unclaimed | HeldBy(dial: nat) | Dropped

  /** A channel of capacity one and its receiver. */
  datatype Slot = Slot(queue: Option<ConnInfo>, receiver: Receiver)

  datatype Outcome = Waiting | Received(info: ConnInfo) | TimedOut | Refused

  datatype Dial = Dial(id: nat, outcome: Outcome)

  /** `inHand` is an announcement whose sender was looked up but which is not sent yet. */
  datatype State = State(pending: map<nat, Slot>, inHand: Option<ConnInfo>, dials: map<nat, Dial>)

  datatype Label =
    | Arrive(info: ConnInfo)
    | Deliver
    | StartDial(dial: nat, id: nat)
    | Receive(dial: nat)
    | TimeOut(dial: nat)

  const EMPTY := State(map[], None, map[])

  function SlotFor(s: State, id: nat): Slot
  {
    if id in s.pending then s.pending[id] else Slot(None, Unclaimed)
  }

  /** `try_send`: a full channel or a dropped receiver drops the announcement. */
  function TrySend(slot: Slot, info: ConnInfo): Slot
  {
    if slot.receiver.Dropped? || slot.queue.Some? then slot else slot.(queue := Some(info))
  }

  /** A waiting dial times out only if there is nothing for it to receive at that moment. */
  predicate Possible(s: State, l: Label)
  {
    match l
    case Arrive(_) => s.inHand.None?
    case Deliver => s.inHand.Some?
    case StartDial(d, _) => d !in s.dials
    case Receive(d) => d in s.dials && s.dials[d].outcome.Waiting? && SlotFor(s, s.dials[d].id).queue.Some?
    case TimeOut(d) => d in s.dials && s.dials[d].outcome.Waiting? && SlotFor(s, s.dials[d].id).queue.None?
  }

  function Apply(s: State, l: Label): State
    requires Possible(s, l)
  {
    match l
    case Arrive(info) =>
      s.(pending := s.pending[info.serviceId := SlotFor(s, info.serviceId)], inHand := Some(info))
    case Deliver =>
      var info := s.inHand.value;
      s.(pending := s.pending[info.serviceId := TrySend(SlotFor(s, info.serviceId), info)], inHand := None)
    case StartDial(d, id) =>
      var slot := SlotFor(s, id);
      if slot.receiver.Unclaimed? then
        s.(pending := s.pending[id := slot.(receiver := HeldBy(d))], dials := s.dials[d := Dial(id, Waiting)])
      else
        s.(pending := s.pending[id := slot], dials := s.dials[d := Dial(id, Refused)])
    case Receive(d) =>
      var id := s.dials[d].id;
      Finish(s, d, Received(SlotFor(s, id).queue.value))
    case TimeOut(d) => Finish(s, d, TimedOut)
  }

  /** A dial that is done drops the receiver, and with it whatever the channel still holds. */
  function Finish(s: State, d: nat, o: Outcome): State
    requires d in s.dials
  {
    var id := s.dials[d].id;
    s.(pending := s.pending[id := Slot(None, Dropped)], dials := s.dials[d := Dial(id, o)])
  }

  ghost predicate Legal(run: seq<Label>)
    decreases |run|, 0
  {
    run == [] || (Legal(run[..|run| - 1]) && Possible(After(run[..|run| - 1]), run[|run| - 1]))
  }

  ghost function After(run: seq<Label>): State
    requires Legal(run)
    decreases |run|, 1
  {
    if run == [] then EMPTY else Apply(After(run[..|run| - 1]), run[|run| - 1])
  }

  /** The announcements that reached an id, in order, told from the run alone. */
  ghost function Reached(run: seq<Label>, id: nat): seq<ConnInfo>
    requires Legal(run)
    decreases |run|
  {
    if run == [] then []
    else
      var s := After(run[..|run| - 1]);
      Reached(run[..|run| - 1], id)
      + if run[|run| - 1].Deliver? && s.inHand.value.serviceId == id then [s.inHand.value] else []
  }

  // ---- the invariant ----

  function First(infos: seq<ConnInfo>): Option<ConnInfo>
  {
    if infos == [] then None else Some(infos[0])
  }

  ghost predicate Claims(dial: Dial, id: nat)
  {
    dial.id == id && !dial.outcome.Refused?
  }

  /** What holds for one id, given the announcements that reached it. */
  ghost predicate Sound(s: State, id: nat, reached: seq<ConnInfo>)
  {
    var slot := SlotFor(s, id);
    && (slot.queue == if slot.receiver.Dropped? then None else First(reached))
    && (slot.receiver.Unclaimed? <==> forall d :: d in s.dials ==> !Claims(s.dials[d], id))
    && (slot.receiver.HeldBy? ==> slot.receiver.dial in s.dials && s.dials[slot.receiver.dial] == Dial(id, Waiting))
    && (forall d :: d in s.dials && s.dials[d] == Dial(id, Waiting) ==> slot.receiver == HeldBy(d))
    && (forall d, e :: d in s.dials && e in s.dials && Claims(s.dials[d], id) && Claims(s.dials[e], id) ==> d == e)
    && (forall d :: d in s.dials && s.dials[d].id == id && s.dials[d].outcome.Received? ==>
         First(reached) == Some(s.dials[d].outcome.info))
  }

  lemma StepSound(s: State, l: Label, id: nat, reached: seq<ConnInfo>)
    requires Possible(s, l) && Sound(s, id, reached)
    ensures Sound(Apply(s, l), id,
      reached + if l.Deliver? && s.inHand.value.serviceId == id then [s.inHand.value] else [])
  {
    var s' := Apply(s, l);
    match l
    case Arrive(info) => assert SlotFor(s', id) == SlotFor(s, id);
    case Deliver =>
    case StartDial(d, i) => DialSound(s, d, i, id, reached);
    case Receive(d) => FinishSound(s, d, Received(SlotFor(s, s.dials[d].id).queue.value), id, reached);
    case TimeOut(d) => FinishSound(s, d, TimedOut, id, reached);
  }

  lemma DialSound(s: State, d: nat, i: nat, id: nat, reached: seq<ConnInfo>)
    requires d !in s.dials && Sound(s, id, reached)
    ensures Sound(Apply(s, StartDial(d, i)), id, reached)
  {
    var s' := Apply(s, StartDial(d, i));
    if i == id {
      if SlotFor(s, id).receiver.Unclaimed? {
        assert Claims(s'.dials[d], id);
      } else {
        var e :| e in s.dials && Claims(s.dials[e], id);
        assert e in s'.dials && Claims(s'.dials[e], id);
      }
    } else if !SlotFor(s, id).receiver.Unclaimed? {
      var e :| e in s.dials && Claims(s.dials[e], id);
      assert e in s'.dials && Claims(s'.dials[e], id);
    }
  }

  lemma FinishSound(s: State, d: nat, o: Outcome, id: nat, reached: seq<ConnInfo>)
    requires d in s.dials && s.dials[d].outcome.Waiting? && Sound(s, id, reached)
    requires o.TimedOut? || (o.Received? && SlotFor(s, s.dials[d].id).queue == Some(o.info))
    ensures Sound(Finish(s, d, o), id, reached)
  {
    var s' := Finish(s, d, o);
    if s.dials[d].id == id {
      assert Claims(s'.dials[d], id);
    } else if !SlotFor(s, id).receiver.Unclaimed? {
      var e :| e in s.dials && Claims(s.dials[e], id);
      assert e in s'.dials && Claims(s'.dials[e], id);
    }
  }

  lemma {:induction false} RunSound(run: seq<Label>, id: nat)
    requires Legal(run)
    ensures Sound(After(run), id, Reached(run, id))
    decreases |run|
  {
    hide Apply, Possible, Sound;
    if run == [] {
      EmptySound(id);
    } else {
      var k := |run| - 1;
      RunSound(run[..k], id);
      StepSound(After(run[..k]), run[k], id, Reached(run[..k], id));
    }
  }

  lemma EmptySound(id: nat)
    ensures Sound(EMPTY, id, [])
  {
  }

  // ---- what every run promises ----

  /** In every interleaving, at most one dial per id ever claims the slot; every other is refused. */
  lemma OneClaim(run: seq<Label>, d: nat, e: nat)
    requires Legal(run) && d in After(run).dials && e in After(run).dials && d != e
    requires After(run).dials[d].id == After(run).dials[e].id
    ensures After(run).dials[d].outcome.Refused? || After(run).dials[e].outcome.Refused?
  {
    RunSound(run, After(run).dials[d].id);
  }

  /** The run dials this id. */
  ghost predicate Dials(run: seq<Label>, id: nat)
  {
    exists i :: 0 <= i < |run| && run[i].StartDial? && run[i].id == id
  }

  ghost predicate Claimed(s: State, id: nat)
  {
    exists d :: d in s.dials && Claims(s.dials[d], id)
  }

  lemma StepClaims(s: State, l: Label, id: nat, reached: seq<ConnInfo>)
    requires Possible(s, l) && Sound(s, id, reached)
    ensures Claimed(Apply(s, l), id) <==> Claimed(s, id) || (l.StartDial? && l.id == id)
  {
    var s' := Apply(s, l);
    assert s'.dials.Keys == s.dials.Keys + if l.StartDial? then {l.dial} else {};
    assert forall d :: d in s.dials ==> d in s'.dials && (Claims(s'.dials[d], id) <==> Claims(s.dials[d], id));
    if l.StartDial? && l.id == id && SlotFor(s, id).receiver.Unclaimed? {
      assert l.dial in s'.dials && Claims(s'.dials[l.dial], id);
    }
  }

  lemma {:induction false} ClaimedIffDialled(run: seq<Label>, id: nat)
    requires Legal(run)
    ensures Claimed(After(run), id) <==> Dials(run, id)
    decreases |run|
  {
    hide Apply, Possible, Sound, Claimed;
    if run == [] {
      NoClaims(id);
    } else {
      var k := |run| - 1;
      ClaimedIffDialled(run[..k], id);
      RunSound(run[..k], id);
      StepClaims(After(run[..k]), run[k], id, Reached(run[..k], id));
      if Dials(run[..k], id) {
        var i :| 0 <= i < k && run[..k][i].StartDial? && run[..k][i].id == id;
        assert run[i].StartDial? && run[i].id == id;
      }
      if Dials(run, id) {
        var i :| 0 <= i < |run| && run[i].StartDial? && run[i].id == id;
        assert i < k ==> run[..k][i] == run[i];
      }
    }
  }

  lemma NoClaims(id: nat)
    ensures !Claimed(EMPTY, id)
  {
  }

  /** After every run, a new dial is refused if and only if the run has dialled that id before; otherwise
      it claims the slot and waits. */
  lemma RefusedIffDialled(run: seq<Label>, d: nat, id: nat)
    requires Legal(run) && d !in After(run).dials
    ensures Possible(After(run), StartDial(d, id))
    ensures Apply(After(run), StartDial(d, id)).dials[d] == Dial(id, if Dials(run, id) then Refused else Waiting)
  {
    hide Legal, After, Dials;
    RunSound(run, id);
    ClaimedIffDialled(run, id);
  }

  /** What a dial receives is the first announcement that reached its id, whichever came first; later
      announcements are dropped. */
  lemma ReceivesFirst(run: seq<Label>, d: nat)
    requires Legal(run) && d in After(run).dials && After(run).dials[d].outcome.Received?
    ensures var reached := Reached(run, After(run).dials[d].id);
      reached != [] && After(run).dials[d].outcome.info == reached[0]
  {
    RunSound(run, After(run).dials[d].id);
  }

  /** A waiting dial can receive exactly when some announcement has reached its id, and then gets the
      first; until then it can only wait or time out. */
  lemma WaitingGetsFirst(run: seq<Label>, d: nat)
    requires Legal(run) && d in After(run).dials && After(run).dials[d].outcome.Waiting?
    ensures var s := After(run); var reached := Reached(run, s.dials[d].id);
      && (Possible(s, Receive(d)) <==> reached != [])
      && (Possible(s, TimeOut(d)) <==> reached == [])
      && (reached != [] ==> Apply(s, Receive(d)).dials[d].outcome == Received(reached[0]))
  {
    RunSound(run, After(run).dials[d].id);
  }

  lemma Extend(run: seq<Label>, l: Label)
    requires Legal(run) && Possible(After(run), l)
    ensures Legal(run + [l]) && After(run + [l]) == Apply(After(run), l)
    ensures forall id ::
      Reached(run + [l], id) == Reached(run, id) +
        (if l.Deliver? && After(run).inHand.value.serviceId == id then [After(run).inHand.value] else [])
  {
    assert (run + [l])[..|run|] == run;
  }

  /** The receive loop never blocks: after any run, whatever the slot of the id in hand looks like, it can
      hand that announcement on, take the next one and deliver it. That changes no dial, and no slot
      but those of the two ids. */
  lemma NeverBlocks(run: seq<Label>, info: ConnInfo, id: nat)
    requires Legal(run)
    ensures var s := After(run);
      var freed := if s.inHand.Some? then run + [Deliver] else run;
      var next := freed + [Arrive(info)] + [Deliver];
      && Legal(freed) && Legal(next) && After(next).inHand.None? && After(next).dials == s.dials
      && Reached(next, info.serviceId) == Reached(freed, info.serviceId) + [info]
      && (id != info.serviceId && (s.inHand.Some? ==> s.inHand.value.serviceId != id) ==>
           SlotFor(After(next), id) == SlotFor(s, id) && Reached(next, id) == Reached(run, id))
  {
    hide Legal, After, Reached;
    var s := After(run);
    var freed := if s.inHand.Some? then run + [Deliver] else run;
    if s.inHand.Some? { Extend(run, Deliver); }
    Extend(freed, Arrive(info));
    Extend(freed + [Arrive(info)], Deliver);
  }

  // ---- the broker itself ----

  class Broker {
    var pending: map<nat, Slot>
    var inHand: Option<ConnInfo>
    var dials: map<nat, Dial>

    ghost function View(): State
      reads this
    {
      State(pending, inHand, dials)
    }

    constructor ()
      ensures View() == EMPTY
    {
      pending, inHand, dials := map[], None, map[];
    }

    /** One round of the receive loop: look the sender up under the lock, then try to send. */
    method DispatchInbound(info: ConnInfo)
      requires inHand.None?
      modifies this
      ensures View() == Apply(Apply(old(View()), Arrive(info)), Deliver)
      ensures dials == old(dials) && info.serviceId in pending
      ensures info.serviceId !in old(pending) ==> pending == old(pending)[info.serviceId := Slot(Some(info), Unclaimed)]
      ensures info.serviceId in old(pending) ==>
        var slot := old(pending[info.serviceId]);
        pending == old(pending)[info.serviceId :=
          if slot.queue.None? && !slot.receiver.Dropped? then slot.(queue := Some(info)) else slot]
    {
      var id := info.serviceId;
      if id !in pending {
        pending := pending[id := Slot(None, Unclaimed)];
      }
      var slot := pending[id];
      if slot.queue.None? && !slot.receiver.Dropped? {
        pending := pending[id := slot.(queue := Some(info))];
      }
    }

    /** The first half of a dial: claim the receiver, or be refused. */
    method Claim(d: nat, id: nat) returns (claimed: bool)
      requires d !in dials
      modifies this
      ensures View() == Apply(old(View()), StartDial(d, id))
      ensures claimed <==> id !in old(pending) || old(pending[id]).receiver.Unclaimed?
      ensures dials == old(dials)[d := Dial(id, if claimed then Waiting else Refused)]
      ensures id in pending && pending[id].queue == (if id in old(pending) then old(pending[id]).queue else None)
      ensures claimed ==> pending[id].receiver == HeldBy(d)
    {
      if id !in pending {
        pending := pending[id := Slot(None, Unclaimed)];
      }
      claimed := pending[id].receiver.Unclaimed?;
      if claimed {
        pending := pending[id := pending[id].(receiver := HeldBy(d))];
      }
      dials := dials[d := Dial(id, if claimed then Waiting else Refused)];
    }

    /** The second half: what the wait for an announcement comes to. */
    method Await(d: nat) returns (info: Option<ConnInfo>)
      requires d in dials && dials[d].outcome.Waiting? && dials[d].id in pending
      modifies this
      ensures info == old(pending[dials[d].id].queue)
      ensures View() == Apply(old(View()), if info.Some? then Receive(d) else TimeOut(d))
      ensures pending == old(pending)[old(dials[d].id) := Slot(None, Dropped)]
      ensures dials == old(dials)[d := Dial(old(dials[d].id), if info.Some? then Received(info.value) else TimedOut)]
    {
      var id := dials[d].id;
      info := pending[id].queue;
      pending := pending[id := Slot(None, Dropped)];
      dials := dials[d := Dial(id, if info.Some? then Received(info.value) else TimedOut)];
    }
  }
}
