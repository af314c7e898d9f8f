/** The two forwarding loops of the daemon service: tailing logs and watching events. A schedule says
    how other tasks' appends and publishes fall between the forwarder's turns. */
module Streams {
  import opened Broadcast
  import opened LogRing

  // ---- tailing a log ----

  /** Another task appends to some source's log, or the forwarder takes its next turn. */
  datatype Turn = Appended(record: Record) | Forward

  /** The snapshot of a tail: the newest lines up to the point `b` of the history. */
  function Snapshot(history: seq<Line>, b: nat, count: nat): seq<Line>
    requires b <= |history|
  {
    Last(history[..b], count)
  }

  /** A running tail: its snapshot, its receiver (unless it does not follow), and what it has sent. */
  datatype Tail = Tail(backlog: seq<Line>, follow: bool, position: nat, out: seq<Line>, ended: bool)

  /** What a tail has sent: part of the snapshot, or all of it and then, without a gap, the lines
      appended from the point `from` at which it subscribed. */
  ghost predicate Faithful(t: Tail, history: seq<Line>, from: nat, b: nat, count: nat)
  {
    && from <= b <= |history|
    && t.backlog == Snapshot(history, b, count)
    && (t.follow ==> from <= t.position <= |history|)
    && if t.follow && t.backlog <= t.out then t.out == t.backlog + history[from..t.position]
       else t.out <= t.backlog && (t.follow ==> t.position == from)
  }

  /** How many lines a tail has still to send. */
  function Due(t: Tail, history: seq<Line>): nat
    requires t.follow ==> t.position <= |history|
  {
    (if |t.out| < |t.backlog| then |t.backlog| - |t.out| else 0) + if t.follow then |history| - t.position else 0
  }

  /** Why a stream ends: a send found the client gone, a tail that does not follow is through with its
      snapshot, or the receiver has fallen further behind than the broadcast ring holds. */
  ghost predicate MayEnd(t: Tail, history: seq<Line>, ring: nat, accepts: nat)
    requires t.follow ==> t.position <= |history|
  {
    || (|t.out| == accepts && Due(t, history) > 0)
    || (!t.follow && t.out == t.backlog)
    || (t.follow && t.backlog <= t.out && |history| - t.position > ring)
  }

  lemma AppendKeepsFaithful(t: Tail, history: seq<Line>, line: Line, from: nat, b: nat, count: nat)
    requires Faithful(t, history, from, b, count)
    ensures Faithful(t, history + [line], from, b, count)
  {
  }

  /** With nothing left to send, everything has been sent. */
  lemma NothingDue(t: Tail, history: seq<Line>, from: nat, b: nat, count: nat)
    requires Faithful(t, history, from, b, count) && Due(t, history) == 0
    ensures t.out == t.backlog + if t.follow then history[from..] else []
  {
    assert t.backlog <= t.out;
  }

  /** One turn of the forwarder: the next backlog line, or else the next live one. A send that finds
      the client gone ends the stream, and so does a lagging receiver. */
  method ForwardTurn(t: Tail, sent: seq<Line>, ring: nat, accepts: nat, ghost from: nat, ghost b: nat, ghost count: nat)
    returns (t': Tail)
    requires Faithful(t, sent, from, b, count) && |t.out| <= accepts
    ensures Faithful(t', sent, from, b, count) && |t'.out| <= accepts
    ensures t' == t.(out := t'.out, position := t'.position, ended := t'.ended) && t.out <= t'.out
    ensures t.ended ==> t' == t
    ensures !t.ended ==> (t'.ended <==> MayEnd(t, sent, ring, accepts))
    ensures t'.ended ==> t'.out == t.out && t'.position == t.position
    ensures !t'.ended ==> |t'.out| == |t.out| + (if Due(t, sent) > 0 then 1 else 0)
    ensures !t'.ended ==> Due(t', sent) == if Due(t, sent) > 0 then Due(t, sent) - 1 else 0
  {
    t' := t;
    if t.ended {
      return;
    }
    if |t.out| < |t.backlog| {
      assert !(t.backlog <= t.out) && t.out != t.backlog;
      if |t.out| < accepts {
        t' := t.(out := t.out + [t.backlog[|t.out|]]);
        assert t'.out == t.backlog[..|t'.out|];
        assert sent[from..from] == [];
        return;
      }
      return t.(ended := true);
    }
    if !t.follow {
      return t.(ended := true);
    }
    assert t.out == t.backlog + sent[from..t.position];
    match Receive(sent, ring, t.position) {
      case Nothing =>
      case Lagged => t' := t.(ended := true);
      case Item(line) =>
        if |t.out| < accepts {
          assert sent[from..t.position + 1] == sent[from..t.position] + [line];
          t' := t.(out := t.out + [line], position := t.position + 1);
        } else {
          t' := t.(ended := true);
        }
    }
  }

  /** `tail_logs`: subscribes first and reads the backlog then, so that the lines `racing` it are in
      the snapshot's reach and in the receiver's. */
  method OpenTail(log: Ring, source: string, lines: int, follow: bool, racing: seq<Record>)
    returns (t: Tail, ghost from: nat)
    requires log.Valid()
    modifies log
    ensures log.Valid() && log.appends == old(log.appends) + racing
    ensures log.History(source) == old(log.History(source)) + Own(racing, source)
    ensures from == |old(log.History(source))|
    ensures Faithful(t, log.History(source), from, |log.History(source)|, Count(lines, log.capacity))
    ensures t.out == [] && !t.ended && t.follow == follow && (follow ==> t.position == from)
    ensures var history := log.History(source); var asked := if lines > 0 then lines else 0;
      var held := if log.capacity == 0 then 1 else log.capacity;
      && |t.backlog| <= asked && |t.backlog| <= held && |t.backlog| <= |history|
      && (|t.backlog| == asked || |t.backlog| == held || |t.backlog| == |history|)
      && t.backlog == history[|history| - |t.backlog|..]
  {
    hide Own, Last, Faithful;
    from := |log.History(source)|;
    var position := 0;
    if follow {
      position := log.Subscribe(source);
    }
    AppendAll(log, racing);
    OwnConcat(old(log.appends), racing, source);
    var backlog := log.Backlog(source, if lines > 0 then lines else 0);
    t := Tail(backlog, follow, position, [], false);
    OpenFaithful(t, log.History(source), from, Count(lines, log.capacity));
  }

  lemma OpenFaithful(t: Tail, history: seq<Line>, from: nat, count: nat)
    requires from <= |history| && t.backlog == Last(history, count) && t.out == [] && (t.follow ==> t.position == from)
    ensures Faithful(t, history, from, |history|, count)
  {
    hide Last;
    assert history[..|history|] == history && history[from..from] == [];
  }

  method AppendAll(log: Ring, records: seq<Record>)
    requires log.Valid()
    modifies log
    ensures log.Valid() && log.appends == old(log.appends) + records
  {
    hide *;
    for i := 0 to |records|
      invariant log.Valid() && log.appends == old(log.appends) + records[..i]
    {
      log.Append(records[i].source, records[i].line);
      assert records[..i + 1] == records[..i] + [records[i]];
    }
    assert records[..|records|] == records;
  }

  /** The lines a schedule appends to a source. */
  function Scheduled(turns: seq<Turn>, source: string): seq<Line>
  {
    if turns == [] then []
    else
      var last := turns[|turns| - 1];
      Scheduled(turns[..|turns| - 1], source)
      + if last.Appended? && last.record.source == source then [last.record.line] else []
  }

  /** The forwarder's turns in a schedule. */
  function Forwards(turns: seq<Turn>): nat
  {
    if turns == [] then 0
    else Forwards(turns[..|turns| - 1]) + if turns[|turns| - 1].Forward? then 1 else 0
  }

  /** The forwarder's turns since the source was last appended to. */
  function ForwardsSince(turns: seq<Turn>, source: string): nat
  {
    if turns == [] then 0
    else
      var rest := ForwardsSince(turns[..|turns| - 1], source);
      match turns[|turns| - 1]
      case Forward => rest + 1
      case Appended(r) => if r.source == source then 0 else rest
  }

  /** How far a tail has come under a schedule: while it is open, every turn of the forwarder has sent
      a line unless none was due; once it has ended, it had a reason to. */
  ghost predicate Advanced(t: Tail, history: seq<Line>, from: nat, source: string, turns: seq<Turn>,
                           accepts: nat, ring: nat)
  {
    && (t.follow ==> t.position <= |history|) && from <= |history| && |t.out| <= accepts
    && Due(t, history) <= |t.backlog| + |history| - from
    && (!t.ended && Due(t, history) > 0 ==>
         Due(t, history) + ForwardsSince(turns, source) <= |t.backlog| + |history| - from)
    && (!t.ended && (!t.follow || |t.out| < |t.backlog|) ==> |t.out| == Forwards(turns))
    && (t.ended ==> MayEnd(t, history, ring, accepts))
  }

  /** `tail_logs` with `forward_logs`. `racing` is what is appended between the subscription and the
      snapshot, `accepts` how many sends succeed before the client is gone, `ring` the size of the
      broadcast ring. The stream is a snapshot ending at `b`, then the lines from `from` on without a
      gap, and `from` is not after `b`. If it is still open after as many turns as there are lines to
      send since the source was last appended to, it has sent them all. */
  method TailLogs(log: Ring, source: string, lines: int, follow: bool, racing: seq<Record>,
                  turns: seq<Turn>, accepts: nat, ring: nat)
    returns (t: Tail, ghost from: nat, ghost b: nat)
    requires log.Valid() && ring >= 1
    modifies log
    ensures log.Valid()
    ensures log.History(source) == old(log.History(source)) + Own(racing, source) + Scheduled(turns, source)
    ensures from == |old(log.History(source))| && b == from + |Own(racing, source)|
    ensures t.follow == follow && Faithful(t, log.History(source), from, b, Count(lines, log.capacity))
    ensures Advanced(t, log.History(source), from, source, turns, accepts, ring)
    ensures !t.ended && ForwardsSince(turns, source) >= |t.backlog| + |log.History(source)| - from ==>
      t.out == t.backlog + if follow then log.History(source)[from..] else []
    ensures !follow && Forwards(turns) > |t.backlog| ==> t.ended
    ensures var history := log.History(source); var asked := if lines > 0 then lines else 0;
      var held := if log.capacity == 0 then 1 else log.capacity;
      && |t.backlog| <= asked && |t.backlog| <= held && |t.backlog| <= b <= |history|
      && (|t.backlog| == asked || |t.backlog| == held || |t.backlog| == b)
      && t.backlog == history[b - |t.backlog|..b]
  {
    hide Own, Last, Faithful, Ring.Valid, ForwardsSince, Forwards, Advanced, Scheduled;
    t, from := OpenTail(log, source, lines, follow, racing);
    OpenAdvanced(t, log.History(source), from, Count(lines, log.capacity), source, accepts, ring);
    b := |log.History(source)|;
    ghost var start := log.History(source);
    t := RunTail(log, source, turns, t, accepts, ring, from, b, Count(lines, log.capacity));
    EnoughTurns(t, log.History(source), from, b, Count(lines, log.capacity), source, turns, accepts, ring);
    SameSlice(start, log.History(source), b - |t.backlog|);
  }

  lemma SameSlice(start: seq<Line>, history: seq<Line>, from: nat)
    requires start <= history && from <= |start|
    ensures start[from..] == history[from..|start|]
  {
  }

  /** All turns of the schedule. */
  method RunTail(log: Ring, source: string, turns: seq<Turn>, t0: Tail, accepts: nat, ring: nat,
                 ghost from: nat, ghost b: nat, ghost count: nat)
    returns (t: Tail)
    requires log.Valid() && Faithful(t0, log.History(source), from, b, count)
    requires Advanced(t0, log.History(source), from, source, [], accepts, ring)
    modifies log
    ensures log.Valid() && t.follow == t0.follow && t.backlog == t0.backlog
    ensures log.History(source) == old(log.History(source)) + Scheduled(turns, source)
    ensures Faithful(t, log.History(source), from, b, count)
    ensures Advanced(t, log.History(source), from, source, turns, accepts, ring)
  {
    hide Own, Last, Faithful, Ring.Valid, ForwardsSince, Forwards, Advanced;
    t := t0;
    for i := 0 to |turns|
      invariant log.Valid() && t.follow == t0.follow && t.backlog == t0.backlog
      invariant log.History(source) == old(log.History(source)) + Scheduled(turns[..i], source)
      invariant Faithful(t, log.History(source), from, b, count)
      invariant Advanced(t, log.History(source), from, source, turns[..i], accepts, ring)
    {
      assert turns[..i + 1][..i] == turns[..i] && turns[..i + 1] == turns[..i] + [turns[i]];
      t := TakeTurn(log, source, turns[i], t, accepts, ring, from, b, count, turns[..i]);
    }
    assert turns[..|turns|] == turns;
  }

  lemma OpenAdvanced(t: Tail, history: seq<Line>, from: nat, count: nat, source: string, accepts: nat, ring: nat)
    requires Faithful(t, history, from, |history|, count)
    requires t.out == [] && !t.ended && (t.follow ==> t.position == from)
    ensures Advanced(t, history, from, source, [], accepts, ring)
  {
  }

  /** An open stream with no line due has sent everything. */
  lemma EnoughTurns(t: Tail, history: seq<Line>, from: nat, b: nat, count: nat, source: string, turns: seq<Turn>,
                    accepts: nat, ring: nat)
    requires Faithful(t, history, from, b, count) && Advanced(t, history, from, source, turns, accepts, ring)
    ensures !t.ended && ForwardsSince(turns, source) >= |t.backlog| + |history| - from ==>
      t.out == t.backlog + if t.follow then history[from..] else []
    ensures !t.follow && Forwards(turns) > |t.backlog| ==> t.ended
  {
    hide ForwardsSince, Forwards;
    if Due(t, history) == 0 { NothingDue(t, history, from, b, count); }
  }

  lemma AppendAdvances(t: Tail, history: seq<Line>, line: Line, from: nat, b: nat, count: nat, source: string,
                       turns: seq<Turn>, r: Record, accepts: nat, ring: nat)
    requires Faithful(t, history, from, b, count) && Advanced(t, history, from, source, turns, accepts, ring)
    ensures var history' := if r.source == source then history + [line] else history;
      && Faithful(t, history', from, b, count)
      && Advanced(t, history', from, source, turns + [Appended(r)], accepts, ring)
  {
    assert (turns + [Appended(r)])[..|turns|] == turns;
    if r.source == source { AppendKeepsFaithful(t, history, line, from, b, count); }
  }

  /** One turn of the schedule. */
  method TakeTurn(log: Ring, source: string, turn: Turn, t: Tail, accepts: nat, ring: nat,
                  ghost from: nat, ghost b: nat, ghost count: nat, ghost turns: seq<Turn>)
    returns (t': Tail)
    requires log.Valid() && Faithful(t, log.History(source), from, b, count)
    requires Advanced(t, log.History(source), from, source, turns, accepts, ring)
    modifies log
    ensures log.Valid() && t'.follow == t.follow && t'.backlog == t.backlog
    ensures log.History(source) == old(log.History(source))
      + if turn.Appended? && turn.record.source == source then [turn.record.line] else []
    ensures Faithful(t', log.History(source), from, b, count)
    ensures Advanced(t', log.History(source), from, source, turns + [turn], accepts, ring)
  {
    hide Own, Last, Faithful;
    assert (turns + [turn])[..|turns|] == turns;
    t' := t;
    match turn {
      case Appended(r) =>
        AppendAdvances(t, log.History(source), r.line, from, b, count, source, turns, r, accepts, ring);
        hide Advanced;
        log.Append(r.source, r.line);
      case Forward =>
        var sent := if source in log.sources then log.sources[source].sent else [];
        t' := ForwardTurn(t, sent, ring, accepts, from, b, count);
    }
  }

  function Count(lines: int, capacity: nat): nat
  {
    var wanted := if lines > 0 then lines else 0;
    if wanted <= Max1(capacity) then wanted else Max1(capacity)
  }

  /** The history indices a tail sends, in order: the `held` lines of the snapshot ending at `b`, then
      those from `from` up to `upTo`. */
  function Indices(from: nat, b: nat, held: nat, upTo: nat): seq<nat>
    requires held <= b && from <= upTo
  {
    seq(held, i requires 0 <= i < held => b - held + i) + seq(upTo - from, i requires 0 <= i < upTo - from => from + i)
  }

  /** A tail that is done with its snapshot has sent exactly the lines at those indices. */
  lemma TailByIndex(t: Tail, history: seq<Line>, from: nat, b: nat, count: nat)
    requires Faithful(t, history, from, b, count) && t.follow && t.backlog <= t.out
    ensures |t.backlog| <= b && |t.backlog| == (if count <= b then count else b)
    ensures var ix := Indices(from, b, |t.backlog|, t.position);
      |ix| == |t.out| && forall i :: 0 <= i < |ix| ==> 0 <= ix[i] < |history| && t.out[i] == history[ix[i]]
  {
  }

  /** The only lines sent twice are those appended between the subscription and the snapshot that the
      snapshot still holds. */
  lemma TwiceIffRacing(j: nat, from: nat, b: nat, held: nat, upTo: nat)
    requires held <= b && from <= b && from <= upTo
    ensures var ix := Indices(from, b, held, upTo);
      (exists i, k :: 0 <= i < k < |ix| && ix[i] == j && ix[k] == j) <==> from <= j < upTo && b - held <= j < b
  {
    var ix := Indices(from, b, held, upTo);
    if from <= j < upTo && b - held <= j < b {
      assert ix[j - (b - held)] == j && ix[held + j - from] == j;
    }
  }

  // ---- watching events ----

  datatype Event = Event(module': string, kind: string, message: string)

  predicate Passes(e: Event, filter: string)
  {
    filter == "" || e.module' == filter
  }

  function Matching(events: seq<Event>, filter: string): seq<Event>
  {
    if events == [] then []
    else
      var e := events[|events| - 1];
      Matching(events[..|events| - 1], filter) + if Passes(e, filter) then [e] else []
  }

  /** An empty filter lets every event through; any other one exactly those of that module. */
  lemma {:induction false} MatchingIs(events: seq<Event>, filter: string)
    ensures filter == "" ==> Matching(events, filter) == events
    ensures forall e :: e in Matching(events, filter) <==> e in events && (filter == "" || e.module' == filter)
    decreases |events|
  {
    if events != [] {
      var k := |events| - 1;
      var rest := events[..k];
      MatchingIs(rest, filter);
      assert events == rest + [events[k]];
      assert forall e :: e in events <==> e in rest || e == events[k];
    }
  }

  /** In the order they came in. */
  lemma {:induction false} MatchingConcat(a: seq<Event>, b: seq<Event>, filter: string)
    ensures Matching(a + b, filter) == Matching(a, filter) + Matching(b, filter)
    decreases |b|
  {
    if b == [] {
      assert a + b == a;
    } else {
      var k := |b| - 1;
      MatchingConcat(a, b[..k], filter);
      assert (a + b)[..|a + b| - 1] == a + b[..k];
    }
  }

  /** The shared broker: one fan-out for every publisher and watcher. */
  class EventBroker {
    const ring: nat
    var sent: seq<Event>

    constructor (ring: nat)
      ensures this.ring == ring && sent == []
    {
      this.ring := ring;
      sent := [];
    }

    method Publish(e: Event)
      modifies this
      ensures sent == old(sent) + [e]
    {
      sent := sent + [e];
    }

    method Subscribe() returns (position: nat)
      ensures position == |sent|
    {
      position := |sent|;
    }
  }

  datatype WatchTurn = Published(event: Event) | Take

  /** Why a watch ended, or that it has not. */
  datatype Ending = Open | Overrun | Disconnected

  /** A running watch: its receiver, what it has sent, and whether it goes on. */
  datatype Watch = Watch(position: nat, out: seq<Event>, ending: Ending)

  /** What a watch has sent: the matching events from where it subscribed up to its receiver. */
  ghost predicate Watched(w: Watch, sent: seq<Event>, from: nat, filter: string, ring: nat, accepts: nat)
  {
    && from <= w.position <= |sent| && |w.out| <= accepts
    && w.out == Matching(sent[from..w.position], filter)
    && (w.ending.Overrun? ==> |sent| - w.position > ring)
    && (w.ending.Disconnected? ==>
         |w.out| == accepts && w.position < |sent| && Passes(sent[w.position], filter))
  }

  /** One turn of the forwarder: it takes the next event, unless there is none. */
  method WatchNext(w: Watch, sent: seq<Event>, filter: string, ring: nat, accepts: nat, ghost from: nat)
    returns (w': Watch)
    requires Watched(w, sent, from, filter, ring, accepts)
    ensures Watched(w', sent, from, filter, ring, accepts) && from <= w'.position <= |sent|
    ensures !w.ending.Open? ==> w' == w
    ensures w.ending.Open? ==> (w'.ending.Overrun? <==> |sent| - w.position > ring)
    ensures w.ending.Open? ==>
      (w'.ending.Disconnected? <==>
        0 < |sent| - w.position <= ring && Passes(sent[w.position], filter) && |w.out| == accepts)
    ensures w'.ending.Open? ==> w'.position == if w.position < |sent| then w.position + 1 else w.position
    ensures w'.ending.Open? && w.position < |sent| ==>
      var e := sent[w.position];
      w'.out == if filter == "" || e.module' == filter then w.out + [e] else w.out
    ensures w.ending.Open? && !w'.ending.Open? ==> w'.position == w.position && w'.out == w.out
  {
    w' := w;
    if w.ending.Open? {
      match Receive(sent, ring, w.position) {
        case Nothing =>
        case Lagged => w' := w.(ending := Overrun);
        case Item(e) =>
          if Passes(e, filter) && |w.out| >= accepts {
            return w.(ending := Disconnected);
          }
          assert sent[from..w.position + 1] == sent[from..w.position] + [e];
          w' := w.(position := w.position + 1, out := w.out + if Passes(e, filter) then [e] else []);
      }
    }
  }

  /** What a schedule publishes. */
  function AllPublished(turns: seq<WatchTurn>): seq<Event>
  {
    if turns == [] then []
    else
      var last := turns[|turns| - 1];
      AllPublished(turns[..|turns| - 1]) + if last.Published? then [last.event] else []
  }

  /** The forwarder's turns since the last publication. */
  function TakesSince(turns: seq<WatchTurn>): nat
  {
    if turns == [] || turns[|turns| - 1].Published? then 0 else TakesSince(turns[..|turns| - 1]) + 1
  }

  /** `watch_events` with `forward_events`: whatever the ring size and the interleaving, the stream is
      a gap-free prefix of the matching events published since it subscribed. It ends only because the
      client left, or because it had fallen further behind than the ring holds; and if it is still open
      after as many turns as there were events since the last publication, it has sent them all. */
  method WatchEvents(broker: EventBroker, filter: string, turns: seq<WatchTurn>, accepts: nat)
    returns (w: Watch, ghost from: nat)
    modifies broker
    ensures from == |old(broker.sent)| && broker.sent == old(broker.sent) + AllPublished(turns)
    ensures Watched(w, broker.sent, from, filter, broker.ring, accepts)
    ensures w.ending.Open? && TakesSince(turns) >= |broker.sent| - from ==>
      w.position == |broker.sent| && w.out == Matching(AllPublished(turns), filter)
  {
    var position := broker.Subscribe();
    from := position;
    w := Watch(position, [], Open);
    assert Watched(w, broker.sent, from, filter, broker.ring, accepts);
    hide Matching;
    for i := 0 to |turns|
      invariant from == |old(broker.sent)| && broker.sent == old(broker.sent) + AllPublished(turns[..i])
      invariant Watched(w, broker.sent, from, filter, broker.ring, accepts)
      invariant w.ending.Open? && w.position < |broker.sent| ==> w.position >= from + TakesSince(turns[..i])
    {
      hide Watched;
      assert turns[..i + 1][..i] == turns[..i];
      match turns[i] {
        case Published(e) =>
          WatchedMore(w, broker.sent, e, from, filter, broker.ring, accepts);
          broker.Publish(e);
        case Take =>
          w := WatchNext(w, broker.sent, filter, broker.ring, accepts, from);
      }
    }
    assert turns[..|turns|] == turns;
    assert broker.sent[from..] == AllPublished(turns);
    assert broker.sent[from..|broker.sent|] == broker.sent[from..];
  }

  lemma WatchedMore(w: Watch, sent: seq<Event>, e: Event, from: nat, filter: string, ring: nat, accepts: nat)
    requires Watched(w, sent, from, filter, ring, accepts)
    ensures from <= w.position <= |sent| && Watched(w, sent + [e], from, filter, ring, accepts)
  {
    assert (sent + [e])[from..w.position] == sent[from..w.position];
  }
}
