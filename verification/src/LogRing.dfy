/** Bounded per-source log rings with live tails. */
module LogRing {
  datatype Line = Line(at: int, level: string, message: string)

  /** One source: the ring, and everything ever sent on its live-tail channel. */
  datatype SourceLog = SourceLog(lines: seq<Line>, sent: seq<Line>)

  function Max1(n: nat): nat
  {
    if n == 0 then 1 else n
  }

  /** The newest `n` of a sequence. */
  function Last<T>(s: seq<T>, n: nat): seq<T>
  {
    if n <= |s| then s[|s| - n..] else s
  }

  /** What appending does to a ring: at capacity the oldest line goes first. */
  function Push(lines: seq<Line>, line: Line, capacity: nat): seq<Line>
  {
    (if |lines| >= capacity && lines != [] then lines[1..] else lines) + [line]
  }

  /** A ring that holds the newest lines of a history holds the newest of the longer one after a push;
      a capacity of zero behaves as one. */
  lemma PushKeepsNewest(history: seq<Line>, line: Line, capacity: nat)
    ensures Push(Last(history, Max1(capacity)), line, capacity) == Last(history + [line], Max1(capacity))
  {
  }

  lemma NewestOfNothing(capacity: nat)
    ensures Last<Line>([], Max1(capacity)) == []
  {
  }

  lemma LastIs<T>(s: seq<T>, n: nat)
    ensures |Last(s, n)| == (if n <= |s| then n else |s|) && Last(s, n) == s[|s| - |Last(s, n)|..]
  {
  }

  lemma LastOfLast<T>(s: seq<T>, m: nat, n: nat)
    ensures Last(Last(s, m), n) == Last(s, if n <= m then n else m)
  {
  }

  // ---- any sequence of appends over any sources ----

  datatype Record = Record(source: string, line: Line)

  /** The rings after these appends, source by source. */
  function Rings(appends: seq<Record>, capacity: nat): map<string, seq<Line>>
  {
    if appends == [] then map[]
    else
      var rings := Rings(appends[..|appends| - 1], capacity);
      var a := appends[|appends| - 1];
      rings[a.source := Push(if a.source in rings then rings[a.source] else [], a.line, capacity)]
  }

  /** A source's own history. */
  function Own(appends: seq<Record>, source: string): seq<Line>
  {
    if appends == [] then []
    else
      var a := appends[|appends| - 1];
      Own(appends[..|appends| - 1], source) + if a.source == source then [a.line] else []
  }

  lemma OwnSnoc(appends: seq<Record>, r: Record, source: string)
    ensures Own(appends + [r], source) == Own(appends, source) + if r.source == source then [r.line] else []
  {
  }

  lemma {:induction false} OwnConcat(a: seq<Record>, b: seq<Record>, source: string)
    ensures Own(a + b, source) == Own(a, source) + Own(b, source)
    decreases |b|
  {
    if b == [] {
      assert a + b == a;
    } else {
      var k := |b| - 1;
      OwnConcat(a, b[..k], source);
      assert a + b == a + b[..k] + [b[k]];
      OwnSnoc(a + b[..k], b[k], source);
    }
  }

  /** Each ring holds exactly the newest lines of its own source's history; other sources never show. */
  lemma {:induction false} RingsHoldNewest(appends: seq<Record>, capacity: nat, source: string)
    ensures source in Rings(appends, capacity) <==> Own(appends, source) != []
    ensures source in Rings(appends, capacity) ==>
      Rings(appends, capacity)[source] == Last(Own(appends, source), Max1(capacity))
    decreases |appends|
  {
    if appends != [] {
      var k := |appends| - 1;
      RingsHoldNewest(appends[..k], capacity, source);
      if appends[k].source == source {
      } else {
        assert Own(appends, source) == Own(appends[..k], source);
      }
    }
  }

  class Ring {
    const capacity: nat
    var sources: map<string, SourceLog>
    /** Every append so far. */
    ghost var appends: seq<Record>

    ghost function History(source: string): seq<Line>
      reads this
    {
      Own(appends, source)
    }

    ghost predicate Valid()
      reads this
    {
      && (forall s :: History(s) != [] ==> s in sources)
      && (forall s :: s in sources ==>
           sources[s].lines == Last(History(s), Max1(capacity)) && sources[s].sent == History(s))
    }

    /** The rings of the class are those of the appends, so each holds the newest lines of its source. */
    lemma RingsAreThose(source: string)
      requires Valid()
      ensures source in Rings(appends, capacity) ==>
        source in sources && sources[source].lines == Rings(appends, capacity)[source]
      ensures source in sources && source !in Rings(appends, capacity) ==> sources[source].lines == []
    {
      RingsHoldNewest(appends, capacity, source);
      NewestOfNothing(capacity);
    }

    constructor (capacity: nat)
      ensures Valid() && this.capacity == capacity && appends == []
    {
      this.capacity := capacity;
      sources := map[];
      appends := [];
    }

    method Append(source: string, line: Line)
      requires Valid()
      modifies this
      ensures Valid() && appends == old(appends) + [Record(source, line)]
      ensures forall s :: History(s) == if s == source then old(History(s)) + [line] else old(History(s))
    {
      hide Own, Last, Push;
      var entry := if source in sources then sources[source] else SourceLog([], []);
      if source !in sources { NewestOfNothing(capacity); }
      PushKeepsNewest(History(source), line, capacity);
      var lines := PushBack(entry.lines, line);
      forall s
        ensures Own(appends + [Record(source, line)], s) == History(s) + if s == source then [line] else []
      {
        OwnSnoc(appends, Record(source, line), s);
      }
      sources := sources[source := SourceLog(lines, entry.sent + [line])];
      appends := appends + [Record(source, line)];
      assert forall s :: s != source ==> History(s) == old(History(s));
      assert forall s :: s != source && s in sources ==> s in old(sources) && sources[s] == old(sources)[s];
    }

    method PushBack(lines: seq<Line>, line: Line) returns (r: seq<Line>)
      ensures r == Push(lines, line, capacity)
    {
      r := lines;
      if |r| >= capacity && |r| > 0 {
        r := r[1..];
      }
      r := r + [line];
    }

    /** The newest `count` lines still held, oldest first. */
    method Backlog(source: string, count: nat) returns (result: seq<Line>)
      requires Valid()
      ensures result == Last(History(source), if count <= Max1(capacity) then count else Max1(capacity))
      ensures |result| <= count && |result| <= |History(source)| && |result| <= Max1(capacity)
      ensures result == History(source)[|History(source)| - |result|..]
      ensures |result| == count || |result| == |History(source)| || |result| == if capacity == 0 then 1 else capacity
    {
      hide Own, Last;
      LastOfLast(History(source), Max1(capacity), count);
      LastIs(History(source), if count <= Max1(capacity) then count else Max1(capacity));
      if source !in sources {
        return [];
      }
      var lines := sources[source].lines;
      LastIs(lines, count);
      result := Skip(lines, if count <= |lines| then |lines| - count else 0);
    }

    /** All but the first `skip` lines. */
    method Skip(lines: seq<Line>, skip: nat) returns (result: seq<Line>)
      requires skip <= |lines|
      ensures result == lines[skip..]
    {
      result := [];
      for i := skip to |lines|
        invariant result == lines[skip..i]
      {
        result := result + [lines[i]];
      }
      assert lines[skip..|lines|] == lines[skip..];
    }

    /** A receiver that sees nothing appended before now. */
    method Subscribe(source: string) returns (position: nat)
      requires Valid()
      modifies this
      ensures Valid() && appends == old(appends) && source in sources && position == |History(source)|
    {
      if source !in sources {
        sources := sources[source := SourceLog([], [])];
      }
      position := |sources[source].sent|;
    }
  }
}
