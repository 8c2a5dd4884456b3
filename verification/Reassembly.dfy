/** The receiving side puts the chunks of one stream back in order. */
module Reassembly {
  import opened Bytes
  import opened Packets
  import opened OutLinkSpec
  import opened OutLinkProofs

  // ----- The bytes are those of the source stream, in order

  /** Socket output followed by the network buffer is exactly the chunks below the expected index. */
  ghost predicate Reassembles(o: Outgoing, src: seq<Octets>) {
    && o.next <= |src| <= BAD_INDEX
    && o.written + o.buffer == Concat(src[..o.next])
    && (forall k <- o.chunks :: k < |src| && o.chunks[k] == src[k])
  }

  lemma TakeReassembles(o: Outgoing, src: seq<Octets>)
    requires Reassembles(o, src) && o.next in o.chunks
    ensures Reassembles(TakeChunk(o), src) && TakeChunk(o).next == o.next + 1
  {
    var taken := TakeChunk(o);
    ConcatSnoc(src[..o.next], src[o.next]);
    assert src[..o.next] + [src[o.next]] == src[..taken.next];
    assert taken.written + taken.buffer == (o.written + o.buffer) + src[o.next];
  }

  lemma {:induction false} DrainReassembles(o: Outgoing, src: seq<Octets>)
    requires Reassembles(o, src)
    ensures Reassembles(Drain(o), src)
    decreases o.chunks.Keys
  {
    if o.next in o.chunks {
      TakeReassembles(o, src);
      if !StopReached(TakeChunk(o)) {
        DrainReassembles(TakeChunk(o), src);
      }
    }
  }

  /** The event agrees with the source: a data packet carries the chunk of its index. */
  predicate Consistent(e: Event, src: seq<Octets>) {
    e.Arrive? ==> e.id < |src| && e.data == src[e.id]
  }

  lemma ApplyReassembles(l: Link, e: Event, src: seq<Octets>)
    requires LinkOk(l) && Enabled(l, e) && Consistent(e, src)
    requires Reassembles(l.out, src)
    ensures Reassembles(Apply(l, e).out, src)
  {
    OutEffect(l, e);
    if EntersWriter(e) {
      var w := WriterEntry(l, e).out;
      assert w.written + w.buffer == l.out.written + l.out.buffer;
      DrainReassembles(w, src);
    }
  }

  // ----- The stop index

  /** The only stop index ever given is n, and it was not below the expected index. */
  ghost predicate StopsAt(o: Outgoing, n: U32) {
    && n < UNDEFINED_CHUNK
    && (o.stop != UNDEFINED_CHUNK ==> o.stop == n && o.next <= n)
    && (o.stopAfterAll ==> StopReached(o))
    && (forall k <- o.chunks :: k < BAD_INDEX)
  }

  lemma {:induction false} DrainStopsAt(o: Outgoing, n: U32)
    requires StopsAt(o, n) && !StopReached(o)
    ensures StopsAt(Drain(o), n)
    decreases o.chunks.Keys
  {
    if o.next in o.chunks && !StopReached(TakeChunk(o)) {
      DrainStopsAt(TakeChunk(o), n);
    }
  }

  lemma ApplyStopsAt(l: Link, e: Event, n: U32)
    requires LinkOk(l) && Enabled(l, e) && StopsAt(l.out, n)
    requires e.StopAt? ==> e.n == n && l.out.next <= n
    requires e.Arrive? ==> e.id < BAD_INDEX
    ensures StopsAt(Apply(l, e).out, n)
  {
    OutEffect(l, e);
    if EntersWriter(e) && !StopReached(WriterEntry(l, e).out) {
      DrainStopsAt(WriterEntry(l, e).out, n);
    }
  }

  // ----- Which chunks have been delivered

  /** d is the set of delivered indices: everything below the expected index is in it, and what is in it
      is consumed, stored, or past the stop index. */
  ghost predicate Accounts(o: Outgoing, d: set<U32>) {
    && (forall i: U32 :: i < o.next ==> i in d)
    && (forall k <- o.chunks :: k in d)
    && (forall i <- d :: i < o.next || i in o.chunks || (o.stop != UNDEFINED_CHUNK && o.stop <= i))
  }

  lemma {:induction false} DrainAccounts(o: Outgoing, d: set<U32>)
    requires Accounts(o, d) && ChunksOk(o) && !StopReached(o)
    requires forall k <- o.chunks :: k < BAD_INDEX
    ensures Accounts(Drain(o), d)
    decreases o.chunks.Keys
  {
    if o.next in o.chunks && !StopReached(TakeChunk(o)) {
      DrainAccounts(TakeChunk(o), d);
    }
  }

  lemma FillAccounts(o: Outgoing, d: set<U32>)
    requires Accounts(o, d) && ChunksOk(o)
    requires forall k <- o.chunks :: k < BAD_INDEX
    ensures Accounts(Fill(o), d)
  {
    if !StopReached(o) {
      DrainAccounts(o, d);
    }
  }

  function DeliveredBy(e: Event): set<U32> {
    if e.Arrive? then {e.id} else {}
  }

  lemma SetStopAccounts(o: Outgoing, n: U32, d: set<U32>)
    requires Accounts(o, d) && ChunksOk(o) && StopsAt(o, n) && o.next <= n
    ensures Accounts(SetStop(o, n), d)
  {
  }

  lemma ApplyAccounts(l: Link, e: Event, d: set<U32>, n: U32)
    requires LinkOk(l) && Enabled(l, e) && Accounts(l.out, d) && StopsAt(l.out, n)
    requires e.StopAt? ==> e.n == n && l.out.next <= n
    ensures Accounts(Apply(l, e).out, d + DeliveredBy(e))
  {
    OutEffect(l, e);
    assert !e.Arrive? ==> d + DeliveredBy(e) == d;
    if EntersWriter(e) {
      FillAccounts(WriterEntry(l, e).out, d);
    } else if e.StopAt? {
      SetStopAccounts(l.out, n, d);
    }
  }

  lemma StopIsSetByStop(l: Link, e: Event, n: U32)
    requires LinkOk(l) && Enabled(l, e) && StopsAt(l.out, n)
    requires e.StopAt? ==> e.n == n && l.out.next <= n
    ensures Apply(l, e).out.stop != UNDEFINED_CHUNK <==> l.out.stop != UNDEFINED_CHUNK || e.StopAt?
  {
    OutEffect(l, e);
    if EntersWriter(e) {
      DrainFrame(WriterEntry(l, e).out);
    }
  }

  // ----- Whole runs

  /** From l the events of es can happen one after the other. */
  ghost predicate Possible(l: Link, es: seq<Event>)
    decreases es
  {
    es == [] || (Enabled(l, es[0]) && Possible(Apply(l, es[0]), es[1..]))
  }

  function Final(l: Link, es: seq<Event>): Link
    requires Possible(l, es)
    decreases es
  {
    if es == [] then l else Final(Apply(l, es[0]), es[1..])
  }

  /** No event of any run breaks what every link keeps: stored keys are not below the expected index, a running
      loop has one operation, a parked writer has nothing to do, Close comes once and last. */
  lemma {:induction false} RunOk(l: Link, es: seq<Event>)
    requires LinkOk(l) && Possible(l, es)
    ensures LinkOk(Final(l, es))
    decreases es
  {
    if es != [] {
      ApplyOk(l, es[0]);
      RunOk(Apply(l, es[0]), es[1..]);
    }
  }

  function Delivered(es: seq<Event>): set<U32> {
    if es == [] then {} else DeliveredBy(es[0]) + Delivered(es[1..])
  }

  predicate StopSeen(es: seq<Event>) {
    es != [] && (es[0].StopAt? || StopSeen(es[1..]))
  }

  /** Every stop in the run names n, and comes before the link has gone past n. */
  ghost predicate StopsAhead(l: Link, es: seq<Event>, n: U32)
    requires Possible(l, es)
    decreases es
  {
    es == [] || ((es[0].StopAt? ==> es[0].n == n && l.out.next <= n) && StopsAhead(Apply(l, es[0]), es[1..], n))
  }

  /** A run from l with the payloads of src and the one stop index n. */
  ghost predicate StreamRun(l: Link, es: seq<Event>, src: seq<Octets>, n: U32) {
    Possible(l, es) && (forall e <- es :: Consistent(e, src)) && StopsAhead(l, es, n)
  }

  /** Everything such a run keeps, d being what has been delivered. */
  ghost predicate Tracks(l: Link, src: seq<Octets>, d: set<U32>, n: U32) {
    LinkOk(l) && Reassembles(l.out, src) && StopsAt(l.out, n) && Accounts(l.out, d)
  }

  lemma ApplyTracks(l: Link, e: Event, src: seq<Octets>, d: set<U32>, n: U32)
    requires Tracks(l, src, d, n) && Enabled(l, e) && Consistent(e, src)
    requires e.StopAt? ==> e.n == n && l.out.next <= n
    ensures Tracks(Apply(l, e), src, d + DeliveredBy(e), n)
  {
    ApplyOk(l, e);
    ApplyReassembles(l, e, src);
    ApplyStopsAt(l, e, n);
    ApplyAccounts(l, e, d, n);
  }

  lemma {:induction false} RunTracks(l: Link, es: seq<Event>, src: seq<Octets>, d: set<U32>, n: U32)
    requires Tracks(l, src, d, n) && StreamRun(l, es, src, n)
    ensures Tracks(Final(l, es), src, d + Delivered(es), n)
    ensures Final(l, es).out.stop != UNDEFINED_CHUNK <==> l.out.stop != UNDEFINED_CHUNK || StopSeen(es)
    decreases es
  {
    if es == [] {
      assert d + Delivered(es) == d;
    } else {
      var e, rest, l1 := es[0], es[1..], Apply(l, es[0]);
      ApplyTracks(l, e, src, d, n);
      StopIsSetByStop(l, e, n);
      RunTracks(l1, rest, src, d + DeliveredBy(e), n);
      assert d + DeliveredBy(e) + Delivered(rest) == d + Delivered(es);
    }
  }

  ghost predicate IsLeastMissing(d: set<U32>, m: U32) {
    m !in d && forall i: U32 :: i < m ==> i in d
  }

  lemma FilledUpTo(o: Outgoing, src: seq<Octets>, d: set<U32>, n: U32, m: U32)
    requires ChunksOk(o) && Reassembles(o, src) && StopsAt(o, n) && Accounts(o, d) && IsLeastMissing(d, m)
    ensures Reassembles(Fill(o), src)
    ensures Fill(o).next == if o.stop != UNDEFINED_CHUNK && n < m then n else m
  {
    FillAccounts(o, d);
    if !StopReached(o) {
      DrainReassembles(o, src);
      DrainStopsAt(o, n);
      DrainChunksOk(o);
      DrainFrame(o);
    }
  }

  /** For every interleaving, duplication and order of data deliveries, of a stop index given any number of
      times, and of everything the socket and the timers do: after a final drain the expected index is the
      least index never delivered (or the stop index if that is smaller), and the bytes put out so far
      followed by those still buffered are exactly the chunks below it. */
  lemma ReassemblyIsDeterminedByDeliveries(connected: bool, es: seq<Event>, src: seq<Octets>, n: U32, m: U32)
    requires |src| <= BAD_INDEX && n < UNDEFINED_CHUNK
    requires StreamRun(Run(FRESH_LINK, connected), es, src, n)
    requires IsLeastMissing(Delivered(es), m)
    ensures var f := Fill(Final(Run(FRESH_LINK, connected), es).out);
            && f.next == (if StopSeen(es) && n < m then n else m)
            && f.next <= |src|
            && f.written + f.buffer == Concat(src[..f.next])
  {
    StartOk(connected);
    var l := Run(FRESH_LINK, connected);
    RunTracks(l, es, src, {}, n);
    assert {} + Delivered(es) == Delivered(es);
    FilledUpTo(Final(l, es).out, src, Delivered(es), n, m);
  }

  lemma {:induction false} LeastMissingExists(d: set<U32>, from: U32) returns (m: U32)
    requires from <= BAD_INDEX && (forall i <- d :: i < BAD_INDEX) && (forall i: U32 :: i < from ==> i in d)
    ensures IsLeastMissing(d, m)
    decreases BAD_INDEX - from
  {
    if from in d {
      m := LeastMissingExists(d, from + 1);
    } else {
      m := from;
    }
  }

  lemma {:induction false} DeliveredFromSource(es: seq<Event>, src: seq<Octets>)
    requires forall e <- es :: Consistent(e, src)
    ensures forall i <- Delivered(es) :: i < |src|
  {
    if es != [] {
      assert Consistent(es[0], src);
      DeliveredFromSource(es[1..], src);
    }
  }

  /** Two runs that received the same chunks and the same stop have put out the same bytes. */
  lemma OrderDoesNotMatter(c1: bool, es1: seq<Event>, c2: bool, es2: seq<Event>, src: seq<Octets>, n: U32)
    requires |src| <= BAD_INDEX && n < UNDEFINED_CHUNK
    requires StreamRun(Run(FRESH_LINK, c1), es1, src, n) && StreamRun(Run(FRESH_LINK, c2), es2, src, n)
    requires Delivered(es1) == Delivered(es2) && StopSeen(es1) == StopSeen(es2)
    ensures var f1 := Fill(Final(Run(FRESH_LINK, c1), es1).out);
            var f2 := Fill(Final(Run(FRESH_LINK, c2), es2).out);
            f1.next == f2.next && f1.written + f1.buffer == f2.written + f2.buffer
  {
    DeliveredFromSource(es1, src);
    var m := LeastMissingExists(Delivered(es1), 0);
    ReassemblyIsDeterminedByDeliveries(c1, es1, src, n, m);
    ReassemblyIsDeterminedByDeliveries(c2, es2, src, n, m);
  }
}
