/** Once everything has arrived, writing it out ends after a bounded number of write rounds. */
module Completion {
  import opened Bytes
  import opened Packets
  import opened OutLinkSpec
  import opened OutLinkProofs
  import opened Reassembly

  /** Every chunk of src and the stop index |src| are in, and nothing has been cancelled. */
  ghost predicate Complete(l: Link, src: seq<Octets>) {
    && LinkOk(l) && !l.stopNow
    && Reassembles(l.out, src) && StopsAt(l.out, |src|) && l.out.stop == |src|
    && AllIn(l.out, |src|)
  }

  ghost predicate AllIn(o: Outgoing, n: nat) {
    forall i: U32 :: i < n ==> i < o.next || i in o.chunks
  }

  ghost predicate Finished(l: Link, src: seq<Octets>) {
    LinkOk(l) && l.end.Drained? && l.out.written == Concat(src)
  }

  /** Anything that can happen on a connection without errors: duplicates of data and of the stop, reads,
      successful writes, timers, close checks. */
  predicate Undisturbed(e: Event, src: seq<Octets>) {
    && Consistent(e, src)
    && (e.StopAt? ==> e.n == |src|)
    && (e.ReadCompletes? ==> !e.err)
    && (e.WriteCompletes? ==> !e.err && e.moved > 0)
  }

  function WriteRounds(es: seq<Event>): nat {
    if es == [] then 0 else (if EntersWriter(es[0]) then 1 else 0) + WriteRounds(es[1..])
  }

  /** Bytes of the stream not yet accepted by the socket, and one for a queued wake-up. */
  function Left(l: Link, src: seq<Octets>): int {
    |Concat(src)| - |l.out.written| + (if l.woken > 0 then 1 else 0)
  }

  lemma {:induction false} DrainTakesAll(o: Outgoing, src: seq<Octets>)
    requires ChunksOk(o) && Reassembles(o, src) && AllIn(o, |src|) && o.stop == |src| && !StopReached(o)
    ensures Drain(o).stopAfterAll && Drain(o).next == |src|
    decreases |src| - o.next
  {
    var taken := TakeChunk(o);
    if !StopReached(taken) {
      TakeReassembles(o, src);
      DrainTakesAll(taken, src);
    }
  }

  lemma FillTakesAll(o: Outgoing, src: seq<Octets>)
    requires ChunksOk(o) && Reassembles(o, src) && AllIn(o, |src|) && o.stop == |src| && StopsAt(o, |src|)
    ensures Fill(o).stopAfterAll && Fill(o).next == |src| && Fill(o).written == o.written
    ensures o.written + Fill(o).buffer == Concat(src)
  {
    DrainFrame(o);
    if !StopReached(o) {
      DrainTakesAll(o, src);
      DrainReassembles(o, src);
    }
    assert src[..|src|] == src;
  }

  /** The writer is at work: it is not waiting for the idle timer, and one of its handlers is due. */
  lemma WriterIsBusy(l: Link, src: seq<Octets>)
    requires Complete(l, src) && l.writing
    ensures l.parked == 0 && (l.pendingWrites != [] || l.woken > 0)
    ensures Left(l, src) > 0
  {
    ConcatPrefix(src, l.out.next);
  }

  /** The outgoing half when everything is in. */
  ghost predicate AllHere(o: Outgoing, src: seq<Octets>) {
    ChunksOk(o) && Reassembles(o, src) && AllIn(o, |src|) && StopsAt(o, |src|) && o.stop == |src|
  }

  lemma EntryIsReady(l: Link, e: Event, src: seq<Octets>)
    requires Complete(l, src) && l.writing && Enabled(l, e) && Undisturbed(e, src) && EntersWriter(e)
    ensures var w := WriterEntry(l, e);
            ReadyToWrite(w) && !w.stopNow && AllHere(w.out, src) && |Concat(src)| - |w.out.written| < Left(l, src)
  {
    hide Apply, LinkOk, ReadyToWrite, Reassembles, ChunksOk, StopsAt, Left;
    WriterEntered(l, e);
    EntryKeepsBytes(l, e, src);
    EntryHasAll(l, e, src);
  }

  lemma EntryKeepsBytes(l: Link, e: Event, src: seq<Octets>)
    requires Complete(l, src) && l.writing && Enabled(l, e) && Undisturbed(e, src) && EntersWriter(e)
    ensures |Concat(src)| - |WriterEntry(l, e).out.written| < Left(l, src)
  {
    hide Reassembles, StopsAt, ChunksOk, Concat;
  }

  lemma EntryHasAll(l: Link, e: Event, src: seq<Octets>)
    requires Complete(l, src) && l.writing && Enabled(l, e) && Undisturbed(e, src) && EntersWriter(e)
    ensures !WriterEntry(l, e).stopNow && AllHere(WriterEntry(l, e).out, src)
  {
    var w := WriterEntry(l, e);
    hide Concat, Apply;
    assert w.out.written + w.out.buffer == l.out.written + l.out.buffer;
  }

  lemma RoundOutcome(w: Link, src: seq<Octets>)
    requires ReadyToWrite(w) && !w.stopNow && AllHere(w.out, src)
    ensures var m := RequestWrite(w);
            && m.out == Fill(w.out) && m.out.written == w.out.written
            && (m.end.Drained? ==> m.out.written == Concat(src))
            && (!m.end.Drained? ==> m.writing && !m.stopNow && m.woken == 0)
  {
    FillTakesAll(w.out, src);
    hide Fill;
    assert w.out.written + [] == w.out.written;
  }

  lemma FilledIsHere(o: Outgoing, src: seq<Octets>)
    requires AllHere(o, src)
    ensures AllHere(Fill(o), src)
  {
    FillOk(o);
    FillTakesAll(o, src);
    if !StopReached(o) {
      DrainReassembles(o, src);
      DrainStopsAt(o, |src|);
    }
  }

  lemma WriteRoundProgress(l: Link, e: Event, src: seq<Octets>)
    requires Complete(l, src) && l.writing && Enabled(l, e) && Undisturbed(e, src) && EntersWriter(e)
    ensures var m := Apply(l, e);
            Finished(m, src) || (Complete(m, src) && m.writing && Left(m, src) < Left(l, src))
  {
    var w := WriterEntry(l, e);
    WriterEntered(l, e);
    EntryIsReady(l, e, src);
    ApplyOk(l, e);
    hide LinkOk, Apply, RequestWrite, Fill, WriterEntry, ReadyToWrite;
    RoundOutcome(w, src);
    FilledIsHere(w.out, src);
  }

  lemma OtherEventProgress(l: Link, e: Event, src: seq<Octets>)
    requires Complete(l, src) && l.writing && Enabled(l, e) && Undisturbed(e, src) && !EntersWriter(e)
    ensures var m := Apply(l, e);
            Complete(m, src) && m.writing && Left(m, src) <= Left(l, src)
  {
    ApplyOk(l, e);
    ApplyReassembles(l, e, src);
    ApplyStopsAt(l, e, |src|);
    WriterIsBusy(l, src);
    OutEffect(l, e);
  }

  lemma FinishedStays(l: Link, e: Event, src: seq<Octets>)
    requires Finished(l, src) && Enabled(l, e)
    ensures Finished(Apply(l, e), src)
  {
    ApplyOk(l, e);
    OutEffect(l, e);
  }

  lemma {:induction false} RunProgress(l: Link, es: seq<Event>, src: seq<Octets>)
    requires Finished(l, src) || (Complete(l, src) && l.writing)
    requires Possible(l, es) && forall e <- es :: Undisturbed(e, src)
    ensures var m := Final(l, es);
            || Finished(m, src)
            || (Complete(m, src) && m.writing && !Finished(l, src) && Left(m, src) + WriteRounds(es) <= Left(l, src))
    decreases es
  {
    if es != [] {
      if Finished(l, src) {
        FinishedStays(l, es[0], src);
      } else if EntersWriter(es[0]) {
        WriteRoundProgress(l, es[0], src);
      } else {
        OtherEventProgress(l, es[0], src);
      }
      RunProgress(Apply(l, es[0]), es[1..], src);
    }
  }

  /** A connection that has received all chunks of src and the stop index |src| in any order is never again
      parked on the idle timer, always has a writer handler due until it ends, and after at most one round
      per missing byte (and one for a queued wake-up) has written the whole stream and ended by itself. */
  lemma ReceivedStreamIsWrittenOut(connected: bool, es1: seq<Event>, es2: seq<Event>, src: seq<Octets>)
    requires |src| <= BAD_INDEX
    requires StreamRun(Run(FRESH_LINK, connected), es1, src, |src|)
    requires StopSeen(es1) && (forall i: U32 :: i < |src| ==> i in Delivered(es1))
    requires var l := Final(Run(FRESH_LINK, connected), es1); l.writing && !l.stopNow && Possible(l, es2)
    requires forall e <- es2 :: Undisturbed(e, src)
    ensures var l := Final(Run(FRESH_LINK, connected), es1);
            var m := Final(l, es2);
            && (m.writing ==> m.parked == 0 && (m.pendingWrites != [] || m.woken > 0))
            && (m.writing ==> WriteRounds(es2) < Left(l, src))
            && (!m.writing ==> m.end.Drained? && m.out.written == Concat(src))
  {
    StartOk(connected);
    var l := Final(Run(FRESH_LINK, connected), es1);
    RunTracks(Run(FRESH_LINK, connected), es1, src, {}, |src|);
    assert Complete(l, src);
    RunProgress(l, es2, src);
    var m := Final(l, es2);
    if Complete(m, src) && m.writing {
      WriterIsBusy(m, src);
    }
  }
}
