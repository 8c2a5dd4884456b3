/** What every link keeps, whatever arrives from the trunk and in whatever order its operations complete. */
module OutLinkProofs {
  import opened Bytes
  import opened OutLinkSpec

  /** Stored chunks are still wanted, and none is at or past the stop index. */
  ghost predicate ChunksOk(o: Outgoing) {
    && (forall k <- o.chunks :: o.next <= k)
    && (o.stop != UNDEFINED_CHUNK ==> forall k <- o.chunks :: k < o.stop)
    && (StopReached(o) ==> o.stopAfterAll)
  }

  /** Exactly one outstanding operation for a running loop and none for a loop that is not running;
      a socket write in progress is on the whole network buffer. */
  ghost predicate LoopsOk(l: Link) {
    && l.pendingReads == (if l.reading then 1 else 0)
    && |l.pendingWrites| + l.parked + l.woken == (if l.writing then 1 else 0)
    && (l.pendingWrites != [] ==> l.pendingWrites[0] == l.out.buffer && l.out.buffer != [])
  }

  /** An armed idle wait means that there is nothing the writer could do. */
  ghost predicate NoLostWakeup(l: Link) {
    l.parked > 0 ==> l.out.buffer == [] && l.out.next !in l.out.chunks && !l.out.stopAfterAll && !l.stopNow
  }

  /** Close is called once, last, and after both loops have ended for good. */
  ghost predicate ClosingOk(l: Link) {
    && (l.closeInvoked ==> !l.reading && !l.writing && l.dial.Settled?)
    && (l.closeInvoked <==> l.calls != [] && l.calls[|l.calls| - 1].Close?)
    && (forall i | 0 <= i < |l.calls| - 1 :: l.calls[i].ReadData?)
    && (forall i | 0 <= i < |l.calls| && l.calls[i].ReadData? :: 0 < |l.calls[i].data| <= CHUNK_SIZE)
  }

  ghost predicate PhaseOk(l: Link) {
    && (!l.dial.Settled? ==> !l.reading && !l.writing && l.pendingChecks == 0 && l.calls == [] && l.end.Open?)
    && (l.dial.Connecting? ==> l.dial.points > 0)
    && (!l.end.Open? ==> !l.writing)
    && (l.end.Drained? ==> l.out.buffer == [] && l.out.stopAfterAll)
  }

  ghost predicate LinkOk(l: Link) {
    ChunksOk(l.out) && LoopsOk(l) && NoLostWakeup(l) && ClosingOk(l) && PhaseOk(l)
  }

  // ----- Draining

  lemma {:induction false} DrainChunksOk(o: Outgoing)
    requires ChunksOk(o)
    ensures ChunksOk(Drain(o))
    ensures !StopReached(o) && !Drain(o).stopAfterAll ==> Drain(o).next !in Drain(o).chunks
    decreases o.chunks.Keys
  {
    if o.next in o.chunks && !StopReached(TakeChunk(o)) {
      DrainChunksOk(TakeChunk(o));
    }
  }

  lemma {:induction false} DrainFrame(o: Outgoing)
    ensures Drain(o).stop == o.stop && Drain(o).written == o.written
    ensures o.buffer <= Drain(o).buffer
    ensures o.stopAfterAll ==> Drain(o).stopAfterAll
    decreases o.chunks.Keys
  {
    if o.next in o.chunks && !StopReached(TakeChunk(o)) {
      DrainFrame(TakeChunk(o));
    }
  }

  lemma FillOk(o: Outgoing)
    requires ChunksOk(o)
    ensures ChunksOk(Fill(o))
    ensures !Fill(o).stopAfterAll ==> Fill(o).next !in Fill(o).chunks
    ensures Fill(o).stop == o.stop && Fill(o).written == o.written && o.buffer <= Fill(o).buffer
  {
    DrainChunksOk(o);
    DrainFrame(o);
  }

  // ----- Events that enter the write loop

  predicate EntersWriter(e: Event) {
    match e
    case WriteCompletes(err, n) => !err && n > 0
    case IdleHandler => true
    case ConnectCompletes(err) => !err
    case _ => false
  }

  /** The state in which RequestWrite is called: the write loop is on and has no operation of its own. */
  ghost predicate ReadyToWrite(l: Link) {
    && ChunksOk(l.out) && ClosingOk(l) && PhaseOk(l)
    && l.pendingReads == (if l.reading then 1 else 0)
    && l.writing && l.dial.Settled?
    && l.pendingWrites == [] && l.parked == 0 && l.woken == 0
  }

  lemma RequestWriteOk(l: Link)
    requires ReadyToWrite(l)
    ensures LinkOk(RequestWrite(l))
  {
    FillOk(l.out);
  }

  function WriterEntry(l: Link, e: Event): Link
    requires LinkOk(l) && Enabled(l, e) && EntersWriter(e)
  {
    match e
    case WriteCompletes(_, n) => WriteSucceeded(l, n)
    case IdleHandler => l.(woken := l.woken - 1)
    case ConnectCompletes(_) => RequestRead(l.(dial := Settled, reading := true)).(writing := true)
  }

  lemma WriterEntered(l: Link, e: Event)
    requires LinkOk(l) && Enabled(l, e) && EntersWriter(e)
    ensures Apply(l, e) == RequestWrite(WriterEntry(l, e))
    ensures ReadyToWrite(WriterEntry(l, e))
  {
  }

  // ----- Every event keeps the invariant

  lemma ReadCompletesOk(l: Link, err: bool, bytes: Octets)
    requires LinkOk(l) && Enabled(l, ReadCompletes(err, bytes))
    ensures LinkOk(ReadDone(l, err, bytes))
  {
  }

  lemma WriteFailsOk(l: Link, err: bool, n: nat)
    requires LinkOk(l) && l.pendingWrites != [] && (err || n == 0 || n > |l.out.buffer|)
    ensures LinkOk(WriteDone(l, err, n))
  {
  }

  /** Whatever the library reports of a write. */
  lemma WriteDoneOk(l: Link, err: bool, n: nat)
    requires LinkOk(l) && l.pendingWrites != []
    ensures LinkOk(WriteDone(l, err, n))
  {
    if err || n == 0 || n > |l.out.buffer| {
      WriteFailsOk(l, err, n);
    } else {
      WriterEntered(l, WriteCompletes(err, n));
      RequestWriteOk(WriterEntry(l, WriteCompletes(err, n)));
    }
  }

  lemma CheckCloseOk(l: Link)
    requires LinkOk(l) && l.pendingChecks > 0
    ensures LinkOk(CheckClose(l))
  {
  }

  lemma StoreOk(o: Outgoing, id: U32, data: Octets)
    requires ChunksOk(o)
    ensures ChunksOk(Store(o, id, data))
  {
  }

  lemma SendDataOk(l: Link, id: U32, data: Octets)
    requires LinkOk(l)
    ensures LinkOk(SendData(l, id, data))
  {
    hide ChunksOk;
    StoreOk(l.out, id, data);
  }

  lemma StopOk(l: Link, n: U32)
    requires LinkOk(l)
    ensures LinkOk(Stop(l, n))
  {
  }

  lemma ApplyOk(l: Link, e: Event)
    requires LinkOk(l) && Enabled(l, e)
    ensures LinkOk(Apply(l, e))
  {
    if EntersWriter(e) {
      WriterEntered(l, e);
      RequestWriteOk(WriterEntry(l, e));
    } else {
      match e
      case Arrive(id, data) => SendDataOk(l, id, data);
      case StopAt(n) => StopOk(l, n);
      case ReadCompletes(err, bytes) => ReadCompletesOk(l, err, bytes);
      case WriteCompletes(err, n) => WriteFailsOk(l, err, n);
      case CloseCheck => CheckCloseOk(l);
      case _ =>
    }
  }

  lemma RunStartsOk(l: Link, connected: bool)
    requires LinkOk(l) && l.dial.NotRun?
    ensures LinkOk(Run(l, connected))
  {
    if connected {
      RequestWriteOk(RequestRead(l.(dial := Settled, reading := true)).(writing := true));
    }
  }

  lemma StartOk(connected: bool)
    ensures LinkOk(Run(FRESH_LINK, connected))
    ensures Run(FRESH_LINK, connected).out == NOTHING_OUT && Run(FRESH_LINK, connected).calls == []
  {
    RunStartsOk(FRESH_LINK, connected);
  }

  // ----- What an event does to the record of calls

  lemma RequestWriteCallsNobody(l: Link)
    ensures RequestWrite(l).calls == l.calls && RequestWrite(l).closeInvoked == l.closeInvoked
  {
    hide Fill;
  }

  /** An event adds at most one call, before the link has closed. */
  lemma CallEffect(l: Link, e: Event)
    requires LinkOk(l) && Enabled(l, e)
    ensures var m := Apply(l, e);
            || (m.calls == l.calls && m.closeInvoked == l.closeInvoked)
            || (!l.closeInvoked && e.ReadCompletes? && m.calls == l.calls + [ReadData(e.bytes)] && !m.closeInvoked)
            || (!l.closeInvoked && e.CloseCheck? && m.calls == l.calls + [Close] && m.closeInvoked)
  {
    if EntersWriter(e) {
      WriterEntered(l, e);
      hide RequestWrite, Apply, LinkOk;
      RequestWriteCallsNobody(WriterEntry(l, e));
    } else {
      hide LinkOk;
    }
  }

  // ----- What an event does to the outgoing half

  function OutAfter(l: Link, e: Event): Outgoing
    requires LinkOk(l) && Enabled(l, e)
  {
    match e
    case Arrive(id, data) => Store(l.out, id, data)
    case StopAt(n) => SetStop(l.out, n)
    case _ =>
      if EntersWriter(e) && !l.stopNow then Fill(WriterEntry(l, e).out)
      else if EntersWriter(e) then WriterEntry(l, e).out
      else l.out
  }

  lemma OutEffect(l: Link, e: Event)
    requires LinkOk(l) && Enabled(l, e)
    ensures Apply(l, e).out == OutAfter(l, e)
  {
    if EntersWriter(e) {
      WriterEntered(l, e);
    }
  }
}
