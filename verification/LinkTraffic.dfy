/** What a link exchanges with its socket and with the trunk, told by its events alone. */
module LinkTraffic {
  import opened Bytes
  import opened OutLinkSpec
  import opened OutLinkProofs
  import opened Reassembly
  import opened EndToEnd

  // ----- Bytes out

  /** What the socket takes in an event: the first bytes of the outstanding write, as many as it reports. */
  function Taken(l: Link, e: Event): Octets
    requires Enabled(l, e)
  {
    if e.WriteCompletes? then l.pendingWrites[0][..e.moved] else []
  }

  /** The record of written bytes is what the socket takes, and what it has not taken of a write stays at the front
      of the network buffer. */
  lemma WrittenIsTaken(l: Link, e: Event)
    requires LinkOk(l) && Enabled(l, e)
    ensures Apply(l, e).out.written == l.out.written + Taken(l, e)
    ensures e.WriteCompletes? ==> l.pendingWrites[0][e.moved..] <= Apply(l, e).out.buffer
    ensures l.out.buffer == Taken(l, e) + l.out.buffer[|Taken(l, e)|..]
  {
    OutEffect(l, e);
    if EntersWriter(e) {
      FillOk(WriterEntry(l, e).out);
    }
  }

  function SocketTook(l: Link, es: seq<Event>): Octets
    requires Possible(l, es)
    decreases es
  {
    if es == [] then [] else Taken(l, es[0]) + SocketTook(Apply(l, es[0]), es[1..])
  }

  lemma {:induction false} WrittenIsWhatSocketTook(l: Link, es: seq<Event>)
    requires LinkOk(l) && Possible(l, es)
    ensures Final(l, es).out.written == l.out.written + SocketTook(l, es)
    decreases es
  {
    if es != [] {
      hide LinkOk, Apply, Enabled, Taken;
      WrittenIsTaken(l, es[0]);
      ApplyOk(l, es[0]);
      WrittenIsWhatSocketTook(Apply(l, es[0]), es[1..]);
    }
  }

  lemma {:induction false} DrainOnlyTakes(o: Outgoing)
    ensures forall k <- Drain(o).chunks :: k in o.chunks && Drain(o).chunks[k] == o.chunks[k]
    decreases o.chunks.Keys
  {
    if o.next in o.chunks && !StopReached(TakeChunk(o)) {
      DrainOnlyTakes(TakeChunk(o));
    }
  }

  /** A chunk that waits for its predecessors stays as it first came until it is put out or dropped. */
  lemma FirstCopyCounts(l: Link, e: Event, k: U32)
    requires LinkOk(l) && Enabled(l, e) && k in l.out.chunks && k in Apply(l, e).out.chunks
    ensures Apply(l, e).out.chunks[k] == l.out.chunks[k]
  {
    OutEffect(l, e);
    if EntersWriter(e) {
      DrainOnlyTakes(WriterEntry(l, e).out);
    }
  }

  // ----- Bytes in

  /** The calls an event makes on the trunk: what was read goes there, failed or not; a close check closes when both
      loops are off, once. */
  function CallsOf(l: Link, e: Event): seq<HosterCall> {
    match e
    case ReadCompletes(_, bytes) => if bytes == [] then [] else [ReadData(bytes)]
    case CloseCheck => if l.reading || l.writing || l.closeInvoked then [] else [Close]
    case _ => []
  }

  lemma WriterCallsNobody(l: Link, e: Event)
    requires LinkOk(l) && Enabled(l, e) && EntersWriter(e)
    ensures Apply(l, e).calls == l.calls && CallsOf(l, e) == []
  {
    WriterEntered(l, e);
    hide RequestWrite, LinkOk, Apply;
    RequestWriteCallsNobody(WriterEntry(l, e));
  }

  lemma ArrivalsCallNobody(l: Link, e: Event)
    ensures match e {
              case Arrive(id, data) => SendData(l, id, data).calls == l.calls
              case StopAt(n) => Stop(l, n).calls == l.calls
              case _ => true
            }
  {
  }

  lemma CallsAreMade(l: Link, e: Event)
    requires LinkOk(l) && Enabled(l, e)
    ensures Apply(l, e).calls == l.calls + CallsOf(l, e)
  {
    if EntersWriter(e) {
      WriterCallsNobody(l, e);
      hide LinkOk, Apply, Enabled;
    } else {
      hide RequestWrite, SendData, Stop;
      ArrivalsCallNobody(l, e);
    }
  }

  /** What a read brings, unless it is nothing. */
  function ReadIn(e: Event): seq<Octets> {
    if e.ReadCompletes? && e.bytes != [] then [e.bytes] else []
  }

  function ReadFrom(es: seq<Event>): seq<Octets> {
    if es == [] then [] else ReadIn(es[0]) + ReadFrom(es[1..])
  }

  lemma ChunksOfCalls(calls: seq<HosterCall>, more: seq<HosterCall>)
    requires |more| <= 1
    ensures Chunks(calls + more) == Chunks(calls) + if more != [] && more[0].ReadData? then [more[0].data] else []
  {
    if more == [] {
      assert calls + more == calls;
    } else {
      assert (calls + more)[..|calls|] == calls;
    }
  }

  lemma ChunkIsRead(l: Link, e: Event)
    requires LinkOk(l) && Enabled(l, e)
    ensures Chunks(Apply(l, e).calls) == Chunks(l.calls) + ReadIn(e)
  {
    hide LinkOk, Apply, Enabled, Chunks;
    CallsAreMade(l, e);
    ChunksOfCalls(l.calls, CallsOf(l, e));
  }

  lemma {:induction false} ChunksAreRead(l: Link, es: seq<Event>)
    requires LinkOk(l) && Possible(l, es)
    ensures Chunks(Final(l, es).calls) == Chunks(l.calls) + ReadFrom(es)
    decreases es
  {
    hide LinkOk, Apply, Enabled, Chunks, ReadIn;
    if es == [] {
      assert Chunks(l.calls) + [] == Chunks(l.calls);
    } else {
      var m := Apply(l, es[0]);
      ChunkIsRead(l, es[0]);
      ApplyOk(l, es[0]);
      ChunksAreRead(m, es[1..]);
      hide Possible, Final, ReadFrom;
      Reassociate(Chunks(l.calls), ReadIn(es[0]), ReadFrom(es[1..]));
    }
  }

  lemma Reassociate<T>(a: seq<T>, b: seq<T>, c: seq<T>)
    ensures a + b + c == a + (b + c)
  {
  }

  /** Over every run from its creation, what a link has handed to the trunk is exactly what its socket brought, and
      what it has put out is exactly what its socket took. */
  lemma TrafficOfNewLink(connected: bool, es: seq<Event>)
    requires Possible(Run(FRESH_LINK, connected), es)
    ensures var l := Run(FRESH_LINK, connected);
            Chunks(Final(l, es).calls) == ReadFrom(es) && Final(l, es).out.written == SocketTook(l, es)
  {
    var l := Run(FRESH_LINK, connected);
    StartOk(connected);
    ChunksAreRead(l, es);
    WrittenIsWhatSocketTook(l, es);
    assert [] + SocketTook(l, es) == SocketTook(l, es);
  }

  // ----- The two loops

  /** Reading goes on from the start of the loops until a read fails, with one read outstanding all the time. */
  lemma ReadingGoesOn(l: Link, e: Event)
    requires LinkOk(l) && Enabled(l, e)
    ensures var m := Apply(l, e);
            && (m.reading <==> (e.ConnectCompletes? && !e.err) || (l.reading && !(e.ReadCompletes? && e.err)))
            && m.pendingReads == if m.reading then 1 else 0
  {
    ApplyOk(l, e);
    if EntersWriter(e) {
      WriterEntered(l, e);
    }
  }

  predicate WriteFails(e: Event) {
    e.WriteCompletes? && (e.err || e.moved == 0)
  }

  /** Writing goes on from the start of the loops until a write fails, or until the write loop is entered after a
      cancellation or with nothing left before the end of the stream. */
  lemma WritingGoesOn(l: Link, e: Event)
    requires LinkOk(l) && Enabled(l, e)
    ensures var m := Apply(l, e);
            var done := l.stopNow || (m.out.buffer == [] && m.out.stopAfterAll);
            m.writing <==> (l.writing || Connects(e)) && !WriteFails(e) && !(EntersWriter(e) && done)
  {
    if EntersWriter(e) {
      WriterEntered(l, e);
      hide Fill;
    }
  }

  /** A write loop that ends otherwise than by a failed write cancels the link. */
  lemma WriterEndCancels(l: Link, e: Event)
    requires LinkOk(l) && Enabled(l, e) && l.writing && !Apply(l, e).writing && !WriteFails(e)
    ensures Apply(l, e).stopNow
  {
    if EntersWriter(e) {
      WriterEntered(l, e);
      hide Fill;
    }
  }

  /** Whatever the library reports: a write with an error, with nothing written or with more than there was ends the
      write loop, asks for a close check, and counts as nothing taken. */
  lemma BadWriteEndsLoop(l: Link, err: bool, moved: nat)
    requires LinkOk(l) && l.pendingWrites != [] && (err || moved == 0 || moved > |l.out.buffer|)
    ensures var m := WriteDone(l, err, moved);
            !m.writing && m.out == l.out && m.pendingChecks > 0 && m.reading == l.reading && m.calls == l.calls
  {
  }

  /** A link on a connected socket starts with both loops on. */
  lemma ConnectedLinkRuns()
    ensures var l := Run(FRESH_LINK, true);
            l.dial.Settled? && l.reading && l.pendingReads == 1 && l.writing && l.parked == 1
  {
  }

  // ----- Closing

  /** A loop is on, or the close check is due, or the link has closed. */
  predicate WillClose(l: Link) {
    l.reading || l.writing || l.pendingChecks > 0 || l.closeInvoked
  }

  lemma WillCloseStays(l: Link, e: Event)
    requires LinkOk(l) && Enabled(l, e) && WillClose(l)
    ensures WillClose(Apply(l, e))
  {
    if EntersWriter(e) {
      WriterEntered(l, e);
      hide Fill;
    }
  }

  lemma {:induction false} WillCloseAlways(l: Link, es: seq<Event>)
    requires LinkOk(l) && Possible(l, es) && WillClose(l)
    ensures WillClose(Final(l, es))
    decreases es
  {
    if es != [] {
      hide LinkOk, Apply, Enabled, WillClose;
      WillCloseStays(l, es[0]);
      ApplyOk(l, es[0]);
      WillCloseAlways(Apply(l, es[0]), es[1..]);
    }
  }

  predicate Connects(e: Event) {
    e.ConnectCompletes? && !e.err
  }

  lemma {:induction false} ConnectingWillClose(l: Link, es: seq<Event>)
    requires LinkOk(l) && Possible(l, es) && exists e <- es :: Connects(e)
    ensures WillClose(Final(l, es))
    decreases es
  {
    var e, rest := es[0], es[1..];
    assert es == [e] + rest;
    ApplyOk(l, e);
    if Connects(e) {
      ReadingGoesOn(l, e);
      hide LinkOk, Apply, Enabled;
      WillCloseAlways(Apply(l, e), rest);
    } else {
      hide LinkOk, Apply, Enabled;
      assert exists f <- rest :: Connects(f);
      ConnectingWillClose(Apply(l, e), rest);
    }
  }

  /** On every run on which the loops were started: once both are off, the link has closed, or the close check is
      due. */
  lemma StartedLinkCloses(connected: bool, es: seq<Event>)
    requires Possible(Run(FRESH_LINK, connected), es) && (connected || exists e <- es :: Connects(e))
    ensures var l := Final(Run(FRESH_LINK, connected), es);
            !l.reading && !l.writing ==>
              Close in l.calls || (Enabled(l, CloseCheck) && Apply(l, CloseCheck).calls == l.calls + [Close])
  {
    StartOk(connected);
    hide Run, LinkOk, Apply, Enabled, WillClose;
    RunOk(Run(FRESH_LINK, connected), es);
    if connected {
      ConnectedWillClose();
      WillCloseAlways(Run(FRESH_LINK, true), es);
    } else {
      ConnectingWillClose(Run(FRESH_LINK, false), es);
    }
    var l := Final(Run(FRESH_LINK, connected), es);
    if !l.reading && !l.writing {
      ClosedOrDue(l);
    }
  }

  lemma ConnectedWillClose()
    ensures WillClose(Run(FRESH_LINK, true))
  {
  }

  lemma ClosedOrDue(l: Link)
    requires LinkOk(l) && WillClose(l) && !l.reading && !l.writing
    ensures Close in l.calls || (Enabled(l, CloseCheck) && Apply(l, CloseCheck).calls == l.calls + [Close])
  {
    if l.closeInvoked {
      assert l.calls[|l.calls| - 1] == Close;
    } else {
      CallsAreMade(l, CloseCheck);
    }
  }

  /** A read error cancels the link for good, and wakes its writer. */
  lemma ReadErrorCancels(l: Link, bytes: Octets)
    requires LinkOk(l) && Enabled(l, ReadCompletes(true, bytes))
    ensures Apply(l, ReadCompletes(true, bytes)).stopNow
  {
  }

  lemma CancelledForGood(l: Link, e: Event)
    requires LinkOk(l) && Enabled(l, e) && l.stopNow
    ensures Apply(l, e).stopNow
  {
    if EntersWriter(e) {
      WriterEntered(l, e);
    }
  }

  /** A cancelled link is on its way to close: a writer that is still on has a handler due, whatever that brings ends
      the write loop; a read that fails ends the read loop; then the close check is due. */
  lemma CancelledLinkEnds(l: Link, e: Event)
    requires LinkOk(l) && Enabled(l, e) && l.stopNow
    ensures l.writing ==> l.parked == 0 && (l.pendingWrites != [] || l.woken > 0)
    ensures e.WriteCompletes? || e.IdleHandler? ==> !Apply(l, e).writing
    ensures e.ReadCompletes? && e.err ==> !Apply(l, e).reading
    ensures !l.reading && !l.writing && WillClose(l) && !l.closeInvoked ==> Enabled(l, CloseCheck)
  {
    WritingGoesOn(l, e);
    ReadingGoesOn(l, e);
  }

  // ----- Dialling

  /** How many endpoints resolving brought, if it has succeeded. */
  function Points(es: seq<Event>): Option<nat> {
    if es == [] then None
    else if es[0].ResolveCompletes? && !es[0].err then Some(es[0].points) else Points(es[1..])
  }

  function Refusals(es: seq<Event>): nat {
    if es == [] then 0 else (if es[0].ConnectCompletes? && es[0].err then 1 else 0) + Refusals(es[1..])
  }

  predicate SomeResolveFails(es: seq<Event>) {
    exists e <- es :: e.ResolveCompletes? && e.err
  }

  predicate SomeConnects(es: seq<Event>) {
    exists e <- es :: Connects(e)
  }

  /** Every event moves dialling as the endpoints demand: the next endpoint is dialled until one accepts or none is
      left. */
  lemma DialStep(l: Link, e: Event)
    requires LinkOk(l) && Enabled(l, e)
    ensures var d := Apply(l, e).dial;
            match e {
              case ResolveCompletes(err, n) => d == if err || n == 0 then Settled else Connecting(n)
              case ConnectCompletes(err) =>
                d == if !err || l.dial.points == 1 then Settled else Connecting(l.dial.points - 1)
              case _ => d == l.dial
            }
  {
    if EntersWriter(e) {
      WriterEntered(l, e);
      hide Fill;
    }
  }

  lemma {:induction false} DialFrom(l: Link, es: seq<Event>)
    requires LinkOk(l) && Possible(l, es) && l.dial.Connecting?
    ensures Points(es) == None && !SomeResolveFails(es)
    ensures var m := Final(l, es);
            && Refusals(es) <= l.dial.points
            && (m.dial.Settled? <==> SomeConnects(es) || Refusals(es) == l.dial.points)
            && (!m.dial.Settled? ==> m.dial == Connecting(l.dial.points - Refusals(es)))
    decreases es
  {
    if es != [] {
      var e, rest := es[0], es[1..];
      assert es == [e] + rest;
      DialStep(l, e);
      ApplyOk(l, e);
      if Apply(l, e).dial.Connecting? {
        DialFrom(Apply(l, e), rest);
      } else {
        SettledForGood(Apply(l, e), rest);
      }
      assert SomeConnects(es) <==> Connects(e) || SomeConnects(rest);
    }
  }

  lemma {:induction false} SettledForGood(l: Link, es: seq<Event>)
    requires LinkOk(l) && Possible(l, es) && l.dial.Settled?
    ensures Final(l, es).dial.Settled? && Refusals(es) == 0 && Points(es) == None
    ensures !SomeConnects(es) && !SomeResolveFails(es)
    decreases es
  {
    if es != [] {
      var e, rest := es[0], es[1..];
      assert es == [e] + rest;
      DialStep(l, e);
      ApplyOk(l, e);
      SettledForGood(Apply(l, e), rest);
    }
  }

  /** On every run of a link that dials, whatever else happens meanwhile: after resolving to n endpoints and j refusals,
      j < n, the next endpoint is being dialled and n - j are left; dialling is over if and only if resolving has
      failed, an endpoint has accepted, or all n have refused. */
  lemma {:induction false} DiallingTriesEveryPoint(l: Link, es: seq<Event>)
    requires LinkOk(l) && Possible(l, es) && l.dial.Resolving?
    ensures var m, n, j := Final(l, es), Points(es), Refusals(es);
            && (m.dial.Settled? <==> SomeResolveFails(es) || (n.Some? && (SomeConnects(es) || j == n.value)))
            && (!m.dial.Settled? ==>
                  if n.None? then m.dial == Resolving else j < n.value && m.dial == Connecting(n.value - j))
    decreases es
  {
    if es != [] {
      var e, rest := es[0], es[1..];
      assert es == [e] + rest;
      DialStep(l, e);
      ApplyOk(l, e);
      var m := Apply(l, e);
      hide LinkOk, Apply, Enabled, Possible;
      if m.dial.Resolving? {
        DiallingTriesEveryPoint(m, rest);
      } else if m.dial.Connecting? {
        DialFrom(m, rest);
      } else {
        SettledForGood(m, rest);
      }
      assert SomeConnects(es) <==> Connects(e) || SomeConnects(rest);
      assert SomeResolveFails(es) <==> (e.ResolveCompletes? && e.err) || SomeResolveFails(rest);
    }
  }
}
