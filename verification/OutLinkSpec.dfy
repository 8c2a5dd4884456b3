/** One external TCP connection as a value, and what each of its handlers does to it.
    The library objects behind it appear only as counters of outstanding operations. */
module OutLinkSpec {
  import opened Bytes

  /** Also the value of an unset stop index. */
  const UNDEFINED_CHUNK: U32 := 0xFFFF_FFFF

  const CHUNK_SIZE := 800

  // ----- The outgoing half: chunks from the trunk on their way to the socket

  datatype Outgoing = Outgoing(
    chunks: map<U32, Octets>,
    buffer: Octets,
    next: U32,
    stop: U32,
    stopAfterAll: bool,
    written: Octets)  // what the socket has accepted so far

  const NOTHING_OUT := Outgoing(map[], [], 0, UNDEFINED_CHUNK, false, [])

  predicate StopReached(o: Outgoing) {
    o.stop != UNDEFINED_CHUNK && o.stop <= o.next
  }

  function CloseInput(o: Outgoing): Outgoing {
    o.(stopAfterAll := true, chunks := map[])
  }

  function TakeChunk(o: Outgoing): (r: Outgoing)
    requires o.next in o.chunks
    ensures r.chunks.Keys == o.chunks.Keys - {o.next}
  {
    o.(next := Inc(o.next), buffer := o.buffer + o.chunks[o.next], chunks := o.chunks - {o.next})
  }

  function Drain(o: Outgoing): Outgoing
    decreases o.chunks.Keys
  {
    if o.next !in o.chunks then o
    else
      var taken := TakeChunk(o);
      if StopReached(taken) then CloseInput(taken) else Drain(taken)
  }

  function Fill(o: Outgoing): Outgoing {
    if StopReached(o) then CloseInput(o) else Drain(o)
  }

  predicate Accepts(o: Outgoing, id: U32) {
    o.next <= id && !(o.stop != UNDEFINED_CHUNK && o.stop <= id) && id !in o.chunks
  }

  function Store(o: Outgoing, id: U32, data: Octets): Outgoing {
    if Accepts(o, id) then o.(chunks := o.chunks[id := data]) else o
  }

  function ChunksBelow(chunks: map<U32, Octets>, n: U32): map<U32, Octets> {
    map k | k in chunks && k < n :: chunks[k]
  }

  function SetStop(o: Outgoing, n: U32): Outgoing {
    if n <= o.next then CloseInput(o.(stop := o.next))
    else o.(stop := n, chunks := ChunksBelow(o.chunks, n))
  }

  function Wrote(o: Outgoing, n: nat): Outgoing
    requires n <= |o.buffer|
  {
    o.(written := o.written + o.buffer[..n], buffer := o.buffer[n..])
  }

  // ----- The link

  /** Calls the link makes on the trunk that hosts it. */
  datatype HosterCall = ReadData(data: Octets) | Close

  /** Resolving and connecting, before the two loops start. Endpoints left to try are only counted. */
  datatype Dial = NotRun | Resolving | Connecting(points: nat) | Settled

  /** How the write loop ended: after writing everything up to the stop index, by cancellation, by a write error. */
  datatype WriterEnd = Open | Drained | Cancelled | Failed

  datatype Link = Link(
    out: Outgoing,
    stopNow: bool,
    reading: bool,
    writing: bool,
    closeInvoked: bool,
    // outstanding asynchronous operations: resolve or connect, socket reads, socket writes (with the bytes
    // they were started on), armed idle waits, idle waits whose handler is queued, posted close checks
    dial: Dial,
    pendingReads: nat,
    pendingWrites: seq<Octets>,
    parked: nat,
    woken: nat,
    pendingChecks: nat,
    // what the outside has seen: calls made on the trunk, and how the write loop ended
    calls: seq<HosterCall>,
    end: WriterEnd)

  const FRESH_LINK := Link(NOTHING_OUT, false, false, false, false, NotRun, 0, [], 0, 0, 0, [], Open)

  function Wake(l: Link): Link {
    l.(woken := l.woken + l.parked, parked := 0)
  }

  function Park(l: Link): Link {
    Wake(l).(parked := 1)
  }

  function CancelReadWrite(l: Link): Link {
    Wake(l.(stopNow := true))
  }

  function EndWriter(l: Link, how: WriterEnd): Link {
    CancelReadWrite(l).(writing := false, pendingChecks := l.pendingChecks + 1, end := how)
  }

  function RequestWrite(l: Link): Link {
    if l.stopNow then EndWriter(l, Cancelled)
    else
      var f := l.(out := Fill(l.out));
      if f.out.buffer != [] then f.(pendingWrites := f.pendingWrites + [f.out.buffer])
      else if f.out.stopAfterAll then EndWriter(f, Drained)
      else Park(f)
  }

  function WriteFailed(l: Link): Link
    requires l.pendingWrites != []
  {
    l.(pendingWrites := l.pendingWrites[1..], writing := false, pendingChecks := l.pendingChecks + 1, end := Failed)
  }

  function WriteSucceeded(l: Link, n: nat): Link
    requires l.pendingWrites != [] && n <= |l.out.buffer|
  {
    l.(pendingWrites := l.pendingWrites[1..], out := Wrote(l.out, n))
  }

  /** Completion of the oldest outstanding socket write. */
  function WriteDone(l: Link, err: bool, n: nat): Link
    requires l.pendingWrites != []
  {
    if err || n == 0 || n > |l.out.buffer| || !l.writing then WriteFailed(l)
    else RequestWrite(WriteSucceeded(l, n))
  }

  function RequestRead(l: Link): Link {
    l.(pendingReads := l.pendingReads + 1)
  }

  function TakeRead(l: Link, data: Octets): Link
    requires l.pendingReads > 0
  {
    l.(pendingReads := l.pendingReads - 1, calls := if data == [] then l.calls else l.calls + [ReadData(data)])
  }

  function EndReader(l: Link): Link {
    CancelReadWrite(l).(reading := false, pendingChecks := l.pendingChecks + 1)
  }

  function ReadDone(l: Link, err: bool, data: Octets): Link
    requires l.pendingReads > 0
  {
    if err then EndReader(TakeRead(l, data)) else RequestRead(TakeRead(l, data))
  }

  function CheckClose(l: Link): Link
    requires l.pendingChecks > 0
  {
    var m := l.(pendingChecks := l.pendingChecks - 1);
    if !m.reading && !m.writing && !m.closeInvoked
    then m.(closeInvoked := true, calls := m.calls + [Close]) else m
  }

  function StartLoops(l: Link): Link {
    RequestWrite(RequestRead(l.(dial := Settled, reading := true)).(writing := true))
  }

  /** With no endpoint left nothing more is started and nothing is reported. */
  function RequestConnect(l: Link, points: nat): Link {
    l.(dial := if points == 0 then Settled else Connecting(points))
  }

  function ResolveDone(l: Link, err: bool, points: nat): Link {
    if err then l.(dial := Settled, pendingChecks := l.pendingChecks + 1) else RequestConnect(l, points)
  }

  function ConnectDone(l: Link, err: bool): Link
    requires l.dial.Connecting? && l.dial.points > 0
  {
    if err then RequestConnect(l, l.dial.points - 1) else StartLoops(l)
  }

  function Run(l: Link, connected: bool): Link {
    if connected then StartLoops(l) else l.(dial := Resolving)
  }

  function SendData(l: Link, id: U32, data: Octets): Link {
    var m := l.(out := Store(l.out, id, data));
    if Accepts(l.out, id) && id == l.out.next then Wake(m) else m
  }

  function Stop(l: Link, n: U32): Link {
    var m := l.(out := SetStop(l.out, n));
    if n <= l.out.next then Wake(m) else m
  }

  // ----- Events in the life of a running link

  datatype Event =
    | Arrive(id: U32, data: Octets)
    | StopAt(n: U32)
    | ReadCompletes(err: bool, bytes: Octets)
    | WriteCompletes(err: bool, moved: nat)
    | IdleExpires
    | IdleHandler
    | CloseCheck
    | ResolveCompletes(err: bool, points: nat)
    | ConnectCompletes(err: bool)

  /** The run-time library delivers an event only for an operation that is outstanding: a read carries at most
      one chunk and an error or some bytes, a write moves no more than it was given and nothing when it fails. */
  predicate Enabled(l: Link, e: Event) {
    match e
    case Arrive(_, _) => true
    case StopAt(_) => true
    case ReadCompletes(err, bytes) => l.pendingReads > 0 && |bytes| <= CHUNK_SIZE && (err || bytes != [])
    case WriteCompletes(err, n) => l.pendingWrites != [] && n <= |l.pendingWrites[0]| && (err ==> n == 0)
    case IdleExpires => l.parked > 0
    case IdleHandler => l.woken > 0
    case CloseCheck => l.pendingChecks > 0
    case ResolveCompletes(_, _) => l.dial.Resolving?
    case ConnectCompletes(_) => l.dial.Connecting? && l.dial.points > 0
  }

  function Apply(l: Link, e: Event): Link
    requires Enabled(l, e)
  {
    match e
    case Arrive(id, data) => SendData(l, id, data)
    case StopAt(n) => Stop(l, n)
    case ReadCompletes(err, bytes) => ReadDone(l, err, bytes)
    case WriteCompletes(err, n) => WriteDone(l, err, n)
    case IdleExpires => Wake(l)
    case IdleHandler => RequestWrite(l.(woken := l.woken - 1))
    case CloseCheck => CheckClose(l)
    case ResolveCompletes(err, points) => ResolveDone(l, err, points)
    case ConnectCompletes(err) => ConnectDone(l, err)
  }
}
