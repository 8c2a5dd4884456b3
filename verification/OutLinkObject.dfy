/** The connection object itself: its fields, updated in place by its handlers. */
module OutLinkObject {
  import opened Bytes
  import opened OutLinkSpec
  import opened OutLinkProofs

  /** The first key of the ordered map. */
  function Begin(chunks: map<U32, Octets>): (first: U32)
    requires chunks != map[]
    ensures first in chunks && forall k <- chunks :: first <= k
  {
    FirstKeyExists(chunks.Keys);
    var first :| first in chunks && forall k <- chunks :: first <= k;
    first
  }

  lemma FirstKeyExists(keys: set<U32>)
    requires keys != {}
    ensures exists first :: first in keys && forall k <- keys :: first <= k
  {
    var first := LeastKey(keys);
  }

  lemma {:induction false} LeastKey(keys: set<U32>) returns (least: U32)
    requires keys != {}
    ensures least in keys && forall k <- keys :: least <= k
  {
    var some :| some in keys;
    var smaller := set k <- keys | k < some;
    if smaller == {} {
      least := some;
    } else {
      assert some !in smaller && smaller < keys;
      least := LeastKey(smaller);
    }
    assert forall k <- keys :: k in smaller || some <= k;
  }

  lemma DrainOnce(o: Outgoing)
    ensures if o.next !in o.chunks then Drain(o) == o
            else
              var taken := TakeChunk(o);
              Drain(o) == if StopReached(taken) then CloseInput(taken) else Drain(taken)
  {
  }

  class OutLink {
    var writeChunks: map<U32, Octets>
    var networkWriteBuffer: Octets
    var nextWriteChunkId: U32
    var stopWriteChunkId: U32
    var stopAfterAllWrite: bool
    var stopWriteImmediate: bool
    var readProcessing: bool
    var writeProcessing: bool
    var closeInvoked: bool
    // operations the run-time library has been asked for
    var dial: Dial
    var pendingReads: nat
    var pendingWrites: seq<Octets>
    var parked: nat
    var woken: nat
    var pendingChecks: nat
    // what the outside has seen
    var written: Octets
    var calls: seq<HosterCall>
    var end: WriterEnd

    function Out(): Outgoing
      reads this
    {
      Outgoing(writeChunks, networkWriteBuffer, nextWriteChunkId, stopWriteChunkId, stopAfterAllWrite, written)
    }

    function State(): Link
      reads this
    {
      Link(Out(), stopWriteImmediate, readProcessing, writeProcessing, closeInvoked,
           dial, pendingReads, pendingWrites, parked, woken, pendingChecks, calls, end)
    }

    constructor ()
      ensures State() == FRESH_LINK
    {
      writeChunks, networkWriteBuffer, nextWriteChunkId := map[], [], 0;
      stopWriteChunkId, stopAfterAllWrite, stopWriteImmediate := UNDEFINED_CHUNK, false, false;
      readProcessing, writeProcessing, closeInvoked := false, false, false;
      dial, pendingReads, pendingWrites, parked, woken, pendingChecks := NotRun, 0, [], 0, 0, 0;
      written, calls, end := [], [], Open;
    }

    // ----- Requests

    method FillNetworkBuffer()
      requires ChunksOk(Out())
      modifies this`writeChunks, this`networkWriteBuffer, this`nextWriteChunkId, this`stopAfterAllWrite
      ensures Out() == Fill(old(Out()))
    {
      if stopWriteChunkId != UNDEFINED_CHUNK && stopWriteChunkId <= nextWriteChunkId {
        stopAfterAllWrite := true;
        writeChunks := map[];
        return;
      }
      hide Drain;
      while writeChunks != map[]
        invariant Drain(Out()) == Drain(old(Out()))
        invariant forall k <- writeChunks :: nextWriteChunkId <= k
        decreases writeChunks.Keys
      {
        ghost var before := Out();
        DrainOnce(before);
        var it := Begin(writeChunks);
        assert it >= nextWriteChunkId;
        if it != nextWriteChunkId {
          break;
        }
        nextWriteChunkId := Inc(nextWriteChunkId);
        networkWriteBuffer := networkWriteBuffer + writeChunks[it];
        writeChunks := writeChunks - {it};
        assert Out() == TakeChunk(before);
        if stopWriteChunkId != UNDEFINED_CHUNK && stopWriteChunkId <= nextWriteChunkId {
          stopAfterAllWrite := true;
          writeChunks := map[];
          break;
        }
      }
      DrainOnce(Out());
    }

    method CancelReadWrite()
      modifies this`stopWriteImmediate, this`woken, this`parked
      ensures State() == OutLinkSpec.CancelReadWrite(old(State()))
    {
      stopWriteImmediate := true;
      CancelIdleTimer();
    }

    /** Handlers of all armed waits are queued. */
    method CancelIdleTimer()
      modifies this`woken, this`parked
      ensures State() == Wake(old(State()))
    {
      woken, parked := woken + parked, 0;
    }

    method CheckReadyClose()
      modifies this`pendingChecks
      ensures State() == old(State()).(pendingChecks := old(pendingChecks) + 1)
    {
      pendingChecks := pendingChecks + 1;
    }

    method RequestRead()
      requires readProcessing
      modifies this`pendingReads
      ensures State() == OutLinkSpec.RequestRead(old(State()))
    {
      pendingReads := pendingReads + 1;
    }

    /** The write loop stops for good. */
    method EndWriter(how: WriterEnd)
      modifies this`stopWriteImmediate, this`woken, this`parked, this`writeProcessing, this`end, this`pendingChecks
      ensures State() == OutLinkSpec.EndWriter(old(State()), how)
    {
      CancelReadWrite();
      writeProcessing, end := false, how;
      CheckReadyClose();
    }

    method RequestWrite()
      requires writeProcessing && ChunksOk(Out())
      modifies this
      ensures State() == OutLinkSpec.RequestWrite(old(State()))
    {
      hide Fill, ChunksOk;
      if stopWriteImmediate {
        EndWriter(Cancelled);
        return;
      }
      FillNetworkBuffer();
      ghost var filled := old(State()).(out := Fill(old(Out())));
      assert State() == filled;
      if networkWriteBuffer == [] {
        if stopAfterAllWrite {
          EndWriter(Drained);
          return;
        }
        CancelIdleTimer();
        parked := parked + 1;
        assert State() == Park(filled);
        return;
      }
      pendingWrites := pendingWrites + [networkWriteBuffer];
    }

    method RequestConnect(points: nat)
      modifies this`dial
      ensures State() == OutLinkSpec.RequestConnect(old(State()), points)
    {
      dial := if points == 0 then Settled else Connecting(points);
    }

    method Run(connected: bool)
      requires LinkOk(State()) && dial.NotRun?
      modifies this
      ensures State() == OutLinkSpec.Run(old(State()), connected) && LinkOk(State())
    {
      RunStartsOk(State(), connected);
      if connected {
        StartLoops();
      } else {
        dial := Resolving;
      }
    }

    method StartLoops()
      requires ChunksOk(Out())
      modifies this
      ensures State() == OutLinkSpec.StartLoops(old(State()))
    {
      hide OutLinkSpec.RequestWrite;
      dial, readProcessing := Settled, true;
      RequestRead();
      writeProcessing := true;
      RequestWrite();
    }

    // ----- Completion handlers

    method RequestReadProcessing(err: bool, bytes: Octets)
      requires LinkOk(State()) && Enabled(State(), ReadCompletes(err, bytes))
      modifies this
      ensures State() == Apply(old(State()), ReadCompletes(err, bytes)) && LinkOk(State())
    {
      ApplyOk(State(), ReadCompletes(err, bytes));
      assert readProcessing;
      hide LinkOk;
      HandOver(bytes);
      if err {
        EndReader();
        return;
      }
      RequestRead();
    }

    /** The host gets what was read, also when the read has failed. */
    method HandOver(bytes: Octets)
      requires pendingReads > 0
      modifies this`pendingReads, this`calls
      ensures State() == TakeRead(old(State()), bytes)
    {
      pendingReads := pendingReads - 1;
      if bytes != [] {
        calls := calls + [ReadData(bytes)];
      }
    }

    method EndReader()
      modifies this`readProcessing, this`stopWriteImmediate, this`woken, this`parked, this`pendingChecks
      ensures State() == OutLinkSpec.EndReader(old(State()))
    {
      readProcessing := false;
      CancelReadWrite();
      CheckReadyClose();
    }

    method FailWrite()
      requires pendingWrites != []
      modifies this`pendingWrites, this`writeProcessing, this`end, this`pendingChecks
      ensures State() == WriteFailed(old(State()))
    {
      pendingWrites, writeProcessing, end := pendingWrites[1..], false, Failed;
      CheckReadyClose();
    }

    method EraseWritten(moved: nat)
      requires pendingWrites != [] && moved <= |networkWriteBuffer|
      modifies this`pendingWrites, this`written, this`networkWriteBuffer
      ensures State() == WriteSucceeded(old(State()), moved)
    {
      pendingWrites := pendingWrites[1..];
      written := written + networkWriteBuffer[..moved];
      networkWriteBuffer := networkWriteBuffer[moved..];
    }

    /** err and moved are what the library reports; a transfer larger than the buffer counts as an error. */
    method RequestWriteProcessing(err: bool, moved: nat)
      requires LinkOk(State()) && pendingWrites != []
      modifies this
      ensures State() == WriteDone(old(State()), err, moved) && LinkOk(State())
      ensures old(Enabled(State(), WriteCompletes(err, moved))) ==>
                State() == Apply(old(State()), WriteCompletes(err, moved))
    {
      WriteDoneOk(State(), err, moved);
      var failed := false;
      if err {
        failed := true;
      }
      if moved == 0 {
        failed := true;
      }
      if moved > |networkWriteBuffer| {
        failed := true;
      }
      if failed {
        FailWrite();
        return;
      }
      WriterEntered(State(), WriteCompletes(err, moved));
      EraseWritten(moved);
      RequestWrite();
    }

    method IdleTimerHandler()
      requires LinkOk(State()) && Enabled(State(), IdleHandler)
      modifies this
      ensures State() == Apply(old(State()), IdleHandler) && LinkOk(State())
    {
      ApplyOk(State(), IdleHandler);
      WriterEntered(State(), IdleHandler);
      woken := woken - 1;
      RequestWrite();
    }

    method CheckReadyCloseProcessing()
      requires LinkOk(State()) && Enabled(State(), CloseCheck)
      modifies this
      ensures State() == Apply(old(State()), CloseCheck) && LinkOk(State())
    {
      ApplyOk(State(), CloseCheck);
      pendingChecks := pendingChecks - 1;
      if !readProcessing && !writeProcessing {
        if !closeInvoked {
          closeInvoked := true;
          calls := calls + [Close];
        }
      }
    }

    method ResolverProcessing(err: bool, points: nat)
      requires LinkOk(State()) && Enabled(State(), ResolveCompletes(err, points))
      modifies this
      ensures State() == Apply(old(State()), ResolveCompletes(err, points)) && LinkOk(State())
    {
      ApplyOk(State(), ResolveCompletes(err, points));
      if err {
        dial := Settled;
        CheckReadyClose();
        return;
      }
      RequestConnect(points);
    }

    method RequestConnectProcessing(err: bool)
      requires LinkOk(State()) && Enabled(State(), ConnectCompletes(err))
      modifies this
      ensures State() == Apply(old(State()), ConnectCompletes(err)) && LinkOk(State())
    {
      ApplyOk(State(), ConnectCompletes(err));
      if err {
        RequestConnect(dial.points - 1);
      } else {
        StartLoops();
      }
    }

    // ----- Calls from the trunk

    method SendData(chunkId: U32, data: Octets)
      modifies this
      ensures State() == OutLinkSpec.SendData(old(State()), chunkId, data)
      ensures old(LinkOk(State())) ==> LinkOk(State())
    {
      if LinkOk(State()) {
        SendDataOk(State(), chunkId, data);
      }
      hide LinkOk;
      if chunkId < nextWriteChunkId {
        return;
      }
      if stopWriteChunkId != UNDEFINED_CHUNK && chunkId >= stopWriteChunkId {
        return;
      }
      if chunkId in writeChunks {
        return;
      }
      writeChunks := writeChunks[chunkId := data];
      if chunkId != nextWriteChunkId {
        return;
      }
      CancelIdleTimer();
    }

    method Stop(stopChunk: U32)
      modifies this
      ensures State() == OutLinkSpec.Stop(old(State()), stopChunk)
      ensures old(LinkOk(State())) ==> LinkOk(State())
    {
      if LinkOk(State()) {
        StopOk(State(), stopChunk);
      }
      hide LinkOk;
      if stopChunk <= nextWriteChunkId {
        stopWriteChunkId := nextWriteChunkId;
        stopAfterAllWrite := true;
        writeChunks := map[];
        CancelIdleTimer();
        return;
      }
      stopWriteChunkId := stopChunk;
      EraseFrom(stopChunk);
    }

    /** Walks the map in key order and erases the entries at or past stopChunk. */
    method EraseFrom(stopChunk: U32)
      modifies this`writeChunks
      ensures writeChunks == ChunksBelow(old(writeChunks), stopChunk)
    {
      var ahead := writeChunks;
      while ahead != map[]
        invariant forall k <- ahead :: k in old(writeChunks) && ahead[k] == old(writeChunks)[k]
        invariant writeChunks == map k | k in old(writeChunks) && (k in ahead || k < stopChunk) :: old(writeChunks)[k]
        decreases ahead.Keys
      {
        var it := Begin(ahead);
        if it >= stopChunk {
          writeChunks := writeChunks - {it};
        }
        ahead := ahead - {it};
      }
    }
  }
}
