/** The byte streams between the two ends, over every run of the whole system. */
module EndToEnd {
  import opened Bytes
  import opened Packets
  import opened PacketCache
  import opened OutLinkSpec
  import opened OutLinkProofs
  import opened Reassembly
  import opened Node
  import opened NodeProofs
  import Wire
  import T = Trunk
  import P = Protocol

  // ----- The stream a link has read

  /** The chunks handed to the trunk, in order. */
  function Chunks(calls: seq<HosterCall>): seq<Octets> {
    if calls == [] then []
    else
      var rest := Chunks(calls[..|calls| - 1]);
      match calls[|calls| - 1]
      case ReadData(data) => rest + [data]
      case Close => rest
  }

  predicate Ended(calls: seq<HosterCall>) {
    calls != [] && calls[|calls| - 1].Close?
  }

  predicate CloseIsLast(calls: seq<HosterCall>) {
    forall i | 0 <= i < |calls| - 1 :: calls[i].ReadData?
  }

  lemma {:induction false} ChunksByIndex(calls: seq<HosterCall>)
    requires CloseIsLast(calls)
    ensures |Chunks(calls)| == |calls| - (if Ended(calls) then 1 else 0)
    ensures forall i | 0 <= i < |Chunks(calls)| :: calls[i] == ReadData(Chunks(calls)[i])
  {
    if calls != [] {
      ChunksByIndex(calls[..|calls| - 1]);
    }
  }

  // ----- What a receiving object has to do with what was said

  /** The object's output is a piece of the stream, and without a dead-link stop it knows of no end but the real one. */
  ghost predicate InSync(calls: seq<HosterCall>, o: Obj) {
    && Reassembles(o.link.out, Chunks(calls))
    && (!o.killed ==> StopsAt(o.link.out, |Chunks(calls)|) && (o.link.out.stop != UNDEFINED_CHUNK ==> Ended(calls)))
  }

  ghost predicate Heard(speakers: seq<Obj>, o: Obj) {
    forall calls | Voice(speakers, o.id, calls) && |calls| <= BAD_INDEX :: InSync(calls, o)
  }

  ghost predicate Flows(from: Node, to: Node) {
    forall i | 0 <= i < |to.objs| :: Heard(from.objs, to.objs[i])
  }

  ghost predicate SystemOk(s: P.System) {
    NodeOk(s.client) && NodeOk(s.server) && Flows(s.client, s.server) && Flows(s.server, s.client)
  }

  lemma VoiceCloseIsLast(n: Node, id: Id, calls: seq<HosterCall>)
    requires LinksOk(n) && Voice(n.objs, id, calls)
    ensures CloseIsLast(calls)
  {
    if calls != [] {
      var i :| 0 <= i < |n.objs| && n.objs[i].id == id && n.objs[i].link.calls == calls;
      assert LinkOk(n.objs[i].link);
    }
  }

  // ----- The speaking side moves

  /** Whatever is said now extends by at most one call something said before and not ended. */
  ghost predicate SpeechGrows(objs: seq<Obj>, objs': seq<Obj>) {
    forall id, calls' | Voice(objs', id, calls') ::
      || Voice(objs, id, calls')
      || (calls' != [] && Voice(objs, id, calls'[..|calls'| - 1]) && !Ended(calls'[..|calls'| - 1]))
  }

  lemma InSyncGrows(calls: seq<HosterCall>, call: HosterCall, o: Obj)
    requires InSync(calls, o) && !Ended(calls) && |calls| < BAD_INDEX && CloseIsLast(calls)
    ensures InSync(calls + [call], o)
  {
    ChunksByIndex(calls);
    var src := Chunks(calls);
    assert (calls + [call])[..|calls|] == calls;
    assert call.ReadData? ==> (src + [call.data])[..o.link.out.next] == src[..o.link.out.next];
  }

  lemma SpeakerMoves(from: Node, from': Node, to: Node)
    requires Flows(from, to) && SpeechGrows(from.objs, from'.objs) && NodeOk(from)
    ensures Flows(from', to)
  {
    hide NodeOk, LinksOk, InSync, SpeechGrows, Voice;
    forall i, calls' | 0 <= i < |to.objs| && Voice(from'.objs, to.objs[i].id, calls') && |calls'| <= BAD_INDEX
      ensures InSync(calls', to.objs[i])
    {
      assert Heard(from.objs, to.objs[i]);
      HearerKeepsUp(from, from'.objs, to.objs[i], calls');
    }
  }

  lemma HearerKeepsUp(from: Node, objs': seq<Obj>, o: Obj, calls': seq<HosterCall>)
    requires NodeOk(from) && SpeechGrows(from.objs, objs') && Heard(from.objs, o)
    requires Voice(objs', o.id, calls') && |calls'| <= BAD_INDEX
    ensures InSync(calls', o)
  {
    hide Voice, InSync;
    if !Voice(from.objs, o.id, calls') {
      var calls := calls'[..|calls'| - 1];
      VoiceCloseIsLast(from, o.id, calls);
      InSyncGrows(calls, calls'[|calls'| - 1], o);
      assert calls + [calls'[|calls'| - 1]] == calls';
    }
  }

  lemma SameSpeechGrows(objs: seq<Obj>, objs': seq<Obj>)
    requires SameSpeech(objs, objs')
    ensures SpeechGrows(objs, objs')
  {
    SameSpeechSameVoice(objs, objs');
  }

  lemma AddedSpeechGrows(objs: seq<Obj>, o: Obj)
    requires o.link.calls == []
    ensures SpeechGrows(objs, objs + [o])
  {
    forall id, calls | Voice(objs + [o], id, calls) ensures Voice(objs, id, calls) {
      VoiceBeforeAdd(objs, o, id, calls);
    }
  }

  lemma EventSpeechGrows(objs: seq<Obj>, oid: nat, e: Event)
    requires oid < |objs| && LinkOk(objs[oid].link) && Enabled(objs[oid].link, e)
    ensures SpeechGrows(objs, objs[oid := objs[oid].(link := Apply(objs[oid].link, e))])
  {
    var l, after := objs[oid].link, Apply(objs[oid].link, e);
    CallEffect(l, e);
    forall id, calls | Voice(objs[oid := objs[oid].(link := after)], id, calls)
      ensures Voice(objs, id, calls)
           || (calls != [] && Voice(objs, id, calls[..|calls| - 1]) && !Ended(calls[..|calls| - 1]))
    {
      if after.calls == l.calls || objs[oid].id != id {
        VoiceBeforeQuietUpdate(objs, oid, after, id, calls);
      } else {
        VoiceBeforeCall(objs, oid, after, after.calls[|after.calls| - 1], calls);
        assert after.calls[..|after.calls| - 1] == l.calls && !Ended(l.calls);
      }
    }
  }

  // ----- The hearing side moves

  /** An event at a receiving object; a packet comes from what was said. */
  lemma EventInSync(calls: seq<HosterCall>, o: Obj, e: Event)
    requires LinkOk(o.link) && Enabled(o.link, e) && InSync(calls, o) && CloseIsLast(calls)
    requires e.Arrive? ==> e.id < |calls| && calls[e.id] == ReadData(e.data)
    requires e.StopAt? ==> e.n < |calls| && calls[e.n] == Close
    ensures InSync(calls, o.(link := Apply(o.link, e)))
  {
    ChunksByIndex(calls);
    ApplyReassembles(o.link, e, Chunks(calls));
    if !o.killed {
      ApplyStopsAt(o.link, e, |Chunks(calls)|);
      StopIsSetByStop(o.link, e, |Chunks(calls)|);
    }
  }

  lemma KilledInSync(calls: seq<HosterCall>, o: Obj)
    requires LinkOk(o.link) && InSync(calls, o)
    ensures InSync(calls, Obj(o.id, Stop(o.link, 0), true))
  {
    assert Apply(o.link, StopAt(0)) == Stop(o.link, 0);
    ApplyReassembles(o.link, StopAt(0), Chunks(calls));
  }

  lemma FreshInSync(calls: seq<HosterCall>, id: Id, connected: bool)
    requires |calls| <= BAD_INDEX && CloseIsLast(calls)
    ensures InSync(calls, Obj(id, Run(FRESH_LINK, connected), false))
  {
    StartOk(connected);
    ChunksByIndex(calls);
  }

  /** A packet sent by the other side is one of the calls of whoever speaks there. */
  lemma PacketMatches(from: Node, p: Packet, calls: seq<HosterCall>)
    requires NodeOk(from) && p in from.trunk.sent && Indexed(p)
    requires Voice(from.objs, p.id, calls) && |calls| <= BAD_INDEX
    ensures p.index < |calls|
    ensures p.Data? ==> calls[p.index] == ReadData(p.data)
    ensures p.Release? ==> calls[p.index] == Close
  {
    SentWasSaid(from.objs, from.trunk.sent, p, calls);
  }

  /** The event a numbered packet is for the link of its connection. */
  function ArrivalOf(p: Packet): Event
    requires Indexed(p)
  {
    if p.Data? then Arrive(p.index, p.data) else StopAt(p.index)
  }

  lemma PacketHeard(from: Node, o: Obj, p: Packet)
    requires NodeOk(from) && p in from.trunk.sent && Indexed(p) && p.id == o.id
    requires LinkOk(o.link) && Heard(from.objs, o)
    ensures Heard(from.objs, o.(link := Apply(o.link, ArrivalOf(p))))
  {
    forall calls | Voice(from.objs, o.id, calls) && |calls| <= BAD_INDEX
      ensures InSync(calls, o.(link := Apply(o.link, ArrivalOf(p))))
    {
      PacketMatches(from, p, calls);
      VoiceCloseIsLast(from, o.id, calls);
      EventInSync(calls, o, ArrivalOf(p));
    }
  }

  lemma LocalHeard(from: Node, o: Obj, e: Event)
    requires LinksOk(from) && LinkOk(o.link) && Enabled(o.link, e) && IsLocal(e) && Heard(from.objs, o)
    ensures Heard(from.objs, o.(link := Apply(o.link, e)))
  {
    forall calls | Voice(from.objs, o.id, calls) && |calls| <= BAD_INDEX
      ensures InSync(calls, o.(link := Apply(o.link, e)))
    {
      VoiceCloseIsLast(from, o.id, calls);
      EventInSync(calls, o, e);
    }
  }

  lemma KilledHeard(from: Node, o: Obj)
    requires LinkOk(o.link) && Heard(from.objs, o)
    ensures Heard(from.objs, Obj(o.id, Stop(o.link, 0), true))
  {
    forall calls | Voice(from.objs, o.id, calls) && |calls| <= BAD_INDEX
      ensures InSync(calls, Obj(o.id, Stop(o.link, 0), true))
    {
      KilledInSync(calls, o);
    }
  }

  lemma FreshHeard(from: Node, id: Id, connected: bool)
    requires LinksOk(from)
    ensures Heard(from.objs, Obj(id, Run(FRESH_LINK, connected), false))
  {
    forall calls | Voice(from.objs, id, calls) && |calls| <= BAD_INDEX
      ensures InSync(calls, Obj(id, Run(FRESH_LINK, connected), false))
    {
      VoiceCloseIsLast(from, id, calls);
      FreshInSync(calls, id, connected);
    }
  }

  // ----- Steps of a node: it keeps its own invariant, goes on being heard, and goes on hearing

  /** n2 is a good successor of n opposite to other. */
  ghost predicate Follows(n: Node, n2: Node, other: Node) {
    NodeOk(n2) && SpeechGrows(n.objs, n2.objs) && Flows(other, n2)
  }

  lemma IdleObjectsFollow(n: Node, n2: Node, other: Node)
    requires NodeOk(n2) && Flows(other, n) && n2.objs == n.objs
    ensures Follows(n, n2, other)
  {
    SameSpeechGrows(n.objs, n.objs);
  }

  lemma AddObjFollows(n: Node, id: Id, connected: bool, now: Time, other: Node)
    requires NodeOk(n) && NodeOk(other) && Flows(other, n) && id !in n.trunk.table
    ensures Follows(n, AddObj(n, id, connected, now), other)
  {
    AddObjOk(n, id, connected, now);
    StartOk(connected);
    AddedSpeechGrows(n.objs, Obj(id, Run(FRESH_LINK, connected), false));
    FreshHeard(other, id, connected);
  }

  lemma LocalFollows(n: Node, oid: nat, e: Event, now: Time, other: Node)
    requires NodeOk(n) && NodeOk(other) && Flows(other, n)
    requires oid < |n.objs| && IsLocal(e) && Enabled(n.objs[oid].link, e)
    ensures Follows(n, LocalEvent(n, oid, e, now), other)
  {
    hide Heard;
    LocalEventOk(n, oid, e, now);
    EventSpeechGrows(n.objs, oid, e);
    LocalHeard(other, n.objs[oid], e);
  }

  lemma LiveTickFollows(n: Node, now: Time, other: Node)
    requires NodeOk(n) && NodeOk(other) && Flows(other, n)
    ensures Follows(n, LiveTick(n, now), other)
  {
    hide Heard, LiveTick, Stop, SpeechGrows;
    LiveTickOk(n, now);
    LiveTickKeepsSpeech(n, now);
    SameSpeechGrows(n.objs, LiveTick(n, now).objs);
    forall i | 0 <= i < |n.objs| ensures Heard(other.objs, LiveTick(n, now).objs[i]) {
      TickedObject(n, now, i);
      KilledHeard(other, n.objs[i]);
    }
  }

  lemma ArrivalKeepsSpeech(objs: seq<Obj>, oid: nat, p: Packet)
    requires oid < |objs| && Indexed(p)
    ensures SameSpeech(objs, objs[oid := objs[oid].(link := Apply(objs[oid].link, ArrivalOf(p)))])
  {
  }

  lemma NumberedReachesLink(n: Node, p: Packet, accepted: bool, now: Time)
    requires Indexed(p)
    requires forall id <- n.trunk.table :: EntryOk(n.objs, id, n.trunk.table[id])
    ensures Receive(n, p, accepted, now).objs ==
            if p.id !in n.trunk.table then n.objs
            else
              assert EntryOk(n.objs, p.id, n.trunk.table[p.id]);
              var oid := n.trunk.table[p.id].link;
              n.objs[oid := n.objs[oid].(link := Apply(n.objs[oid].link, ArrivalOf(p)))]
  {
  }

  lemma NumberedFollows(n: Node, p: Packet, accepted: bool, now: Time, other: Node)
    requires NodeOk(n) && NodeOk(other) && Flows(other, n) && p in other.trunk.sent && Indexed(p)
    ensures Follows(n, Receive(n, p, accepted, now), other)
  {
    ReceiveOk(n, p, accepted, now);
    NumberedReachesLink(n, p, accepted, now);
    if p.id in n.trunk.table {
      var oid := n.trunk.table[p.id].link;
      assert EntryOk(n.objs, p.id, n.trunk.table[p.id]);
      ArrivalKeepsSpeech(n.objs, oid, p);
      PacketHeard(other, n.objs[oid], p);
    }
    SameSpeechGrows(n.objs, Receive(n, p, accepted, now).objs);
  }

  lemma ReceiveFollows(n: Node, p: Packet, accepted: bool, now: Time, other: Node)
    requires NodeOk(n) && NodeOk(other) && Flows(other, n) && p in other.trunk.sent
    ensures Follows(n, Receive(n, p, accepted, now), other)
  {
    if Indexed(p) {
      NumberedFollows(n, p, accepted, now, other);
    } else {
      ReceiveOk(n, p, accepted, now);
      if p.CreateConnect? && p.id !in n.trunk.table && accepted {
        var a := n.(trunk := T.Send(n.trunk, AckCreate(p.id)));
        SendOk(n, AckCreate(p.id));
        AddObjFollows(a, p.id, false, now, other);
      } else {
        SameSpeechGrows(n.objs, Receive(n, p, accepted, now).objs);
      }
    }
  }

  lemma AddConnectFollows(n: Node, id: Id, point: U32, now: Time, other: Node)
    requires NodeOk(n) && NodeOk(other) && Flows(other, n)
    ensures Follows(n, AddConnect(n, id, point, now), other)
  {
    AddConnectOk(n, id, point, now);
    if id !in n.trunk.table {
      AddObjFollows(n, id, true, now, other);
    } else {
      SameSpeechGrows(n.objs, n.objs);
    }
  }

  // ----- Every run of the system

  lemma SentFits(s: P.System, side: Side, p: Packet)
    requires SystemOk(s) && p in P.At(s, side).trunk.sent
    ensures p.Data? ==> |p.data| <= MAX_CHUNK_SIZE
  {
  }

  lemma StepFollows(s: P.System, a: P.Action, side: Side)
    requires SystemOk(s) && P.Possible(s, a) && P.AtSide(a, side)
    ensures Follows(P.At(s, side), P.At(P.Do(s, a), side), P.At(s, Other(side)))
    ensures P.At(P.Do(s, a), Other(side)) == P.At(s, Other(side))
  {
    hide NodeOk, Flows, SpeechGrows, Follows, Receive, LocalEvent, AddConnect, LiveTick, Apply, Enabled;
    hide Wire.Encode, Wire.Decode;
    var n, other := P.At(s, side), P.At(s, Other(side));
    match a {
      case NewConnect(id, point, now) => AddConnectFollows(n, id, point, now, other);
      case Local(_, oid, e, now) => LocalFollows(n, oid, e, now, other);
      case Deliver(_, p, accepted, now) =>
        SentFits(s, Other(side), p);
        Wire.DecodedOrDropped(Other(side), p);
        IdleObjectsFollow(n, n, other);
        ReceiveFollows(n, p, accepted, now, other);
      case LiveTimer(_, now) => LiveTickFollows(n, now, other);
      case ResendTimer(_, now) =>
        ResendTickOk(n, now);
        IdleObjectsFollow(n, ResendTick(n, now), other);
      case ConnectResendTimer(now) =>
        ConnectResendTickOk(n, now);
        IdleObjectsFollow(n, ConnectResendTick(n, now), other);
    }
  }

  lemma StepOk(s: P.System, a: P.Action)
    requires SystemOk(s) && P.Possible(s, a)
    ensures SystemOk(P.Do(s, a))
  {
    hide NodeOk, Flows, P.Do, P.Possible;
    var side := if P.AtSide(a, ClientSide) then ClientSide else ServerSide;
    StepFollows(s, a, side);
    SpeakerMoves(P.At(s, side), P.At(P.Do(s, a), side), P.At(s, Other(side)));
  }

  lemma {:induction false} RunSystemOk(s: P.System, run: seq<P.Action>)
    requires SystemOk(s) && P.Feasible(s, run)
    ensures SystemOk(P.After(s, run))
    decreases run
  {
    if run != [] {
      StepOk(s, run[0]);
      RunSystemOk(P.Do(s, run[0]), run[1..]);
    }
  }

  lemma StartSystemOk(clientStart: Time, serverStart: Time)
    ensures SystemOk(P.Start(clientStart, serverStart))
  {
  }

  ghost predicate Reachable(s: P.System) {
    exists c, v, run :: P.Feasible(P.Start(c, v), run) && s == P.After(P.Start(c, v), run)
  }

  lemma ReachableOk(s: P.System)
    requires Reachable(s)
    ensures SystemOk(s)
  {
    var c, v, run :| P.Feasible(P.Start(c, v), run) && s == P.After(P.Start(c, v), run);
    StartSystemOk(c, v);
    RunSystemOk(P.Start(c, v), run);
  }

  lemma {:induction false} AfterOneMore(s: P.System, run: seq<P.Action>, a: P.Action)
    requires P.Feasible(s, run) && P.Possible(P.After(s, run), a)
    ensures P.Feasible(s, run + [a]) && P.After(s, run + [a]) == P.Do(P.After(s, run), a)
    decreases run
  {
    var longer := run + [a];
    if run == [] {
      assert longer[1..] == [];
      assert P.Feasible(P.Do(s, a), []);
    } else {
      assert longer[1..] == run[1..] + [a] && longer[0] == run[0];
      AfterOneMore(P.Do(s, run[0]), run[1..], a);
    }
  }

  lemma StillReachable(s: P.System, a: P.Action)
    requires Reachable(s) && P.Possible(s, a)
    ensures Reachable(P.Do(s, a))
  {
    var c, v, run :| P.Feasible(P.Start(c, v), run) && s == P.After(P.Start(c, v), run);
    AfterOneMore(P.Start(c, v), run, a);
    assert P.Feasible(P.Start(c, v), run + [a]);
  }

  lemma {:induction false} StaysReachable(s: P.System, run: seq<P.Action>)
    requires Reachable(s) && P.Feasible(s, run)
    ensures Reachable(P.After(s, run))
    decreases run
  {
    hide Reachable;
    if run != [] {
      StillReachable(s, run[0]);
      StaysReachable(P.Do(s, run[0]), run[1..]);
    }
  }

  /** In every reachable state every link object of both sides keeps the invariant of OutLinkProofs: stored keys
      are not below the expected index, a running loop has exactly one outstanding operation, a parked writer
      has nothing to do, Close was called at most once, last, after both loops ended for good. The table holds
      exactly the objects that have not closed. */
  lemma EveryLinkIsSound(s: P.System, side: Side)
    requires Reachable(s)
    ensures forall i | 0 <= i < |P.At(s, side).objs| :: LinkOk(P.At(s, side).objs[i].link)
    ensures TableOk(P.At(s, side).objs, P.At(s, side).trunk.table)
  {
    ReachableOk(s);
  }

  /** In the reachable state s, object i opposite to side belongs to a connection for which side has said calls,
      no more than there are numbers: with one link object, or with several that said the same. */
  ghost predicate Pair(s: P.System, side: Side, i: nat, calls: seq<HosterCall>) {
    && Reachable(s) && i < |P.At(s, Other(side)).objs|
    && Voice(P.At(s, side).objs, P.At(s, Other(side)).objs[i].id, calls) && |calls| <= BAD_INDEX
  }

  /** What the invariant says of one link object and the calls made for its connection on the other side. */
  lemma PairOk(s: P.System, side: Side, i: nat, calls: seq<HosterCall>)
    requires Pair(s, side, i, calls)
    ensures LinkOk(P.At(s, Other(side)).objs[i].link) && InSync(calls, P.At(s, Other(side)).objs[i])
    ensures CloseIsLast(calls)
  {
    ReachableOk(s);
    assert Heard(P.At(s, side).objs, P.At(s, Other(side)).objs[i]);
    VoiceCloseIsLast(P.At(s, side), P.At(s, Other(side)).objs[i].id, calls);
  }

  lemma DrainedIsWhole(calls: seq<HosterCall>, o: Obj)
    requires LinkOk(o.link) && InSync(calls, o) && o.link.end.Drained? && !o.killed
    ensures Ended(calls) && o.link.out.written == Concat(Chunks(calls))
  {
    assert Chunks(calls)[..|Chunks(calls)|] == Chunks(calls);
  }

  // ----- The results

  /** If the write loop ended because everything up to the stop index was written, and the connection was not
      declared dead, then the peer has closed and every byte it ever read has been put out. */
  lemma GracefulCloseLosesNothing(s: P.System, side: Side, i: nat, calls: seq<HosterCall>)
    requires Pair(s, side, i, calls)
    requires var o := P.At(s, Other(side)).objs[i]; o.link.end.Drained? && !o.killed
    ensures Ended(calls) && P.At(s, Other(side)).objs[i].link.out.written == Concat(Chunks(calls))
  {
    PairOk(s, side, i, calls);
    DrainedIsWhole(calls, P.At(s, Other(side)).objs[i]);
  }

  /** The assertion that data past the stop index never arrives holds on every link not declared dead. */
  lemma DataPastStopNeverArrives(s: P.System, side: Side, p: Packet, i: nat, calls: seq<HosterCall>)
    requires Pair(s, side, i, calls)
    requires p in P.At(s, side).trunk.sent && p.Data? && p.id == P.At(s, Other(side)).objs[i].id
    requires !P.At(s, Other(side)).objs[i].killed
    ensures var o := P.At(s, Other(side)).objs[i].link.out;
            o.stop != UNDEFINED_CHUNK ==> p.index < o.stop
  {
    PairOk(s, side, i, calls);
    ChunksByIndex(calls);
    assert p.index < |calls| && calls[p.index] == ReadData(p.data) by {
      ReachableOk(s);
      PacketMatches(P.At(s, side), p, calls);
    }
  }
}
