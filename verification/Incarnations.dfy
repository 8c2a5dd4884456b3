/** A late connect request can bring a closed connection back on the server (common/trunklink.cpp:609-624). The
    new link numbers its packets from 0 again, which is why the results about streams speak of connections whose
    link objects on the sending side have not differed. */
module Incarnations {
  import opened Bytes
  import opened Packets
  import opened OutLinkSpec
  import opened Node
  import P = Protocol
  import E = EndToEnd
  import N = NodeProofs
  import Wire

  /** The newest object of the server is number i, for id, in the state l; id is in the table. */
  ghost predicate Newest(s: P.System, id: Id, i: nat, l: Link) {
    && E.Reachable(s) && |s.server.objs| == i + 1
    && s.server.objs[i] == Obj(id, l, false)
    && id in s.server.trunk.table && s.server.trunk.table[id].link == i
    && s.server.trunk.table[id].nextIndex == |l.calls|
  }

  /** The client has one object, for id, in the state l. */
  ghost predicate Client(s: P.System, id: Id, l: Link) {
    && E.Reachable(s) && s.client.objs == [Obj(id, l, false)]
    && id in s.client.trunk.table && s.client.trunk.table[id].link == 0
    && CreateConnect(id, 5, 300) in s.client.trunk.sent
  }

  /** The server goes on; the client stays as it is and no packet is lost. */
  ghost predicate ServerGoesOn(s: P.System, s': P.System) {
    E.Reachable(s') && s'.client == s.client && s.server.trunk.sent <= s'.server.trunk.sent
  }

  lemma RequestArrives(s: P.System, id: Id) returns (s': P.System)
    requires E.Reachable(s) && CreateConnect(id, 5, 300) in s.client.trunk.sent && id !in s.server.trunk.table
    ensures Newest(s', id, |s.server.objs|, Run(FRESH_LINK, false)) && ServerGoesOn(s, s')
    ensures s'.server.objs[..|s.server.objs|] == s.server.objs
  {
    var p := CreateConnect(id, 5, 300);
    var a := P.Deliver(ServerSide, p, true, 0);
    Wire.WireRoundTrip(ClientSide, p);
    E.StillReachable(s, a);
    s' := P.Do(s, a);
  }

  lemma LinkMoves(s: P.System, id: Id, i: nat, l: Link, e: Event) returns (s': P.System)
    requires Newest(s, id, i, l) && IsLocal(e) && Enabled(l, e) && Apply(l, e).calls == l.calls
    ensures Newest(s', id, i, Apply(l, e)) && ServerGoesOn(s, s') && s'.server.objs[..i] == s.server.objs[..i]
  {
    var a := P.Local(ServerSide, i, e, 0);
    E.StillReachable(s, a);
    s' := P.Do(s, a);
  }

  lemma LinkCloses(s: P.System, id: Id, i: nat, l: Link) returns (s': P.System)
    requires Newest(s, id, i, l) && Enabled(l, CloseCheck) && |l.calls| < 10
    requires Apply(l, CloseCheck).calls == l.calls + [Close]
    ensures ServerGoesOn(s, s') && s'.server.objs == s.server.objs[i := Obj(id, Apply(l, CloseCheck), false)]
    ensures id !in s'.server.trunk.table && Release(id, |l.calls|) in s'.server.trunk.sent
  {
    var a := P.Local(ServerSide, i, CloseCheck, 0);
    E.StillReachable(s, a);
    hide E.Reachable, Run, Apply, Enabled, Host;
    N.HostSends(s.server.trunk, id, Close, 0);
    s' := P.Do(s, a);
  }

  lemma FirstRequest(id: Id) returns (s: P.System)
    ensures Client(s, id, Run(FRESH_LINK, true))
    ensures s.server.objs == [] && s.server.trunk.table == map[]
  {
    s := P.Start(0, 0);
    assert P.Feasible(s, []) && s == P.After(P.Start(0, 0), []);
    var a := P.NewConnect(id, 5, 0);
    E.StillReachable(s, a);
    s := P.Do(s, a);
  }

  /** A link that could not resolve its point closes with number 0; the second link of the same connection reads
      a byte and sends it under number 0 too. */
  lemma RecreatedLinkReusesNumbers(id: Id) returns (s: P.System)
    ensures E.Reachable(s)
    ensures Release(id, 0) in s.server.trunk.sent && Data(id, 0, [7]) in s.server.trunk.sent
  {
    hide E.Reachable;
    s := FirstRequest(id);
    var l := Run(FRESH_LINK, false);
    s := RequestArrives(s, id);
    s := LinkMoves(s, id, 0, l, ResolveCompletes(true, 0));
    s := LinkCloses(s, id, 0, Apply(l, ResolveCompletes(true, 0)));
    s := RequestArrives(s, id);
    s := Connects(s, id, 1);
    s := Reads(s, id, 1, [], [7], [ReadData([7])]);
  }

  // ----- What the client makes of it

  /** A link with both loops on and nothing to write, which has made these calls. */
  function Talking(calls: seq<HosterCall>): Link {
    FRESH_LINK.(dial := Settled, reading := true, writing := true, pendingReads := 1, parked := 1, calls := calls)
  }

  lemma Connects(s: P.System, id: Id, i: nat) returns (s': P.System)
    requires Newest(s, id, i, Run(FRESH_LINK, false))
    ensures Newest(s', id, i, Talking([])) && ServerGoesOn(s, s') && s'.server.objs[..i] == s.server.objs[..i]
  {
    hide E.Reachable;
    var l := Run(FRESH_LINK, false);
    s' := LinkMoves(s, id, i, l, ResolveCompletes(false, 1));
    var dialled := Apply(l, ResolveCompletes(false, 1));
    assert Apply(dialled, ConnectCompletes(false)) == Talking([]);
    s' := LinkMoves(s', id, i, dialled, ConnectCompletes(false));
  }

  /** A link that has read one byte meets the end of its socket and closes. */
  lemma EndOfSocket(s: P.System, id: Id, i: nat, calls: seq<HosterCall>) returns (s': P.System)
    requires Newest(s, id, i, Talking(calls)) && |calls| < 10
    ensures ServerGoesOn(s, s') && |s'.server.objs| == i + 1 && s'.server.objs[..i] == s.server.objs[..i]
    ensures s'.server.objs[i].id == id && s'.server.objs[i].link.calls == calls + [Close]
    ensures id !in s'.server.trunk.table
  {
    hide E.Reachable;
    var l := Talking(calls);
    var failed := l.(pendingReads := 0, reading := false, stopNow := true, woken := 1, parked := 0, pendingChecks := 1);
    assert Apply(l, ReadCompletes(true, [])) == failed;
    s' := LinkMoves(s, id, i, l, ReadCompletes(true, []));
    var ended := failed.(woken := 0, writing := false, pendingChecks := 2, end := Cancelled);
    assert Apply(failed, IdleHandler) == ended;
    s' := LinkMoves(s', id, i, failed, IdleHandler);
    s' := LinkCloses(s', id, i, ended);
  }

  lemma ChunkReceived(n: Node, id: Id, l: Link, index: U32, data: Octets)
    requires n.objs == [Obj(id, l, false)] && id in n.trunk.table && n.trunk.table[id].link == 0
    ensures var m := Receive(n, Data(id, index, data), true, 0);
            && m.objs == [Obj(id, SendData(l, index, data), false)]
            && m.trunk.table == n.trunk.table && n.trunk.sent <= m.trunk.sent
  {
    hide SendData;
  }

  lemma ClientHears(s: P.System, id: Id, l: Link, index: U32, data: Octets) returns (s': P.System)
    requires Client(s, id, l) && Data(id, index, data) in s.server.trunk.sent && |data| <= MAX_CHUNK_SIZE
    ensures Client(s', id, SendData(l, index, data)) && s'.server == s.server
  {
    hide E.Reachable, SendData, Receive, Wire.Decode, Wire.Encode;
    var p := Data(id, index, data);
    var a := P.Deliver(ClientSide, p, true, 0);
    Wire.WireRoundTrip(ServerSide, p);
    E.StillReachable(s, a);
    ChunkReceived(s.client, id, l, index, data);
    s' := P.Do(s, a);
  }

  lemma ClientMoves(s: P.System, id: Id, l: Link, e: Event) returns (s': P.System)
    requires Client(s, id, l) && IsLocal(e) && Enabled(l, e) && Apply(l, e).calls == l.calls
    ensures Client(s', id, Apply(l, e)) && s'.server == s.server
  {
    var a := P.Local(ClientSide, 0, e, 0);
    E.StillReachable(s, a);
    hide E.Reachable, Apply, Enabled;
    s' := P.Do(s, a);
  }

  /** The client gets chunk 0 of the first link and chunk 1 of the second, and writes both. */
  lemma ClientWritesBoth(s: P.System, id: Id) returns (s': P.System)
    requires Client(s, id, Run(FRESH_LINK, true))
    requires Data(id, 0, [1]) in s.server.trunk.sent && Data(id, 1, [3]) in s.server.trunk.sent
    ensures E.Reachable(s') && s'.server == s.server && |s'.client.objs| == 1
    ensures s'.client.objs[0].id == id && s'.client.objs[0].link.out.written == [1, 3]
  {
    hide E.Reachable;
    var l := Talking([]);
    assert Run(FRESH_LINK, true) == l;
    s' := ClientHears(s, id, l, 0, [1]);
    var one := l.(woken := 1, parked := 0, out := NOTHING_OUT.(chunks := map[0 := [1]]));
    assert SendData(l, 0, [1]) == one;
    s' := ClientHears(s', id, one, 1, [3]);
    var two := one.(out := NOTHING_OUT.(chunks := map[0 := [1], 1 := [3]]));
    assert SendData(one, 1, [3]) == two;
    WritesBoth(two);
    s' := ClientMoves(s', id, two, IdleHandler);
    s' := ClientMoves(s', id, Apply(two, IdleHandler), WriteCompletes(false, 2));
  }

  lemma WritesBoth(two: Link)
    requires two == Talking([]).(woken := 1, parked := 0, out := NOTHING_OUT.(chunks := map[0 := [1], 1 := [3]]))
    ensures Enabled(two, IdleHandler) && Apply(two, IdleHandler).calls == []
    ensures var l := Apply(two, IdleHandler);
            && Enabled(l, WriteCompletes(false, 2))
            && Apply(l, WriteCompletes(false, 2)).calls == []
            && Apply(l, WriteCompletes(false, 2)).out.written == [1, 3]
  {
    var o := two.out;
    var o1 := o.(next := 1, buffer := [1], chunks := map[1 := [3]]);
    assert TakeChunk(o) == o1;
    var o2 := o.(next := 2, buffer := [1, 3], chunks := map[]);
    assert TakeChunk(o1) == o2 && Drain(o2) == o2;
    assert Fill(o) == o2;
    assert Apply(two, IdleHandler) == two.(woken := 0, out := o2, pendingWrites := [[1, 3]]);
  }

  /** One link of the server reads a byte and closes; the next one, for the same connection, reads two others. */
  lemma TwoStreams(id: Id) returns (s: P.System)
    ensures Client(s, id, Run(FRESH_LINK, true)) && |s.server.objs| == 2
    ensures s.server.objs[0].id == s.server.objs[1].id == id
    ensures s.server.objs[0].link.calls == [ReadData([1]), Close]
    ensures s.server.objs[1].link.calls == [ReadData([2]), ReadData([3])]
    ensures Data(id, 0, [1]) in s.server.trunk.sent && Data(id, 1, [3]) in s.server.trunk.sent
  {
    hide E.Reachable, Run, Talking;
    s := FirstRequest(id);
    s := FirstStream(s, id);
    s := RequestArrives(s, id);
    s := Connects(s, id, 1);
    s := Reads(s, id, 1, [], [2], [ReadData([2])]);
    s := Reads(s, id, 1, [ReadData([2])], [3], [ReadData([2]), ReadData([3])]);
    TalkingCalls([ReadData([2]), ReadData([3])]);
  }

  lemma FirstStream(s: P.System, id: Id) returns (s': P.System)
    requires Client(s, id, Run(FRESH_LINK, true)) && s.server.objs == [] && s.server.trunk.table == map[]
    ensures Client(s', id, Run(FRESH_LINK, true)) && |s'.server.objs| == 1
    ensures s'.server.objs[0].id == id && s'.server.objs[0].link.calls == [ReadData([1]), Close]
    ensures id !in s'.server.trunk.table && Data(id, 0, [1]) in s'.server.trunk.sent
  {
    hide E.Reachable, Run, Talking;
    s' := RequestArrives(s, id);
    s' := Connects(s', id, 0);
    s' := Reads(s', id, 0, [], [1], [ReadData([1])]);
    s' := EndOfSocket(s', id, 0, [ReadData([1])]);
  }

  lemma TalkingCalls(calls: seq<HosterCall>)
    ensures Talking(calls).calls == calls
  {
  }

  lemma Reads(s: P.System, id: Id, i: nat, calls: seq<HosterCall>, data: Octets, more: seq<HosterCall>)
      returns (s': P.System)
    requires Newest(s, id, i, Talking(calls)) && |calls| < 10 && 0 < |data| <= CHUNK_SIZE
    requires more == calls + [ReadData(data)]
    ensures Newest(s', id, i, Talking(more)) && ServerGoesOn(s, s')
    ensures s'.server.objs[..i] == s.server.objs[..i] && Data(id, |calls|, data) in s'.server.trunk.sent
  {
    hide E.Reachable, Run, Apply, Enabled, Host, LocalEvent, Talking;
    TalkingReads(calls, data);
    TalkingCalls(calls);
    TalkingCalls(more);
    var a := P.Local(ServerSide, i, ReadCompletes(false, data), 0);
    E.StillReachable(s, a);
    NodeReads(s.server, i, calls, data);
    N.HostSends(s.server.trunk, id, ReadData(data), 0);
    s' := P.Do(s, a);
  }

  lemma NodeReads(n: Node, i: nat, calls: seq<HosterCall>, data: Octets)
    requires i < |n.objs| && n.objs[i].link == Talking(calls) && 0 < |data| <= CHUNK_SIZE
    requires Enabled(n.objs[i].link, ReadCompletes(false, data))
    ensures LocalEvent(n, i, ReadCompletes(false, data), 0)
         == SetLink(n, i, Talking(calls + [ReadData(data)])).(trunk := Host(n.trunk, n.objs[i].id, ReadData(data), 0))
  {
    hide Apply, Host, Enabled;
    TalkingReads(calls, data);
  }

  lemma TalkingReads(calls: seq<HosterCall>, data: Octets)
    requires 0 < |data| <= CHUNK_SIZE
    ensures Enabled(Talking(calls), ReadCompletes(false, data))
    ensures Apply(Talking(calls), ReadCompletes(false, data)) == Talking(calls + [ReadData(data)])
  {
  }

  /** Two links of the server read different streams under one connection, and the client has put out a string that
      belongs to neither. */
  lemma RecreatedLinkMixesStreams(id: Id) returns (s: P.System)
    ensures E.Reachable(s) && |s.client.objs| == 1 && |s.server.objs| == 2
    ensures s.client.objs[0].id == s.server.objs[0].id == s.server.objs[1].id == id
    ensures var w := s.client.objs[0].link.out.written;
            && !(w <= Concat(E.Chunks(s.server.objs[0].link.calls)))
            && !(w <= Concat(E.Chunks(s.server.objs[1].link.calls)))
  {
    hide E.Reachable, Run, E.Chunks, Concat;
    s := TwoStreams(id);
    s := ClientWritesBoth(s, id);
    StreamsOf();
    assert [1, 3][0] != [2, 3][0];
  }

  lemma StreamsOf()
    ensures Concat(E.Chunks([ReadData([1]), Close])) == [1]
    ensures Concat(E.Chunks([ReadData([2]), ReadData([3])])) == [2, 3]
  {
    var one: HosterCall, two: HosterCall, three: HosterCall := ReadData([1]), ReadData([2]), ReadData([3]);
    assert [one, Close][..1] == [one] && [two, three][..1] == [two];
    assert [one][..0] == [] && [two][..0] == [];
    assert E.Chunks([one]) == [[1]] && E.Chunks([two]) == [[2]] && E.Chunks([two, three]) == [[2], [3]];
    assert [[1]][..0] == [] && [[2]][..0] == [] && [[2], [3]][..1] == [[2]];
  }
}
