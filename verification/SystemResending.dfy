/** The resend caches in runs of the whole system. */
module SystemResending {
  import opened Bytes
  import opened Packets
  import opened PacketCache
  import opened Resending
  import opened OutLinkSpec
  import opened OutLinkProofs
  import opened Node
  import opened NodeProofs
  import opened EndToEnd
  import opened Projection
  import Wire
  import Delivery
  import P = Protocol
  import T = Trunk

  // ----- A run of the system as a run of one cache

  function CacheOf(policy: Policy, n: Node): seq<Cached> {
    match policy
    case DataCache => n.trunk.cache
    case ConnectCache => n.connects
  }

  /** The call that a local event makes becomes this packet, unless it gets no number. */
  function PacketMade(n: Node, oid: nat, e: Event): Option<Packet>
    requires oid < |n.objs| && IsLocal(e) && Enabled(n.objs[oid].link, e)
  {
    var before, after, id := n.objs[oid].link.calls, Apply(n.objs[oid].link, e).calls, n.objs[oid].id;
    if |after| > |before| && T.NextIndex(n.trunk, id) != BAD_INDEX
    then Some(PacketOf(id, T.NextIndex(n.trunk, id), after[|after| - 1])) else None
  }

  /** What an action does to a cache of the node it happens at, if anything. */
  function CacheEventAt(policy: Policy, n: Node, side: Side, a: P.Action): Option<Timed>
    requires a.Local? ==> a.oid < |n.objs| && IsLocal(a.event) && Enabled(n.objs[a.oid].link, a.event)
  {
    match policy
    case DataCache => (
      match a
      case Local(_, oid, e, now) =>
        var p := PacketMade(n, oid, e);
        if p.Some? then Some(Timed(now, Push(p.value))) else None
      case ResendTimer(_, now) => Some(Timed(now, Tick))
      case _ => None)
    case ConnectCache => (
      match a
      case NewConnect(id, point, now) =>
        if id in n.trunk.table then None else Some(Timed(now, Push(CreateConnect(id, point, 300))))
      case Deliver(_, p, _, now) => if p.AckCreate? && side.ClientSide? then Some(Timed(now, Ack(p.id))) else None
      case ConnectResendTimer(now) => Some(Timed(now, Tick))
      case _ => None)
  }

  /** The same in the system. The connect cache of the server stays empty. */
  function CacheEventOf(policy: Policy, s: P.System, a: P.Action, side: Side): Option<Timed>
    requires P.Possible(s, a)
  {
    if P.AtSide(a, side) then CacheEventAt(policy, P.At(s, side), side, a) else None
  }

  function CacheRun(policy: Policy, s: P.System, run: seq<P.Action>, side: Side): seq<Timed>
    requires P.Feasible(s, run)
    decreases run
  {
    if run == [] then []
    else
      var rest := CacheRun(policy, P.Do(s, run[0]), run[1..], side);
      match CacheEventOf(policy, s, run[0], side)
      case None => rest
      case Some(e) => [e] + rest
  }

  /** Everything the cache has sent in a run from the start, and when. */
  function LogOf(policy: Policy, s: P.System, run: seq<P.Action>, side: Side): seq<Sent>
    requires P.Feasible(s, run)
  {
    Steps(policy, EMPTY_CACHE, CacheRun(policy, s, run, side)).log
  }

  // ----- One step

  function ItemsAfter(policy: Policy, items: seq<Cached>, e: Option<Timed>): seq<Cached> {
    if e.None? then items else Step(policy, CacheState(items, []), e.value).items
  }

  predicate IsPush(e: Option<Timed>, p: Packet) {
    e.Some? && e.value.event == Push(p)
  }

  /** The packets that a cache repeats. */
  predicate Governs(policy: Policy, p: Packet) {
    match policy
    case DataCache => Indexed(p)
    case ConnectCache => p.CreateConnect?
  }

  /** What a cache sends on an event. */
  function Logged(policy: Policy, items: seq<Cached>, e: Option<Timed>): seq<Sent> {
    if e.None? then [] else Step(policy, CacheState(items, []), e.value).log
  }

  /** From n to m exactly what the cache has sent on e has been sent of the packets that it repeats. */
  ghost predicate Counts(policy: Policy, n: Node, m: Node, e: Option<Timed>) {
    forall q | Governs(policy, q) ::
      m.trunk.sent[q] == n.trunk.sent[q] + |TimesOf(Logged(policy, CacheOf(policy, n), e), q)|
  }

  lemma {:induction false} StampCounts(infos: seq<Packet>, now: Time, q: Packet)
    ensures |TimesOf(Stamp(infos, now), q)| == multiset(infos)[q]
  {
    if infos != [] {
      var front, p := infos[..|infos| - 1], infos[|infos| - 1];
      StampCounts(front, now, q);
      assert infos == front + [p];
      assert Stamp(infos, now) == Stamp(front, now) + [Sent(now, p)];
      TimesOfSnoc(Stamp(front, now), Sent(now, p), q);
    }
  }

  lemma TickCounts(policy: Policy, n: Node, m: Node, now: Time)
    requires m.trunk.sent
          == n.trunk.sent + multiset(DueInfos(policy, Unexpired(CacheOf(policy, n), now), now))
    ensures Counts(policy, n, m, Some(Timed(now, Tick)))
  {
    var infos := DueInfos(policy, Unexpired(CacheOf(policy, n), now), now);
    hide DueInfos, Unexpired, PostponeAll;
    forall q | Governs(policy, q)
      ensures m.trunk.sent[q]
           == n.trunk.sent[q] + |TimesOf(Logged(policy, CacheOf(policy, n), Some(Timed(now, Tick))), q)|
    {
      StampCounts(infos, now, q);
      assert [] + Stamp(infos, now) == Stamp(infos, now);
    }
  }

  lemma PushCounts(policy: Policy, n: Node, m: Node, p: Packet, now: Time)
    requires m.trunk.sent == n.trunk.sent + multiset{p}
    ensures Counts(policy, n, m, Some(Timed(now, Push(p))))
  {
    forall q ensures |TimesOf(Logged(policy, CacheOf(policy, n), Some(Timed(now, Push(p)))), q)|
                  == if p == q then 1 else 0
    {
      PushLogs(policy, CacheOf(policy, n), p, now, q);
    }
    hide Logged, TimesOf, CacheOf, Governs;
  }

  lemma PushLogs(policy: Policy, items: seq<Cached>, p: Packet, now: Time, q: Packet)
    ensures |TimesOf(Logged(policy, items, Some(Timed(now, Push(p)))), q)| == if p == q then 1 else 0
  {
    hide Put;
    TimesOfSnoc([], Sent(now, p), q);
  }

  /** What the cache does not repeat may be sent without it. */
  lemma ForeignCounts(policy: Policy, n: Node, m: Node, more: multiset<Packet>)
    requires m.trunk.sent == n.trunk.sent + more && forall q <- more :: !Governs(policy, q)
    ensures Counts(policy, n, m, None)
  {
  }

  lemma DueIsGoverned(policy: Policy, items: seq<Cached>, now: Time)
    requires forall c <- items :: Governs(policy, c.info)
    ensures forall q <- multiset(DueInfos(policy, Unexpired(items, now), now)) :: Governs(policy, q)
  {
    var infos := seq(|items|, i requires 0 <= i < |items| => items[i].info);
    assert forall i | 0 <= i < |items| :: infos[i] == items[i].info;
    ResendingIsQuiet(policy, items, multiset(infos), now);
    forall q <- multiset(DueInfos(policy, Unexpired(items, now), now)) ensures Governs(policy, q) {
      assert q in DueInfos(policy, Unexpired(items, now), now);
      assert q in multiset(infos) && q in infos;
    }
  }

  /** From n to m the caches have changed by these events and sent what they send on them, and the new numbered
      packets are those pushed. */
  ghost predicate Caches(n: Node, m: Node, data: Option<Timed>, connect: Option<Timed>) {
    && m.trunk.cache == ItemsAfter(DataCache, n.trunk.cache, data)
    && m.connects == ItemsAfter(ConnectCache, n.connects, connect)
    && n.trunk.sent <= m.trunk.sent
    && (forall q <- m.trunk.sent | Indexed(q) && q !in n.trunk.sent :: IsPush(data, q))
    && (forall q | IsPush(data, q) :: q in m.trunk.sent)
    && Counts(DataCache, n, m, data) && Counts(ConnectCache, n, m, connect)
  }

  lemma LocalCaches(n: Node, oid: nat, e: Event, now: Time)
    requires NodeOk(n) && oid < |n.objs| && IsLocal(e) && Enabled(n.objs[oid].link, e)
    ensures var p := PacketMade(n, oid, e);
            Caches(n, LocalEvent(n, oid, e, now), if p.Some? then Some(Timed(now, Push(p.value))) else None, None)
  {
    hide NodeOk, Apply, Enabled, Host, LocalEvent, Caches;
    var m, before, after := LocalEvent(n, oid, e, now), n.objs[oid].link.calls, Apply(n.objs[oid].link, e).calls;
    LocalTrunk(n, oid, e, now);
    if |after| > |before| {
      NewCall(n, oid, e);
      HostSends(n.trunk, n.objs[oid].id, after[|before|], now);
      if PacketMade(n, oid, e).Some? {
        PushCaches(n, m, PacketMade(n, oid, e).value, now);
      } else {
        IdleCaches(n, m);
      }
    } else {
      IdleCaches(n, m);
    }
  }

  lemma PushCaches(n: Node, m: Node, p: Packet, now: Time)
    requires m.trunk.cache == Put(n.trunk.cache, p, now) && m.trunk.sent == n.trunk.sent + multiset{p}
    requires m.connects == n.connects && Indexed(p)
    ensures Caches(n, m, Some(Timed(now, Push(p))), None)
  {
    PushCounts(DataCache, n, m, p, now);
    ForeignCounts(ConnectCache, n, m, multiset{p});
    hide Counts;
  }

  /** A local event that makes a call makes one, on a link that is in the table. */
  lemma NewCall(n: Node, oid: nat, e: Event)
    requires NodeOk(n) && oid < |n.objs| && IsLocal(e) && Enabled(n.objs[oid].link, e)
    requires |Apply(n.objs[oid].link, e).calls| > |n.objs[oid].link.calls|
    ensures var before, after, id := n.objs[oid].link.calls, Apply(n.objs[oid].link, e).calls, n.objs[oid].id;
            && |after| == |before| + 1 && before <= after
            && (after[|before|].ReadData? ==> |after[|before|].data| <= MAX_CHUNK_SIZE)
            && id in n.trunk.table && n.trunk.table[id].nextIndex == |before| % 0x1_0000_0000
  {
    var l := n.objs[oid].link;
    CallEffect(l, e);
    ApplyOk(l, e);
    CallSize(Apply(l, e), |l.calls|);
    assert EntryOk(n.objs, n.objs[oid].id, n.trunk.table[n.objs[oid].id]);
  }

  lemma ReceiveCaches(n: Node, p: Packet, accepted: bool, now: Time)
    requires NodeOk(n)
    ensures Caches(n, Receive(n, p, accepted, now), None, if p.AckCreate? then Some(Timed(now, Ack(p.id))) else None)
  {
    hide Receive, Counts, Step, Without, NodeOk;
    var m := Receive(n, p, accepted, now);
    ReceiveSends(n, p, accepted, now);
    ForeignCounts(DataCache, n, m, Replies(n, p));
    ForeignCounts(ConnectCache, n, m, Replies(n, p));
    if p.AckCreate? {
      AckCaches(n, m, p.id, now);
    }
  }

  lemma AckCaches(n: Node, m: Node, id: Id, now: Time)
    requires Counts(ConnectCache, n, m, None)
    ensures Counts(ConnectCache, n, m, Some(Timed(now, Ack(id))))
    ensures ItemsAfter(ConnectCache, n.connects, Some(Timed(now, Ack(id)))) == Without(n.connects, id)
  {
    hide Without;
  }

  /** What a side answers at once. */
  function Replies(n: Node, p: Packet): multiset<Packet> {
    match p
    case CreateConnect(id, _, _) => multiset{AckCreate(id)}
    case Data(id, _, _) => if id in n.trunk.table then multiset{AckData(id)} else multiset{}
    case _ => multiset{}
  }

  lemma ReceiveSends(n: Node, p: Packet, accepted: bool, now: Time)
    requires NodeOk(n)
    ensures var m := Receive(n, p, accepted, now);
            && m.trunk.sent == n.trunk.sent + Replies(n, p) && m.trunk.cache == n.trunk.cache
            && m.connects == (if p.AckCreate? then Without(n.connects, p.id) else n.connects)
  {
    hide SendData, Stop, Run;
    assert p.Data? && p.id in n.trunk.table ==> EntryOk(n.objs, p.id, n.trunk.table[p.id]);
  }

  lemma AddConnectCaches(n: Node, id: Id, point: U32, now: Time)
    ensures Caches(n, AddConnect(n, id, point, now), None,
                   if id in n.trunk.table then None else Some(Timed(now, Push(CreateConnect(id, point, 300)))))
  {
    var m, p := AddConnect(n, id, point, now), CreateConnect(id, point, 300);
    hide Run;
    if id !in n.trunk.table {
      PushCounts(ConnectCache, n, m, p, now);
      ForeignCounts(DataCache, n, m, multiset{p});
    } else {
      IdleCaches(n, m);
    }
    hide Counts;
  }

  lemma LiveTickCaches(n: Node, now: Time)
    ensures Caches(n, LiveTick(n, now), None, None)
  {
    var m := LiveTick(n, now);
    hide Stop, Dies;
    var more := if T.LiveDue(n.trunk, now) then multiset(T.LivePackets(n.trunk, now)) else multiset{};
    ForeignCounts(DataCache, n, m, more);
    ForeignCounts(ConnectCache, n, m, more);
    hide Counts;
  }

  lemma ResendTickCaches(n: Node, now: Time)
    requires NodeOk(n)
    ensures Caches(n, ResendTick(n, now), Some(Timed(now, Tick)), None)
  {
    var m := ResendTick(n, now);
    ResendTickOk(n, now);
    TickCounts(DataCache, n, m, now);
    DueIsGoverned(DataCache, n.trunk.cache, now);
    hide DueInfos, Unexpired, PostponeAll, Counts, NodeOk, Step;
    ForeignCounts(ConnectCache, n, m, multiset(DueInfos(DataCache, Unexpired(n.trunk.cache, now), now)));
    TickItems(DataCache, n.trunk.cache, now);
  }

  lemma ConnectResendTickCaches(n: Node, now: Time)
    requires NodeOk(n)
    ensures Caches(n, ConnectResendTick(n, now), None, Some(Timed(now, Tick)))
  {
    var m := ConnectResendTick(n, now);
    ConnectResendTickOk(n, now);
    TickCounts(ConnectCache, n, m, now);
    DueIsGoverned(ConnectCache, n.connects, now);
    hide DueInfos, Unexpired, PostponeAll, Counts, NodeOk, Step;
    ForeignCounts(DataCache, n, m, multiset(DueInfos(ConnectCache, Unexpired(n.connects, now), now)));
    TickItems(ConnectCache, n.connects, now);
  }

  lemma TickItems(policy: Policy, items: seq<Cached>, now: Time)
    ensures ItemsAfter(policy, items, Some(Timed(now, Tick))) == PostponeAll(policy, Unexpired(items, now), now)
  {
    hide PostponeAll, Unexpired;
  }

  lemma IdleCaches(n: Node, m: Node)
    requires m.trunk.cache == n.trunk.cache && m.trunk.sent == n.trunk.sent && m.connects == n.connects
    ensures Caches(n, m, None, None)
  {
  }

  lemma DeliveryDecodes(s: P.System, side: Side, p: Packet)
    requires SystemOk(s) && p in P.At(s, Other(side)).trunk.sent
    ensures p.Data? ==> |p.data| < 0x1_0000_0000
    ensures var received := Wire.Decode(side, Wire.Encode(Other(side), p));
            received == Some(p) || (received == None && !(p.AckCreate? && side.ClientSide?))
    ensures p.AckCreate? && side.ServerSide? ==> Wire.Decode(side, Wire.Encode(Other(side), p)) == None
  {
    SentFits(s, Other(side), p);
    Wire.DecodedOrDropped(Other(side), p);
    if p.AckCreate? {
      AckIsForClient(p.id, side);
    }
  }

  lemma AckIsForClient(id: Id, side: Side)
    ensures Wire.Decode(side, Wire.Encode(Other(side), AckCreate(id)))
         == if side.ClientSide? then Some(AckCreate(id)) else None
  {
    if side.ClientSide? {
      Wire.WireRoundTrip(ServerSide, AckCreate(id));
    } else {
      Wire.HeaderFields(id, Wire.ACK_CREATE_CONNECT, []);
      assert Wire.Header(id, Wire.ACK_CREATE_CONNECT) + [] == Wire.Encode(ClientSide, AckCreate(id));
    }
  }

  lemma DeliveryCaches(s: P.System, side: Side, a: P.Action)
    requires SystemOk(s) && P.Possible(s, a) && a.Deliver? && a.side == side
    ensures var n := P.At(s, side);
            Caches(n, NodeDo(n, side, a), CacheEventAt(DataCache, n, side, a), CacheEventAt(ConnectCache, n, side, a))
  {
    hide SystemOk, Caches, Receive, Wire.Decode, Wire.Encode;
    var n := P.At(s, side);
    DeliveryDecodes(s, side, a.packet);
    NodeIsOk(s, side);
    ReceiveCaches(n, a.packet, a.accepted, a.now);
    IdleCaches(n, n);
  }

  lemma NodeCaches(n: Node, side: Side, a: P.Action)
    requires NodeOk(n) && !a.Deliver?
    requires a.Local? ==> a.oid < |n.objs| && IsLocal(a.event) && Enabled(n.objs[a.oid].link, a.event)
    ensures Caches(n, NodeDo(n, side, a), CacheEventAt(DataCache, n, side, a), CacheEventAt(ConnectCache, n, side, a))
  {
    hide NodeOk, Caches, PacketMade, Apply, Enabled, LocalEvent, AddConnect, LiveTick, ResendTick, ConnectResendTick;
    match a
    case NewConnect(id, point, now) => AddConnectCaches(n, id, point, now);
    case Local(_, oid, e, now) => LocalCaches(n, oid, e, now);
    case LiveTimer(_, now) => LiveTickCaches(n, now);
    case ResendTimer(_, now) => ResendTickCaches(n, now);
    case ConnectResendTimer(now) => ConnectResendTickCaches(n, now);
  }

  /** An action changes the caches of a side as its cache events say; the new numbered packets are those pushed. */
  lemma StepCaches(s: P.System, a: P.Action, side: Side)
    requires SystemOk(s) && P.Possible(s, a)
    ensures Caches(P.At(s, side), P.At(P.Do(s, a), side),
                   CacheEventOf(DataCache, s, a, side), CacheEventOf(ConnectCache, s, a, side))
  {
    hide SystemOk, NodeOk, Caches, CacheEventAt, NodeDo, P.Do, Enabled;
    Delivery.SystemHasNodes(s);
    if !P.AtSide(a, side) {
      DoAtSide(s, a, Other(side));
      IdleCaches(P.At(s, side), P.At(s, side));
    } else {
      DoAtSide(s, a, side);
      if a.Deliver? {
        DeliveryCaches(s, side, a);
      } else {
        NodeCaches(P.At(s, side), side, a);
      }
    }
  }

  // ----- Whole runs

  lemma StepsFirst(policy: Policy, st: CacheState, e: Timed, es: seq<Timed>)
    ensures Steps(policy, st, [e] + es) == Steps(policy, Step(policy, st, e), es)
  {
    assert ([e] + es)[1..] == es;
  }

  function StepOf(policy: Policy, st: CacheState, e: Option<Timed>): CacheState {
    if e.None? then st else Step(policy, st, e.value)
  }

  lemma CacheRunFirst(policy: Policy, st: CacheState, s: P.System, run: seq<P.Action>, side: Side)
    requires P.Feasible(s, run) && run != []
    ensures Steps(policy, st, CacheRun(policy, s, run, side))
         == Steps(policy, StepOf(policy, st, CacheEventOf(policy, s, run[0], side)),
                  CacheRun(policy, P.Do(s, run[0]), run[1..], side))
  {
    var e := CacheEventOf(policy, s, run[0], side);
    if e.Some? {
      StepsFirst(policy, st, e.value, CacheRun(policy, P.Do(s, run[0]), run[1..], side));
    }
  }

  lemma StepMatches(policy: Policy, st: CacheState, s: P.System, a: P.Action, side: Side)
    requires SystemOk(s) && P.Possible(s, a) && st.items == CacheOf(policy, P.At(s, side))
    ensures StepOf(policy, st, CacheEventOf(policy, s, a, side)).items == CacheOf(policy, P.At(P.Do(s, a), side))
  {
    hide SystemOk, CacheEventOf, P.Do, Enabled;
    StepCaches(s, a, side);
  }

  /** The cache of a side after a run is what its own events make of it. */
  lemma {:induction false} RunCaches(policy: Policy, st: CacheState, s: P.System, run: seq<P.Action>, side: Side)
    requires SystemOk(s) && P.Feasible(s, run) && st.items == CacheOf(policy, P.At(s, side))
    ensures Steps(policy, st, CacheRun(policy, s, run, side)).items == CacheOf(policy, P.At(P.After(s, run), side))
    decreases run
  {
    if run != [] {
      hide SystemOk, CacheEventOf, StepOf, Step, P.Do, P.Possible, Steps;
      StepOk(s, run[0]);
      StepMatches(policy, st, s, run[0], side);
      CacheRunFirst(policy, st, s, run, side);
      RunCaches(policy, StepOf(policy, st, CacheEventOf(policy, s, run[0], side)), P.Do(s, run[0]), run[1..], side);
    }
  }

  // ----- Clocks

  /** The clock of a side does not go back. */
  predicate Ordered(run: seq<P.Action>, side: Side, from: Time) {
    run == [] ||
    if P.AtSide(run[0], side) then from <= run[0].now && Ordered(run[1..], side, run[0].now)
    else Ordered(run[1..], side, from)
  }

  lemma MonotoneEarlier(es: seq<Timed>, from: Time, earlier: Time)
    requires Monotone(es, from) && earlier <= from
    ensures Monotone(es, earlier)
  {
  }

  lemma {:induction false} OrderedMonotone(policy: Policy, s: P.System, run: seq<P.Action>, side: Side, from: Time)
    requires P.Feasible(s, run) && Ordered(run, side, from)
    ensures Monotone(CacheRun(policy, s, run, side), from)
    decreases run
  {
    if run != [] {
      var a, rest := run[0], CacheRun(policy, P.Do(s, run[0]), run[1..], side);
      var e := CacheEventOf(policy, s, a, side);
      assert e.Some? ==> P.AtSide(a, side) && e.value.at == a.now;
      OrderedMonotone(policy, P.Do(s, a), run[1..], side, if P.AtSide(a, side) then a.now else from);
      MonotoneEarlier(rest, if P.AtSide(a, side) then a.now else from, from);
      if e.Some? {
        assert ([e.value] + rest)[1..] == rest;
      }
    }
  }

  // ----- A numbered packet is pushed once

  ghost predicate OneLink(objs: seq<Obj>, id: Id) {
    forall i, j | 0 <= i < |objs| && 0 <= j < |objs| && objs[i].id == id && objs[j].id == id :: i == j
  }

  lemma OneLinkBefore(objs: seq<Obj>, objs': seq<Obj>, id: Id)
    requires Extends(objs, objs') && OneLink(objs', id)
    ensures OneLink(objs, id)
  {
  }

  /** What is pushed has not been sent before. */
  lemma PushIsNew(s: P.System, a: P.Action, side: Side, p: Packet)
    requires SystemOk(s) && P.Possible(s, a) && IsPush(CacheEventOf(DataCache, s, a, side), p)
    requires OneLink(P.At(P.Do(s, a), side).objs, p.id) && Fits(P.At(P.Do(s, a), side).objs, p.id)
    ensures p !in P.At(s, side).trunk.sent
  {
    StepExtends(s, a, side);
    Delivery.SystemHasNodes(s);
    hide SystemOk, NodeOk, Enabled, Apply, Fits, OneLink, PacketMade, Extends;
    OneLinkBefore(P.At(s, side).objs, P.At(P.Do(s, a), side).objs, p.id);
    FitsBefore(P.At(s, side).objs, P.At(P.Do(s, a), side).objs, p.id);
    MadeIsNew(P.At(s, side), a.oid, a.event, p);
  }

  lemma ObjectFits(objs: seq<Obj>, oid: nat)
    requires oid < |objs| && Fits(objs, objs[oid].id)
    ensures |objs[oid].link.calls| <= BAD_INDEX
  {
  }

  lemma MadeIsNew(n: Node, oid: nat, e: Event, p: Packet)
    requires NodeOk(n) && oid < |n.objs| && IsLocal(e) && Enabled(n.objs[oid].link, e)
    requires PacketMade(n, oid, e) == Some(p) && OneLink(n.objs, p.id) && Fits(n.objs, p.id)
    ensures p !in n.trunk.sent
  {
    hide NodeOk, Enabled, Apply, Fits, OneLink;
    NewCall(n, oid, e);
    ObjectFits(n.objs, oid);
    if p in n.trunk.sent {
      SentIsOld(n, oid, p);
    }
  }

  lemma SentIsOld(n: Node, oid: nat, p: Packet)
    requires NodeOk(n) && oid < |n.objs| && OneLink(n.objs, p.id) && Fits(n.objs, p.id)
    requires p in n.trunk.sent && Indexed(p) && p.id == n.objs[oid].id
    ensures p.index < |n.objs[oid].link.calls| <= BAD_INDEX
  {
    assert SaidBySome(n.objs, p.id, p);
  }

  lemma PushesFirst(policy: Policy, s: P.System, run: seq<P.Action>, side: Side, p: Packet)
    requires P.Feasible(s, run) && run != []
    ensures Pushes(CacheRun(policy, s, run, side), p)
         == (if IsPush(CacheEventOf(policy, s, run[0], side), p) then 1 else 0)
          + Pushes(CacheRun(policy, P.Do(s, run[0]), run[1..], side), p)
  {
    var e, rest := CacheEventOf(policy, s, run[0], side), CacheRun(policy, P.Do(s, run[0]), run[1..], side);
    hide CacheEventOf;
    if e.Some? {
      assert ([e.value] + rest)[1..] == rest;
    }
  }

  lemma {:induction false} PushedOnce(s: P.System, run: seq<P.Action>, side: Side, p: Packet)
    requires SystemOk(s) && P.Feasible(s, run) && Indexed(p)
    requires OneLink(P.At(P.After(s, run), side).objs, p.id) && Fits(P.At(P.After(s, run), side).objs, p.id)
    ensures Pushes(CacheRun(DataCache, s, run, side), p) <= if p in P.At(s, side).trunk.sent then 0 else 1
    decreases run
  {
    if run != [] {
      var s1 := P.Do(s, run[0]);
      StepOk(s, run[0]);
      RunExtends(s1, run[1..], side);
      OneLinkBefore(P.At(s1, side).objs, P.At(P.After(s, run), side).objs, p.id);
      FitsBefore(P.At(s1, side).objs, P.At(P.After(s, run), side).objs, p.id);
      hide SystemOk, CacheEventOf, OneLink, Fits, Extends, ItemsAfter;
      StepCaches(s, run[0], side);
      PushesFirst(DataCache, s, run, side, p);
      if IsPush(CacheEventOf(DataCache, s, run[0], side), p) {
        PushIsNew(s, run[0], side, p);
      }
      PushedOnce(s1, run[1..], side, p);
    }
  }

  // ----- What is logged is what is sent

  lemma {:induction false} OnlyMembers(items: seq<Cached>, p: Packet)
    requires forall c <- items :: c.info != p
    ensures Only(items, p) == []
  {
    if items != [] {
      OnlyMembers(items[..|items| - 1], p);
    }
  }

  lemma UnsentIsNotCached(n: Node, p: Packet)
    requires NodeOk(n) && p !in n.trunk.sent
    ensures Only(n.trunk.cache, p) == []
  {
    OnlyMembers(n.trunk.cache, p);
  }

  lemma StepLogs(policy: Policy, st: CacheState, e: Option<Timed>, p: Packet)
    ensures |TimesOf(StepOf(policy, st, e).log, p)| == |TimesOf(st.log, p)| + |TimesOf(Logged(policy, st.items, e), p)|
  {
    if e.Some? {
      hide TimesOf, Put, Without, Unexpired, PostponeAll, DueInfos;
      var more := Logged(policy, st.items, e);
      TimesOfConcat(st.log, more, p);
      assert StepOf(policy, st, e).log == st.log + more;
    }
  }

  /** In a run from any reachable state, a packet that a cache repeats is sent exactly as often as the cache logs. */
  lemma {:induction false} LogIsComplete(policy: Policy, st: CacheState, s: P.System, run: seq<P.Action>, side: Side,
                                         p: Packet)
    requires SystemOk(s) && P.Feasible(s, run) && st.items == CacheOf(policy, P.At(s, side)) && Governs(policy, p)
    ensures P.At(P.After(s, run), side).trunk.sent[p] + |TimesOf(st.log, p)|
         == P.At(s, side).trunk.sent[p] + |TimesOf(Steps(policy, st, CacheRun(policy, s, run, side)).log, p)|
    decreases run
  {
    if run != [] {
      hide SystemOk, CacheEventOf, StepOf, Logged, Step, P.Do, P.Possible, Steps, TimesOf, ItemsAfter;
      var e := CacheEventOf(policy, s, run[0], side);
      StepOk(s, run[0]);
      StepCaches(s, run[0], side);
      StepMatches(policy, st, s, run[0], side);
      StepLogs(policy, st, e, p);
      CacheRunFirst(policy, st, s, run, side);
      LogIsComplete(policy, StepOf(policy, st, e), P.Do(s, run[0]), run[1..], side, p);
    }
  }

  /** In every run of the system in which the clock of a side does not go back, a numbered packet of a connection
      with one link object on that side is sent at most 7 times, more than 300 ms apart and not later than 2000 ms
      after the first time; and these are all the times it is sent. */
  lemma NumberedPacketIsSentBoundedly(c: Time, v: Time, run: seq<P.Action>, side: Side, from: Time, p: Packet)
    requires P.Feasible(P.Start(c, v), run) && Ordered(run, side, from) && Indexed(p)
    requires OneLink(P.At(P.After(P.Start(c, v), run), side).objs, p.id)
    requires Fits(P.At(P.After(P.Start(c, v), run), side).objs, p.id)
    ensures var t := TimesOf(LogOf(DataCache, P.Start(c, v), run, side), p);
            && |t| <= MAX_COPIES && Bounded(DataCache, t)
            && |t| == P.At(P.After(P.Start(c, v), run), side).trunk.sent[p]
  {
    var start := P.Start(c, v);
    StartSystemOk(c, v);
    hide SystemOk, OneLink, Fits, P.Do, P.Possible, Ordered, CacheRun, Steps, Bounded, TimesOf;
    OrderedMonotone(DataCache, start, run, side, from);
    PushedOnce(start, run, side, p);
    ResendsAreBounded(DataCache, CacheRun(DataCache, start, run, side), p, from);
    NothingSent(p);
    LogIsComplete(DataCache, EMPTY_CACHE, start, run, side, p);
  }

  // ----- Connections with several link objects

  /** The link objects that made the call this packet stands for. */
  ghost function Sayers(objs: seq<Obj>, p: Packet): set<nat>
    requires Indexed(p)
  {
    set i: nat | i < |objs| && Said(objs[i], p)
  }

  lemma SayersGrow(objs: seq<Obj>, objs': seq<Obj>, p: Packet)
    requires Extends(objs, objs') && Indexed(p)
    ensures Sayers(objs, p) <= Sayers(objs', p)
  {
  }

  lemma SetsGrow(a: set<nat>, b: set<nat>, x: nat)
    requires a <= b
    ensures |a| <= |b| && (x in b && x !in a ==> |a| + 1 <= |b|)
  {
    assert b == a + (b - a);
    if x in b && x !in a {
      assert x in b - a;
    }
  }

  /** A push of p adds to the link objects that said it. */
  lemma PushIsSaid(s: P.System, a: P.Action, side: Side, p: Packet)
    requires SystemOk(s) && P.Possible(s, a) && IsPush(CacheEventOf(DataCache, s, a, side), p)
    requires Fits(P.At(P.Do(s, a), side).objs, p.id)
    ensures a.Local? && Indexed(p)
    ensures a.oid !in Sayers(P.At(s, side).objs, p) && a.oid in Sayers(P.At(P.Do(s, a), side).objs, p)
  {
    hide SystemOk, NodeOk, Enabled, Apply, Extends, P.Do, Fits;
    StepExtends(s, a, side);
    StepProjects(s, a, side, a.oid);
    Delivery.SystemHasNodes(s);
    FitsBefore(P.At(s, side).objs, P.At(P.Do(s, a), side).objs, p.id);
    NewCall(P.At(s, side), a.oid, a.event);
    ObjectFits(P.At(s, side).objs, a.oid);
  }

  lemma {:induction false} PushedPerLink(s: P.System, run: seq<P.Action>, side: Side, p: Packet)
    requires SystemOk(s) && P.Feasible(s, run) && Indexed(p) && Fits(P.At(P.After(s, run), side).objs, p.id)
    ensures Pushes(CacheRun(DataCache, s, run, side), p) + |Sayers(P.At(s, side).objs, p)|
         <= |Sayers(P.At(P.After(s, run), side).objs, p)|
    decreases run
  {
    if run != [] {
      hide SystemOk, CacheEventOf, Fits, Extends, Sayers, P.Do, P.Possible;
      var s1 := P.Do(s, run[0]);
      StepOk(s, run[0]);
      StepExtends(s, run[0], side);
      RunExtends(s1, run[1..], side);
      FitsBefore(P.At(s1, side).objs, P.At(P.After(s, run), side).objs, p.id);
      SayersGrow(P.At(s, side).objs, P.At(s1, side).objs, p);
      PushesFirst(DataCache, s, run, side, p);
      var pusher := 0;
      if IsPush(CacheEventOf(DataCache, s, run[0], side), p) {
        PushIsSaid(s, run[0], side, p);
        pusher := run[0].oid;
      }
      SetsGrow(Sayers(P.At(s, side).objs, p), Sayers(P.At(s1, side).objs, p), pusher);
      PushedPerLink(s1, run[1..], side, p);
    }
  }

  /** In every run of the system, whatever the clocks do, a numbered packet is sent at most 7 times for each link
      object of the connection that made the call it stands for. */
  lemma NumberedPacketIsSentBoundedlyPerLink(c: Time, v: Time, run: seq<P.Action>, side: Side, p: Packet)
    requires P.Feasible(P.Start(c, v), run) && Indexed(p)
    requires Fits(P.At(P.After(P.Start(c, v), run), side).objs, p.id)
    ensures var n := P.At(P.After(P.Start(c, v), run), side); n.trunk.sent[p] <= MAX_COPIES * |Sayers(n.objs, p)|
  {
    var start := P.Start(c, v);
    StartSystemOk(c, v);
    PushedPerLink(start, run, side, p);
    AtMostSevenCopiesPerPush(DataCache, CacheRun(DataCache, start, run, side), p);
    LogIsComplete(DataCache, EMPTY_CACHE, start, run, side, p);
    var pushes := Pushes(CacheRun(DataCache, start, run, side), p);
    var sayers := |Sayers(P.At(P.After(start, run), side).objs, p)|;
    assert MAX_COPIES * pushes <= MAX_COPIES * sayers;
  }

  // ----- Copies that are sent

  predicate IsTick(a: P.Action, side: Side) {
    a.ResendTimer? && a.side == side
  }

  /** While the clock has not passed until, resend ticks of the side are at most g apart, the last one at last. */
  predicate TicksDense(run: seq<P.Action>, side: Side, last: Time, g: Time, until: Time) {
    run == [] ||
    if IsTick(run[0], side) then (last <= until ==> run[0].now - last <= g)
                                 && TicksDense(run[1..], side, run[0].now, g, until)
    else TicksDense(run[1..], side, last, g, until)
  }

  predicate TicksAfter(run: seq<P.Action>, side: Side, time: Time) {
    run != [] && ((IsTick(run[0], side) && run[0].now > time) || TicksAfter(run[1..], side, time))
  }

  lemma {:induction false} CacheTicks(s: P.System, run: seq<P.Action>, side: Side, last: Time, g: Time, until: Time)
    requires P.Feasible(s, run)
    ensures TicksDense(run, side, last, g, until) ==> Dense(CacheRun(DataCache, s, run, side), last, g, until)
    ensures TicksAfter(run, side, until) ==> TickAfter(CacheRun(DataCache, s, run, side), until)
    decreases run
  {
    if run != [] {
      var e, rest := CacheEventOf(DataCache, s, run[0], side), CacheRun(DataCache, P.Do(s, run[0]), run[1..], side);
      assert IsTick(run[0], side) <==> e.Some? && e.value.event.Tick?;
      assert IsTick(run[0], side) ==> e == Some(Timed(run[0].now, Tick));
      CacheTicks(P.Do(s, run[0]), run[1..], side, if IsTick(run[0], side) then run[0].now else last, g, until);
      hide CacheEventOf, P.Do, P.Possible;
      if e.Some? {
        assert ([e.value] + rest)[1..] == rest;
        TickAfterFirst(e.value, rest, until);
      }
    }
  }

  lemma TickAfterFirst(e: Timed, rest: seq<Timed>, time: Time)
    ensures TickAfter([e] + rest, time) <==> (e.event.Tick? && e.at > time) || TickAfter(rest, time)
  {
    var es := [e] + rest;
    assert e in es && forall f <- rest :: f in es;
  }

  /** The data cache knows no acknowledgements, and an unpushed packet is not pushed. */
  lemma {:induction false} DataRunIsUndisturbed(s: P.System, run: seq<P.Action>, side: Side, p: Packet)
    requires P.Feasible(s, run) && Pushes(CacheRun(DataCache, s, run, side), p) == 0
    ensures Undisturbed(CacheRun(DataCache, s, run, side), p)
    decreases run
  {
    if run != [] {
      PushesFirst(DataCache, s, run, side, p);
      DataRunIsUndisturbed(P.Do(s, run[0]), run[1..], side, p);
      var e := CacheEventOf(DataCache, s, run[0], side);
      assert e.Some? ==> !e.value.event.Ack?;
    }
  }

  /** A numbered packet of a connection with one link object, pushed by the first action of a run: if from then until
      its deadline has passed the resend ticks of the side are at most g apart, at least floor(2000 / (300 + g))
      copies follow the first (times in ms). */
  lemma NumberedPacketIsResent(s: P.System, run: seq<P.Action>, side: Side, p: Packet, g: Time)
    requires SystemOk(s) && P.Feasible(s, run) && run != []
    requires IsPush(CacheEventOf(DataCache, s, run[0], side), p) && Indexed(p)
    requires OneLink(P.At(P.After(s, run), side).objs, p.id) && Fits(P.At(P.After(s, run), side).objs, p.id)
    requires 0 <= g && Ordered(run[1..], side, run[0].now)
    requires TicksDense(run[1..], side, run[0].now, g, run[0].now + DEADLINE_TIMEOUT)
    requires TicksAfter(run[1..], side, run[0].now + DEADLINE_TIMEOUT)
    ensures P.At(P.After(s, run), side).trunk.sent[p] - 1 >= DEADLINE_TIMEOUT / (RESEND_TIMEOUT + g)
  {
    hide SystemOk, CacheEventOf, OneLink, Fits, P.Do, P.Possible, Ordered, TicksDense, TicksAfter, Undisturbed, Dense;
    hide Steps, Step, TimesOf, Monotone, CacheRun, IsPush, TickAfter;
    var s1, t0, st := P.Do(s, run[0]), run[0].now, CacheState(P.At(s, side).trunk.cache, []);
    NothingSent(p);
    PushHasTime(s, run[0], side, p);
    FirstPushIsLast(s, run, side, p);
    CacheTicks(s1, run[1..], side, t0, g, t0 + DEADLINE_TIMEOUT);
    OrderedMonotone(DataCache, s1, run[1..], side, t0);
    ResendsHappen(DataCache, st, t0, p, CacheRun(DataCache, s1, run[1..], side), g);
    CacheRunFirst(DataCache, st, s, run, side);
    LogIsComplete(DataCache, st, s, run, side, p);
  }

  /** The copies of such a packet, whatever the ticks: after it was pushed by the first action of a run, they leave
      exactly at these times. */
  lemma NumberedPacketLeavesExactly(s: P.System, run: seq<P.Action>, side: Side, p: Packet)
    requires SystemOk(s) && P.Feasible(s, run) && run != [] && Ordered(run[1..], side, run[0].now)
    requires IsPush(CacheEventOf(DataCache, s, run[0], side), p) && Indexed(p)
    requires OneLink(P.At(P.After(s, run), side).objs, p.id) && Fits(P.At(P.After(s, run), side).objs, p.id)
    ensures var t0, after := run[0].now, CacheRun(DataCache, P.Do(s, run[0]), run[1..], side);
            var st := CacheState(P.At(s, side).trunk.cache, []);
            && TimesOf(Steps(DataCache, st, CacheRun(DataCache, s, run, side)).log, p)
            == [t0] + CopyTimes(DataCache, t0, t0, after)
            && P.At(P.After(s, run), side).trunk.sent[p] == 1 + |CopyTimes(DataCache, t0, t0, after)|
  {
    hide SystemOk, CacheEventOf, OneLink, Fits, P.Do, P.Possible, Ordered, Undisturbed;
    hide Steps, Step, TimesOf, Monotone, CacheRun, IsPush, CopyTimes;
    var s1, t0, st := P.Do(s, run[0]), run[0].now, CacheState(P.At(s, side).trunk.cache, []);
    NothingSent(p);
    PushHasTime(s, run[0], side, p);
    FirstPushIsLast(s, run, side, p);
    OrderedMonotone(DataCache, s1, run[1..], side, t0);
    PushedCopiesLeaveExactly(DataCache, st, t0, p, CacheRun(DataCache, s1, run[1..], side));
    CacheRunFirst(DataCache, st, s, run, side);
    LogIsComplete(DataCache, st, s, run, side, p);
  }

  lemma NothingSent(p: Packet)
    ensures TimesOf([], p) == []
  {
  }

  lemma PushHasTime(s: P.System, a: P.Action, side: Side, p: Packet)
    requires P.Possible(s, a) && IsPush(CacheEventOf(DataCache, s, a, side), p)
    ensures CacheEventOf(DataCache, s, a, side) == Some(Timed(a.now, Push(p)))
  {
    hide PacketMade, Enabled;
  }

  lemma FirstPushIsLast(s: P.System, run: seq<P.Action>, side: Side, p: Packet)
    requires SystemOk(s) && P.Feasible(s, run) && run != [] && Indexed(p)
    requires IsPush(CacheEventOf(DataCache, s, run[0], side), p)
    requires OneLink(P.At(P.After(s, run), side).objs, p.id) && Fits(P.At(P.After(s, run), side).objs, p.id)
    ensures p !in P.At(s, side).trunk.sent && Only(P.At(s, side).trunk.cache, p) == []
    ensures Undisturbed(CacheRun(DataCache, P.Do(s, run[0]), run[1..], side), p)
  {
    hide SystemOk, CacheEventOf, OneLink, Fits, Extends, P.Do, P.Possible, NodeOk, Undisturbed, CacheRun, Only;
    var s1 := P.Do(s, run[0]);
    StepOk(s, run[0]);
    RunExtends(s1, run[1..], side);
    OneLinkBefore(P.At(s1, side).objs, P.At(P.After(s, run), side).objs, p.id);
    FitsBefore(P.At(s1, side).objs, P.At(P.After(s, run), side).objs, p.id);
    PushIsNew(s, run[0], side, p);
    Delivery.SystemHasNodes(s);
    UnsentIsNotCached(P.At(s, side), p);
    PushedOnce(s, run, side, p);
    PushesFirst(DataCache, s, run, side, p);
    DataRunIsUndisturbed(s1, run[1..], side, p);
  }

  // ----- Connect requests

  ghost predicate Present(objs: seq<Obj>, id: Id) {
    exists i :: 0 <= i < |objs| && objs[i].id == id
  }

  /** A request is made for an identifier that has no link yet, or a second link gets it. */
  lemma RequestIsNew(s: P.System, a: P.Action, p: Packet)
    requires P.Possible(s, a) && IsPush(CacheEventOf(ConnectCache, s, a, ClientSide), p)
    requires OneLink(P.Do(s, a).client.objs, p.id)
    ensures !Present(s.client.objs, p.id) && Present(P.Do(s, a).client.objs, p.id)
  {
    var objs, objs' := s.client.objs, P.Do(s, a).client.objs;
    assert |objs'| == |objs| + 1 && objs'[|objs|].id == p.id;
    assert forall i | 0 <= i < |objs| :: objs'[i] == objs[i];
  }

  lemma StaysPresent(objs: seq<Obj>, objs': seq<Obj>, id: Id)
    requires Extends(objs, objs') && Present(objs, id)
    ensures Present(objs', id)
  {
    var i :| 0 <= i < |objs| && objs[i].id == id;
    assert objs'[i].id == id;
  }

  lemma {:induction false} RequestedOnce(s: P.System, run: seq<P.Action>, p: Packet)
    requires SystemOk(s) && P.Feasible(s, run) && OneLink(P.After(s, run).client.objs, p.id)
    ensures Pushes(CacheRun(ConnectCache, s, run, ClientSide), p) <= if Present(s.client.objs, p.id) then 0 else 1
    decreases run
  {
    if run != [] {
      var s1 := P.Do(s, run[0]);
      StepOk(s, run[0]);
      StepExtends(s, run[0], ClientSide);
      RunExtends(s1, run[1..], ClientSide);
      OneLinkBefore(s1.client.objs, P.After(s, run).client.objs, p.id);
      hide SystemOk, CacheEventOf, OneLink, Extends;
      PushesFirst(ConnectCache, s, run, ClientSide, p);
      if IsPush(CacheEventOf(ConnectCache, s, run[0], ClientSide), p) {
        RequestIsNew(s, run[0], p);
      } else if Present(s.client.objs, p.id) {
        StaysPresent(s.client.objs, s1.client.objs, p.id);
      }
      RequestedOnce(s1, run[1..], p);
    }
  }

  /** The same bounds, at least 300 ms apart, for the connect request of an identifier that the client uses once. */
  lemma RequestIsSentBoundedly(c: Time, v: Time, run: seq<P.Action>, from: Time, p: Packet)
    requires P.Feasible(P.Start(c, v), run) && Ordered(run, ClientSide, from)
    requires OneLink(P.After(P.Start(c, v), run).client.objs, p.id) && p.CreateConnect?
    ensures var t := TimesOf(LogOf(ConnectCache, P.Start(c, v), run, ClientSide), p);
            |t| <= MAX_COPIES && Bounded(ConnectCache, t) && |t| == P.After(P.Start(c, v), run).client.trunk.sent[p]
  {
    var start := P.Start(c, v);
    StartSystemOk(c, v);
    hide SystemOk, OneLink, P.Do, P.Possible, Ordered, CacheRun, Steps;
    OrderedMonotone(ConnectCache, start, run, ClientSide, from);
    RequestedOnce(start, run, p);
    ResendsAreBounded(ConnectCache, CacheRun(ConnectCache, start, run, ClientSide), p, from);
    LogIsComplete(ConnectCache, EMPTY_CACHE, start, run, ClientSide, p);
  }

  /** Once the client has processed an acknowledgement, whatever the system does then, the client sends no request for
      that identifier again, provided it does not use it for a second link. */
  lemma NoRequestAfterAck(s: P.System, run: seq<P.Action>, p: Packet)
    requires SystemOk(s) && P.Feasible(s, run) && run != [] && p.CreateConnect?
    requires run[0].Deliver? && run[0].side.ClientSide? && run[0].packet == AckCreate(p.id)
    requires Present(s.client.objs, p.id) && OneLink(P.After(s, run).client.objs, p.id)
    ensures P.After(s, run).client.trunk.sent[p] == s.client.trunk.sent[p]
  {
    hide SystemOk, Extends, Present, OneLink, Enabled, P.Do, Steps, CacheRun;
    var st := CacheState(s.client.connects, []);
    StepOk(s, run[0]);
    StepExtends(s, run[0], ClientSide);
    StaysPresent(s.client.objs, P.Do(s, run[0]).client.objs, p.id);
    RequestedOnce(P.Do(s, run[0]), run[1..], p);
    QuietAfterAck(ConnectCache, st, run[0].now, p, CacheRun(ConnectCache, P.Do(s, run[0]), run[1..], ClientSide));
    AckFirst(s, run, p.id);
    LogIsComplete(ConnectCache, st, s, run, ClientSide, p);
  }

  lemma AckFirst(s: P.System, run: seq<P.Action>, id: Id)
    requires P.Feasible(s, run) && run != []
    requires run[0].Deliver? && run[0].side.ClientSide? && run[0].packet == AckCreate(id)
    ensures CacheRun(ConnectCache, s, run, ClientSide)
         == [Timed(run[0].now, Ack(id))] + CacheRun(ConnectCache, P.Do(s, run[0]), run[1..], ClientSide)
  {
    hide P.Do, Enabled;
  }
}
