/** Live packets and dead-link stops in runs of the whole system. */
module SystemLive {
  import opened Bytes
  import opened Packets
  import opened PacketCache
  import opened OutLinkSpec
  import opened Node
  import opened NodeProofs
  import opened EndToEnd
  import opened Projection
  import opened BothEndsLive
  import S = SystemResending
  import Wire
  import Delivery
  import L = LiveLinks
  import P = Protocol
  import T = Trunk

  // ----- A run of the system as a run of one link table

  function Happens(now: Time, e: L.TableEvent<nat>): Option<L.At<nat>> {
    Some(L.At(now, e))
  }

  function CallEvent(id: Id, call: HosterCall): L.TableEvent<nat> {
    match call
    case ReadData(_) => L.NumberTaken(id)
    case Close => L.Removed(id)
  }

  /** What an action does to the table of the node it happens at, if anything. */
  function TableEventAt(n: Node, side: Side, a: P.Action): Option<L.At<nat>>
    requires a.Local? ==> a.oid < |n.objs| && IsLocal(a.event) && Enabled(n.objs[a.oid].link, a.event)
  {
    match a
    case NewConnect(id, _, now) => if id in n.trunk.table then None else Happens(now, L.Added(id, |n.objs|))
    case Local(_, oid, e, now) =>
      var before, after := n.objs[oid].link.calls, Apply(n.objs[oid].link, e).calls;
      if |after| > |before| then Happens(now, CallEvent(n.objs[oid].id, after[|after| - 1])) else None
    case Deliver(_, p, accepted, now) =>
      if p.Live? then Happens(now, L.LivePacket(p.id))
      else if p.CreateConnect? && side.ServerSide? && accepted && p.id !in n.trunk.table
      then Happens(now, L.Added(p.id, |n.objs|)) else None
    case LiveTimer(_, now) => Happens(now, L.LiveTimer)
    case _ => None
  }

  function TableEventOf(s: P.System, a: P.Action, side: Side): Option<L.At<nat>>
    requires P.Possible(s, a)
  {
    if P.AtSide(a, side) then TableEventAt(P.At(s, side), side, a) else None
  }

  function TableRun(s: P.System, run: seq<P.Action>, side: Side): seq<L.At<nat>>
    requires P.Feasible(s, run)
    decreases run
  {
    if run == [] then []
    else
      var rest := TableRun(P.Do(s, run[0]), run[1..], side);
      match TableEventOf(s, run[0], side)
      case None => rest
      case Some(e) => [e] + rest
  }

  /** The same table and live timer, and the same live packets sent. */
  ghost predicate Like(t: T.Trunk<nat>, u: T.Trunk<nat>) {
    t.table == u.table && t.nextLive == u.nextLive && SameLive(t.sent, u.sent)
  }

  ghost predicate SameLive(a: multiset<Packet>, b: multiset<Packet>) {
    forall id: Id :: a[Live(id)] == b[Live(id)]
  }

  lemma NoLive(a: multiset<Packet>, b: multiset<Packet>, more: multiset<Packet>)
    requires b == a + more && forall q <- more :: !q.Live?
    ensures SameLive(a, b)
  {
  }

  lemma ResendsNoLive(policy: Policy, n: Node, m: Node, items: seq<Cached>, now: Time)
    requires forall c <- items :: S.Governs(policy, c.info)
    requires m.trunk.sent == n.trunk.sent + multiset(DueInfos(policy, Unexpired(items, now), now))
    ensures SameLive(n.trunk.sent, m.trunk.sent)
  {
    S.DueIsGoverned(policy, items, now);
    NoLive(n.trunk.sent, m.trunk.sent, multiset(DueInfos(policy, Unexpired(items, now), now)));
  }

  function StepOf(t: T.Trunk<nat>, e: Option<L.At<nat>>): T.Trunk<nat> {
    if e.None? then t else L.Step(t, e.value)
  }

  lemma LocalTable(n: Node, oid: nat, e: Event, now: Time)
    requires NodeOk(n) && oid < |n.objs| && IsLocal(e) && Enabled(n.objs[oid].link, e)
    ensures var before, after := n.objs[oid].link.calls, Apply(n.objs[oid].link, e).calls;
            var te := if |after| > |before|
                      then Happens(now, CallEvent(n.objs[oid].id, after[|after| - 1])) else None;
            Like(StepOf(n.trunk, te), LocalEvent(n, oid, e, now).trunk)
  {
    hide NodeOk, Apply, Enabled, Host, LocalEvent;
    var before, after := n.objs[oid].link.calls, Apply(n.objs[oid].link, e).calls;
    LocalTrunk(n, oid, e, now);
    if |after| > |before| {
      S.NewCall(n, oid, e);
      HostSends(n.trunk, n.objs[oid].id, after[|before|], now);
      HostKeepsTimer(n.trunk, n.objs[oid].id, after[|before|], now);
      var m, i := LocalEvent(n, oid, e, now), n.trunk.table[n.objs[oid].id].nextIndex;
      NoLive(n.trunk.sent, m.trunk.sent,
             if i == BAD_INDEX then multiset{} else multiset{PacketOf(n.objs[oid].id, i, after[|before|])});
      hide SameLive;
    }
  }

  lemma HostKeepsTimer(t: T.Trunk<nat>, id: Id, call: HosterCall, now: Time)
    ensures Host(t, id, call, now).nextLive == t.nextLive
  {
  }

  lemma ReceivedTable(n: Node, p: Packet, accepted: bool, now: Time)
    requires NodeOk(n)
    ensures var te := if p.Live? then Happens(now, L.LivePacket(p.id))
                      else if p.CreateConnect? && accepted && p.id !in n.trunk.table
                      then Happens(now, L.Added(p.id, |n.objs|)) else None;
            Like(StepOf(n.trunk, te), Receive(n, p, accepted, now).trunk)
  {
    hide Receive, SameLive, NodeOk;
    var m := Receive(n, p, accepted, now);
    S.ReceiveSends(n, p, accepted, now);
    NoLive(n.trunk.sent, m.trunk.sent, S.Replies(n, p));
    ReceivedEntries(n, p, accepted, now);
  }

  lemma ReceivedEntries(n: Node, p: Packet, accepted: bool, now: Time)
    ensures var m := Receive(n, p, accepted, now);
            && m.trunk.nextLive == n.trunk.nextLive
            && m.trunk.table == if p.Live? then T.ProcessLive(n.trunk, p.id, now).table
                                else if p.CreateConnect? && accepted && p.id !in n.trunk.table
                                then T.AddLink(n.trunk, p.id, |n.objs|, now).table else n.trunk.table
  {
    hide Run, SendData, Stop;
  }

  lemma DeliveredTable(s: P.System, side: Side, a: P.Action)
    requires SystemOk(s) && P.Possible(s, a) && a.Deliver? && a.side == side
    ensures var n := P.At(s, side); Like(StepOf(n.trunk, TableEventAt(n, side, a)), NodeDo(n, side, a).trunk)
  {
    hide SystemOk, Receive, Wire.Decode, Wire.Encode, L.Step;
    LiveAndRequestsArrive(s, side, a.packet);
    NodeIsOk(s, side);
    ReceivedTable(P.At(s, side), a.packet, a.accepted, a.now);
  }

  lemma LiveAndRequestsArrive(s: P.System, side: Side, p: Packet)
    requires SystemOk(s) && p in P.At(s, Other(side)).trunk.sent
    ensures p.Data? ==> |p.data| < 0x1_0000_0000
    ensures var received := Wire.Decode(side, Wire.Encode(Other(side), p));
            || received == Some(p)
            || (received == None && !p.Live? && (p.CreateConnect? ==> side.ClientSide?))
    ensures p.CreateConnect? && side.ClientSide? ==>
              Wire.Decode(side, Wire.Encode(Other(side), p)) == None
  {
    SentFits(s, Other(side), p);
    Wire.DecodedOrDropped(Other(side), p);
    if p.Live? || (p.CreateConnect? && side.ServerSide?) {
      Wire.WireRoundTrip(Other(side), p);
    } else if p.CreateConnect? {
      Wire.HeaderFields(p.id, Wire.CREATE_CONNECT, Wire.Put32(p.point) + Wire.Put32(p.timeout));
      assert Wire.Encode(Other(side), p)
          == Wire.Header(p.id, Wire.CREATE_CONNECT) + (Wire.Put32(p.point) + Wire.Put32(p.timeout));
    }
  }

  lemma LiveTickTable(n: Node, now: Time)
    ensures Like(L.Step(n.trunk, L.At(now, L.LiveTimer)), LiveTick(n, now).trunk)
  {
    hide Stop, Dies;
  }

  lemma ResendTickTable(n: Node, now: Time)
    requires NodeOk(n)
    ensures Like(n.trunk, ResendTick(n, now).trunk) && Like(n.trunk, ConnectResendTick(n, now).trunk)
  {
    ResendsNoLive(DataCache, n, ResendTick(n, now), n.trunk.cache, now);
    ResendsNoLive(ConnectCache, n, ConnectResendTick(n, now), n.connects, now);
    hide SameLive;
  }

  lemma ConnectTable(n: Node, id: Id, point: U32, now: Time)
    ensures var te := if id in n.trunk.table then None else Happens(now, L.Added(id, |n.objs|));
            Like(StepOf(n.trunk, te), AddConnect(n, id, point, now).trunk)
  {
    hide Run, SameLive;
    if id !in n.trunk.table {
      NoLive(n.trunk.sent, AddConnect(n, id, point, now).trunk.sent, multiset{CreateConnect(id, point, 300)});
    } else {
      NoLive(n.trunk.sent, n.trunk.sent, multiset{});
    }
  }

  lemma LikeItself(t: T.Trunk<nat>)
    ensures Like(t, t)
  {
  }

  lemma NodeTables(n: Node, side: Side, a: P.Action)
    requires NodeOk(n) && !a.Deliver?
    requires a.Local? ==> a.oid < |n.objs| && IsLocal(a.event) && Enabled(n.objs[a.oid].link, a.event)
    ensures Like(StepOf(n.trunk, TableEventAt(n, side, a)), NodeDo(n, side, a).trunk)
  {
    hide NodeOk, LocalEvent, Apply, Enabled, AddConnect, LiveTick, ResendTick, ConnectResendTick, L.Step, Like;
    match a
    case NewConnect(id, point, now) => ConnectTable(n, id, point, now);
    case Local(_, oid, e, now) => LocalTable(n, oid, e, now);
    case LiveTimer(_, now) => LiveTickTable(n, now);
    case ResendTimer(_, now) => ResendTickTable(n, now);
    case ConnectResendTimer(now) => ResendTickTable(n, now);
  }

  /** An action changes the table of a side as its table event says. */
  lemma StepTables(s: P.System, a: P.Action, side: Side)
    requires SystemOk(s) && P.Possible(s, a)
    ensures Like(StepOf(P.At(s, side).trunk, TableEventOf(s, a, side)), P.At(P.Do(s, a), side).trunk)
  {
    hide SystemOk, NodeOk, NodeDo, TableEventAt, P.Do, Enabled, L.Step;
    Delivery.SystemHasNodes(s);
    if !P.AtSide(a, side) {
      DoAtSide(s, a, Other(side));
    } else {
      DoAtSide(s, a, side);
      if a.Deliver? {
        DeliveredTable(s, side, a);
      } else {
        NodeTables(P.At(s, side), side, a);
      }
    }
  }

  lemma LikeStep(t: T.Trunk<nat>, u: T.Trunk<nat>, e: L.At<nat>)
    requires Like(t, u)
    ensures Like(L.Step(t, e), L.Step(u, e))
  {
    forall id ensures L.Step(t, e).sent[Live(id)] == L.Step(u, e).sent[Live(id)] {
      L.StepSendsLive(t, e, id);
      L.StepSendsLive(u, e, id);
      assert t.sent[Live(id)] == u.sent[Live(id)];
    }
  }

  // ----- Being live, from the front

  lemma {:induction false} LikeSteps(t: T.Trunk<nat>, u: T.Trunk<nat>, es: seq<L.At<nat>>)
    requires Like(t, u)
    ensures Like(L.Steps(t, es), L.Steps(u, es))
  {
    if es != [] {
      LikeSteps(t, u, es[..|es| - 1]);
      LikeStep(L.Steps(t, es[..|es| - 1]), L.Steps(u, es[..|es| - 1]), es[|es| - 1]);
    }
  }

  lemma LikeStaysLive(t: T.Trunk<nat>, u: T.Trunk<nat>, es: seq<L.At<nat>>, id: Id)
    requires Like(t, u) && L.StaysLive(t, es, id)
    ensures L.StaysLive(u, es, id)
  {
    forall i | 0 <= i < |es| && es[i].event.LiveTimer?
      ensures id in L.Steps(u, es[..i]).table && !T.DeadAt(L.Steps(u, es[..i]), id, es[i].time)
    {
      LikeSteps(t, u, es[..i]);
    }
  }

  lemma {:induction false} StepsFirst(t: T.Trunk<nat>, e: L.At<nat>, es: seq<L.At<nat>>)
    ensures L.Steps(t, [e] + es) == L.Steps(L.Step(t, e), es)
  {
    hide L.Step;
    if es == [] {
      assert [e] + es == [e] && [e][..0] == [];
    } else {
      StepsFirst(t, e, es[..|es| - 1]);
      assert ([e] + es)[..|es|] == [e] + es[..|es| - 1];
    }
  }

  lemma {:induction false} RunTables(s: P.System, run: seq<P.Action>, side: Side)
    requires SystemOk(s) && P.Feasible(s, run)
    ensures Like(L.Steps(P.At(s, side).trunk, TableRun(s, run, side)), P.At(P.After(s, run), side).trunk)
    decreases run
  {
    hide SystemOk, TableEventOf, P.Do, P.Possible, SameLive;
    var t := P.At(s, side).trunk;
    if run == [] {
      LikeItself(t);
    } else {
      var s1, e, rest := P.Do(s, run[0]), TableEventOf(s, run[0], side), TableRun(P.Do(s, run[0]), run[1..], side);
      StepOk(s, run[0]);
      StepTables(s, run[0], side);
      RunTables(s1, run[1..], side);
      LikeSteps(StepOf(t, e), P.At(s1, side).trunk, rest);
      if e.Some? {
        StepsFirst(t, e.value, rest);
      }
      hide L.Steps;
      LikeTwice(L.Steps(t, TableRun(s, run, side)), L.Steps(P.At(s1, side).trunk, rest),
                P.At(P.After(s, run), side).trunk);
    }
  }

  lemma LikeTwice(t: T.Trunk<nat>, u: T.Trunk<nat>, w: T.Trunk<nat>)
    requires Like(t, u) && Like(u, w)
    ensures Like(t, w)
  {
  }

  /** In runs of the system from any reachable state, the live packets for a connection leave a side exactly at the
      live sends of its link table, at least 1000 ms apart. */
  lemma LivePacketsAreSparse(s: P.System, run: seq<P.Action>, side: Side, id: Id)
    requires SystemOk(s) && P.Feasible(s, run)
    ensures var sends := L.LiveSends(P.At(s, side).trunk, TableRun(s, run, side), id);
            && P.At(P.After(s, run), side).trunk.sent[Live(id)] == P.At(s, side).trunk.sent[Live(id)] + |sends|
            && forall i {:trigger sends[i]} | 0 < i < |sends| :: sends[i] - sends[i - 1] >= 1000 * MS
  {
    hide SystemOk, TableRun, L.LiveSends, L.Steps;
    RunTables(s, run, side);
    L.LiveSendsAreSent(P.At(s, side).trunk, TableRun(s, run, side), id);
    L.SendsAreSparse(P.At(s, side).trunk, TableRun(s, run, side), id);
  }

  lemma StaysLiveFirst(t: T.Trunk<nat>, e: L.At<nat>, es: seq<L.At<nat>>, id: Id)
    requires L.StaysLive(t, [e] + es, id)
    ensures e.event.LiveTimer? ==> id in t.table && !T.DeadAt(t, id, e.time)
    ensures L.StaysLive(L.Step(t, e), es, id)
  {
    var all := [e] + es;
    assert all[0] == e && all[..0] == [];
    forall i | 0 <= i < |es| && es[i].event.LiveTimer?
      ensures id in L.Steps(L.Step(t, e), es[..i]).table && !T.DeadAt(L.Steps(L.Step(t, e), es[..i]), id, es[i].time)
    {
      assert all[i + 1] == es[i] && all[..i + 1] == [e] + es[..i];
      StepsFirst(t, e, es[..i]);
    }
  }

  lemma LiveIsNotKilled(s: P.System, a: P.Action, side: Side, i: nat)
    requires SystemOk(s) && P.Possible(s, a) && i < |P.At(s, side).objs|
    requires a.LiveTimer? && a.side == side ==> !T.DeadAt(P.At(s, side).trunk, P.At(s, side).objs[i].id, a.now)
    ensures i < |P.At(P.Do(s, a), side).objs| && P.At(P.Do(s, a), side).objs[i].id == P.At(s, side).objs[i].id
    ensures P.At(P.Do(s, a), side).objs[i].killed == P.At(s, side).objs[i].killed
  {
    StepProjects(s, a, side, i);
    hide SystemOk, P.Do, P.Possible, Apply;
  }

  /** A link that is live on every tick of its side gets no dead-link stop. */
  lemma {:induction false} LiveLinkIsNotKilled(s: P.System, run: seq<P.Action>, side: Side, i: nat)
    requires SystemOk(s) && P.Feasible(s, run) && i < |P.At(s, side).objs|
    requires L.StaysLive(P.At(s, side).trunk, TableRun(s, run, side), P.At(s, side).objs[i].id)
    ensures i < |P.At(P.After(s, run), side).objs|
    ensures P.At(P.After(s, run), side).objs[i].killed == P.At(s, side).objs[i].killed
    decreases run
  {
    if run != [] {
      var s1, e, id := P.Do(s, run[0]), TableEventOf(s, run[0], side), P.At(s, side).objs[i].id;
      var t, rest := P.At(s, side).trunk, TableRun(P.Do(s, run[0]), run[1..], side);
      assert run[0].LiveTimer? && run[0].side == side ==> e == Happens(run[0].now, L.LiveTimer);
      hide SystemOk, TableEventOf, P.Do, P.Possible, L.StaysLive, Like, T.DeadAt;
      StepOk(s, run[0]);
      StepTables(s, run[0], side);
      if e.Some? {
        StaysLiveFirst(t, e.value, rest, id);
      }
      LiveIsNotKilled(s, run[0], side, i);
      LikeStaysLive(StepOf(t, e), P.At(s1, side).trunk, rest, id);
      LiveLinkIsNotKilled(s1, run[1..], side, i);
    }
  }

  /** In runs of the system: a connection that both sides have in their tables throughout, with live timer ticks at
      most g apart on either side, and live packets delayed by at most d and at most k lost in a row in either
      direction, gets no dead-link stop on either side if (k+1)(1000+g)+d+late <= 5000 (in ms). Times are readings of
      one clock. toServer and toClient say what becomes of the live packets. */
  lemma ConnectionStaysLive(s: P.System, run: seq<P.Action>, i: nat, j: nat, toServer: seq<Option<Time>>,
                            toClient: seq<Option<Time>>, start: Time, until: Time, g: Time, d: Time, k: nat, late: Time)
    requires Reachable(s) && P.Feasible(s, run)
    requires i < |s.client.objs| && j < |s.server.objs| && s.client.objs[i].id == s.server.objs[j].id
    requires var a := End(s.client.trunk, TableRun(s, run, ClientSide), toServer);
             var b := End(s.server.trunk, TableRun(s, run, ServerSide), toClient);
             var id := s.client.objs[i].id;
             && Ticks(a, id, start, until, g) && Ticks(b, id, start, until, g)
             && Hears(a, b, id, start, until, d, k, late) && Hears(b, a, id, start, until, d, k, late)
    requires 0 <= g && 0 <= d && 0 <= late
    requires (k + 1) * (T.LIVE_UPDATE_TICK + g) + d + late <= T.DEAD_LINK_TIMEOUT
    ensures var end := P.After(s, run);
            && i < |end.client.objs| && end.client.objs[i].killed == s.client.objs[i].killed
            && j < |end.server.objs| && end.server.objs[j].killed == s.server.objs[j].killed
  {
    hide Ticks, Hears, L.StaysLive, SystemOk, Reachable, TableRun;
    var a := End(s.client.trunk, TableRun(s, run, ClientSide), toServer);
    var b := End(s.server.trunk, TableRun(s, run, ServerSide), toClient);
    ReachableOk(s);
    NeitherEndDeclaresDeath(a, b, s.client.objs[i].id, start, until, g, d, k, late);
    LiveLinkIsNotKilled(s, run, ClientSide, i);
    LiveLinkIsNotKilled(s, run, ServerSide, j);
  }
}
