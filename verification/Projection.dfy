/** What a run of the whole system is for one link object: a run of events of that link. */
module Projection {
  import opened Bytes
  import opened Packets
  import opened PacketCache
  import opened OutLinkSpec
  import opened OutLinkProofs
  import opened Reassembly
  import opened Node
  import opened NodeProofs
  import opened EndToEnd
  import Wire
  import P = Protocol

  // ----- What an action is for the node it happens at

  /** What the node makes of a datagram. */
  function ReceiveDatagram(n: Node, side: Side, d: Octets, accepted: bool, now: Time): Node {
    var p := Wire.Decode(side, d);
    if p.None? then n else Receive(n, p.value, accepted, now)
  }

  function NodeDo(n: Node, side: Side, a: P.Action): Node
    requires a.Local? ==> a.oid < |n.objs| && IsLocal(a.event) && Enabled(n.objs[a.oid].link, a.event)
    requires a.Deliver? && a.packet.Data? ==> |a.packet.data| < 0x1_0000_0000
  {
    match a
    case NewConnect(id, point, now) => AddConnect(n, id, point, now)
    case Local(_, oid, e, now) => LocalEvent(n, oid, e, now)
    case Deliver(_, p, accepted, now) => ReceiveDatagram(n, side, Wire.Encode(Other(side), p), accepted, now)
    case LiveTimer(_, now) => LiveTick(n, now)
    case ResendTimer(_, now) => ResendTick(n, now)
    case ConnectResendTimer(now) => ConnectResendTick(n, now)
  }

  lemma DoAtSide(s: P.System, a: P.Action, side: Side)
    requires P.Possible(s, a) && P.AtSide(a, side)
    ensures P.At(P.Do(s, a), side) == NodeDo(P.At(s, side), side, a)
    ensures P.At(P.Do(s, a), Other(side)) == P.At(s, Other(side))
  {
    hide Receive, LocalEvent, LiveTick, ResendTick, ConnectResendTick, AddConnect, Enabled, Wire.Encode, Wire.Decode;
  }

  // ----- What an action is for a link

  predicate Names(n: Node, id: Id, i: nat) {
    id in n.trunk.table && n.trunk.table[id].link == i
  }

  /** The event that action a is for link object i of a side, if it is one. */
  function EventOf(s: P.System, a: P.Action, side: Side, i: nat): Option<Event>
    requires i < |P.At(s, side).objs|
  {
    match a
    case Local(at, oid, e, _) => if at == side && oid == i then Some(e) else None
    case Deliver(at, p, _, _) =>
      if at == side && Indexed(p) && Names(P.At(s, side), p.id, i) then Some(ArrivalOf(p)) else None
    case LiveTimer(at, now) => if at == side && Dies(P.At(s, side), i, now) then Some(StopAt(0)) else None
    case _ => None
  }

  predicate Moved(l: Link, e: Option<Event>, l': Link) {
    if e.None? then l' == l else Enabled(l, e.value) && l' == Apply(l, e.value)
  }

  lemma NumberedMoves(n: Node, p: Packet, accepted: bool, now: Time, i: nat)
    requires NodeOk(n) && Indexed(p) && i < |n.objs|
    ensures var m := Receive(n, p, accepted, now);
            && |m.objs| == |n.objs| && m.objs[i].id == n.objs[i].id && m.objs[i].killed == n.objs[i].killed
            && Moved(n.objs[i].link, if Names(n, p.id, i) then Some(ArrivalOf(p)) else None, m.objs[i].link)
  {
    NumberedReachesLink(n, p, accepted, now);
    if p.id in n.trunk.table {
      assert EntryOk(n.objs, p.id, n.trunk.table[p.id]);
    }
  }

  lemma DeliveryMoves(s: P.System, side: Side, p: Packet, accepted: bool, now: Time, i: nat)
    requires SystemOk(s) && p in P.At(s, Other(side)).trunk.sent && i < |P.At(s, side).objs|
    requires P.Possible(s, P.Deliver(side, p, accepted, now))
    ensures var n := P.At(s, side);
            var m := P.At(P.Do(s, P.Deliver(side, p, accepted, now)), side);
            && |n.objs| <= |m.objs| && m.objs[i].id == n.objs[i].id && m.objs[i].killed == n.objs[i].killed
            && Moved(n.objs[i].link, if Indexed(p) && Names(n, p.id, i) then Some(ArrivalOf(p)) else None,
                     m.objs[i].link)
  {
    hide SystemOk, NodeOk, Wire.Decode, Wire.Encode, Receive, Apply, Enabled;
    SentFits(s, Other(side), p);
    Wire.DecodedOrDropped(Other(side), p);
    if Indexed(p) {
      NodeIsOk(s, side);
      Wire.WireRoundTrip(Other(side), p);
      NumberedMoves(P.At(s, side), p, accepted, now, i);
    } else {
      OthersMoveNothing(P.At(s, side), p, accepted, now, i);
    }
  }

  lemma OthersMoveNothing(n: Node, p: Packet, accepted: bool, now: Time, i: nat)
    requires !Indexed(p) && i < |n.objs|
    ensures var m := Receive(n, p, accepted, now); |n.objs| <= |m.objs| && m.objs[i] == n.objs[i]
  {
    hide Run;
  }

  lemma TickMoves(n: Node, now: Time, i: nat)
    requires i < |n.objs|
    ensures var m := LiveTick(n, now);
            && |m.objs| == |n.objs| && m.objs[i].id == n.objs[i].id
            && m.objs[i].killed == (n.objs[i].killed || Dies(n, i, now))
            && Moved(n.objs[i].link, if Dies(n, i, now) then Some(StopAt(0)) else None, m.objs[i].link)
  {
    hide Stop;
  }

  /** An object stays at its place. Only its own events change its link, only a dead-link stop its mark. */
  lemma StepProjects(s: P.System, a: P.Action, side: Side, i: nat)
    requires SystemOk(s) && P.Possible(s, a) && i < |P.At(s, side).objs|
    ensures |P.At(s, side).objs| <= |P.At(P.Do(s, a), side).objs|
    ensures var o, o', e := P.At(s, side).objs[i], P.At(P.Do(s, a), side).objs[i], EventOf(s, a, side, i);
            && o'.id == o.id && Moved(o.link, e, o'.link)
            && (o'.killed <==> o.killed || (a.LiveTimer? && e.Some?))
  {
    hide NodeOk, Flows, Apply, Enabled, Dies;
    match a
    case Deliver(at, p, accepted, now) =>
      if at == side {
        DeliveryMoves(s, side, p, accepted, now, i);
      }
    case LiveTimer(_, now) => TickMoves(P.At(s, side), now, i);
    case _ =>
  }

  /** The events of link object i in a run, none before it exists. */
  function Events(s: P.System, run: seq<P.Action>, side: Side, i: nat): seq<Event>
    requires P.Feasible(s, run)
    decreases run
  {
    if run == [] then []
    else
      var rest := Events(P.Do(s, run[0]), run[1..], side, i);
      if i >= |P.At(s, side).objs| then rest
      else
        match EventOf(s, run[0], side, i)
        case None => rest
        case Some(e) => [e] + rest
  }

  lemma EventsFirst(l: Link, e: Event, es: seq<Event>)
    requires Enabled(l, e) && Possible(Apply(l, e), es)
    ensures Possible(l, [e] + es) && Final(l, [e] + es) == Final(Apply(l, e), es)
  {
    assert ([e] + es)[1..] == es;
  }

  /** A run of the system runs each of its links through the events of that link. */
  lemma {:induction false} RunProjects(s: P.System, run: seq<P.Action>, side: Side, i: nat)
    requires SystemOk(s) && P.Feasible(s, run) && i < |P.At(s, side).objs|
    ensures SystemOk(P.After(s, run)) && i < |P.At(P.After(s, run), side).objs|
    ensures var o, o', es := P.At(s, side).objs[i], P.At(P.After(s, run), side).objs[i], Events(s, run, side, i);
            && o'.id == o.id && Possible(o.link, es) && o'.link == Final(o.link, es)
            && (o.killed ==> o'.killed)
    decreases run
  {
    if run != [] {
      var s1, rest := P.Do(s, run[0]), run[1..];
      StepOk(s, run[0]);
      StepProjects(s, run[0], side, i);
      RunProjects(s1, rest, side, i);
      var e := EventOf(s, run[0], side, i);
      if e.Some? {
        EventsFirst(P.At(s, side).objs[i].link, e.value, Events(s1, rest, side, i));
      }
    }
  }

  /** At most one object has been added, and it is new: on the client its socket is connected, on the server not. */
  predicate AddsFresh(side: Side, objs: seq<Obj>, objs': seq<Obj>) {
    || |objs'| == |objs|
    || (|objs'| == |objs| + 1 && !objs'[|objs|].killed && objs'[|objs|].link == Run(FRESH_LINK, side.ClientSide?))
  }

  lemma NodeAddsFresh(n: Node, side: Side, a: P.Action)
    requires !a.Deliver? && P.AtSide(a, side)
    requires a.Local? ==> a.oid < |n.objs| && IsLocal(a.event) && Enabled(n.objs[a.oid].link, a.event)
    ensures AddsFresh(side, n.objs, NodeDo(n, side, a).objs)
  {
    hide Run, Apply, Enabled, Dies, Stop;
  }

  lemma ReceiveAddsFresh(n: Node, side: Side, p: Packet, accepted: bool, now: Time)
    requires NodeOk(n) && (p.CreateConnect? ==> side.ServerSide?)
    ensures AddsFresh(side, n.objs, Receive(n, p, accepted, now).objs)
  {
    hide Run, Apply;
    if Indexed(p) {
      NumberedReachesLink(n, p, accepted, now);
    }
  }

  lemma StepAddsFresh(s: P.System, a: P.Action, side: Side)
    requires SystemOk(s) && P.Possible(s, a)
    ensures AddsFresh(side, P.At(s, side).objs, P.At(P.Do(s, a), side).objs)
  {
    var n := P.At(s, side);
    if !P.AtSide(a, side) {
      hide SystemOk, P.Do, Enabled, AddsFresh;
      DoAtSide(s, a, Other(side));
      NothingAdded(side, n.objs);
    } else if a.Deliver? {
      SentFits(s, Other(side), a.packet);
      hide SystemOk, NodeOk, P.Do, AddsFresh, Wire.Decode, Wire.Encode, Receive;
      var d := Wire.Encode(Other(side), a.packet);
      DoAtSide(s, a, side);
      NothingAdded(side, n.objs);
      NodeIsOk(s, side);
      var received := Wire.Decode(side, d);
      if received.Some? {
        Wire.DecodedIsMeant(side, d);
        ReceiveAddsFresh(n, side, received.value, a.accepted, a.now);
      }
    } else {
      hide SystemOk, P.Do, Enabled, AddsFresh, NodeDo;
      DoAtSide(s, a, side);
      NodeAddsFresh(n, side, a);
    }
  }

  lemma NothingAdded(side: Side, objs: seq<Obj>)
    ensures AddsFresh(side, objs, objs)
  {
  }

  lemma NodeIsOk(s: P.System, side: Side)
    requires SystemOk(s)
    ensures NodeOk(P.At(s, side))
  {
  }

  /** A link object that appears during a run is new at some point of it, and has no events before. */
  lemma {:induction false} Birth(s: P.System, run: seq<P.Action>, side: Side, i: nat)
      returns (born: P.System, rest: seq<P.Action>)
    requires SystemOk(s) && P.Feasible(s, run)
    requires |P.At(s, side).objs| <= i < |P.At(P.After(s, run), side).objs|
    ensures SystemOk(born) && P.Feasible(born, rest) && P.After(born, rest) == P.After(s, run)
    ensures Events(born, rest, side, i) == Events(s, run, side, i)
    ensures i < |P.At(born, side).objs| && P.At(born, side).objs[i].link == Run(FRESH_LINK, side.ClientSide?)
    decreases run
  {
    hide SystemOk, Run, P.Do, EventOf;
    born, rest := P.Do(s, run[0]), run[1..];
    StepOk(s, run[0]);
    StepAddsFresh(s, run[0], side);
    if i >= |P.At(born, side).objs| {
      born, rest := Birth(born, rest, side, i);
    }
  }

  /** Whatever the system does, a link object has come about by its own events from a new one: on the client from one
      with a connected socket, on the server from one that resolves its host. */
  lemma EveryLinkHasItsRun(c: Time, v: Time, run: seq<P.Action>, side: Side, i: nat)
    requires P.Feasible(P.Start(c, v), run) && i < |P.At(P.After(P.Start(c, v), run), side).objs|
    ensures var l, es := Run(FRESH_LINK, side.ClientSide?), Events(P.Start(c, v), run, side, i);
            Possible(l, es) && P.At(P.After(P.Start(c, v), run), side).objs[i].link == Final(l, es)
  {
    hide SystemOk, Run, Events, P.Feasible, P.After;
    StartSystemOk(c, v);
    var born, rest := Birth(P.Start(c, v), run, side, i);
    RunProjects(born, rest, side, i);
  }

  // ----- Objects stay and go on speaking

  lemma ObjectOk(s: P.System, side: Side, i: nat)
    requires SystemOk(s) && i < |P.At(s, side).objs|
    ensures LinkOk(P.At(s, side).objs[i].link)
  {
  }

  lemma StepExtends(s: P.System, a: P.Action, side: Side)
    requires SystemOk(s) && P.Possible(s, a)
    ensures Extends(P.At(s, side).objs, P.At(P.Do(s, a), side).objs)
  {
    var objs, objs' := P.At(s, side).objs, P.At(P.Do(s, a), side).objs;
    forall i | 0 <= i < |objs|
      ensures i < |objs'| && objs'[i].id == objs[i].id && objs[i].link.calls <= objs'[i].link.calls
    {
      StepProjects(s, a, side, i);
      ObjectOk(s, side, i);
      hide SystemOk, Apply, EventOf;
      var e := EventOf(s, a, side, i);
      if e.Some? {
        CallEffect(objs[i].link, e.value);
      }
    }
    assert |objs| <= |objs'| by {
      if objs != [] {
        StepProjects(s, a, side, 0);
      }
    }
  }

  lemma {:induction false} RunExtends(s: P.System, run: seq<P.Action>, side: Side)
    requires SystemOk(s) && P.Feasible(s, run)
    ensures Extends(P.At(s, side).objs, P.At(P.After(s, run), side).objs)
    decreases run
  {
    hide SystemOk;
    if run != [] {
      StepOk(s, run[0]);
      StepExtends(s, run[0], side);
      RunExtends(P.Do(s, run[0]), run[1..], side);
    }
  }
}
