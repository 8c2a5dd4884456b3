/** What the links' own results mean for whole runs of the system. */
module Delivery {
  import opened Bytes
  import opened Packets
  import opened PacketCache
  import opened OutLinkSpec
  import opened OutLinkProofs
  import opened Reassembly
  import opened Completion
  import opened Node
  import opened NodeProofs
  import opened EndToEnd
  import opened Projection
  import Wire
  import P = Protocol
  import T = Trunk
  import D = DialFailure

  lemma StepKeepsSent(s: P.System, a: P.Action, side: Side)
    requires P.Possible(s, a)
    ensures P.At(s, side).trunk.sent <= P.At(P.Do(s, a), side).trunk.sent
  {
    hide Apply, Enabled, Run, Host, T.OnCacheResend, T.ProcessLive, T.SendLivePackets, Wire.Decode;
    if a.Local? {
      HostKeepsSent(P.At(s, side).trunk);
    }
    TrunkKeepsSent(P.At(s, side).trunk);
  }

  lemma HostKeepsSent(t: T.Trunk<nat>)
    ensures forall id, call, now :: t.sent <= Host(t, id, call, now).sent
  {
  }

  lemma TrunkKeepsSent(t: T.Trunk<nat>)
    ensures forall now :: t.sent <= T.OnCacheResend(t, now).sent && t.sent <= T.SendLivePackets(t, now).sent
    ensures forall id, now :: t.sent == T.ProcessLive(t, id, now).sent
  {
  }

  lemma {:induction false} RunKeepsSent(s: P.System, run: seq<P.Action>, side: Side)
    requires P.Feasible(s, run)
    ensures P.At(s, side).trunk.sent <= P.At(P.After(s, run), side).trunk.sent
    decreases run
  {
    if run != [] {
      StepKeepsSent(s, run[0], side);
      RunKeepsSent(P.Do(s, run[0]), run[1..], side);
    }
  }

  // ----- The events of a link are a run of its stream

  /** The event agrees with everything ever said for the connection. */
  predicate Agrees(e: Event, calls: seq<HosterCall>) {
    && Consistent(e, Chunks(calls))
    && (e.StopAt? ==> e.n == |Chunks(calls)|)
  }

  lemma CallAgrees(p: Packet, calls: seq<HosterCall>)
    requires Indexed(p) && CloseIsLast(calls) && p.index < |calls| && p == PacketOf(p.id, p.index, calls[p.index])
    ensures Agrees(ArrivalOf(p), calls)
  {
    ChunksByIndex(calls);
  }

  lemma SaidAgrees(n: Node, p: Packet, calls: seq<HosterCall>)
    requires NodeOk(n) && p in n.trunk.sent && Indexed(p) && Voice(n.objs, p.id, calls) && |calls| <= BAD_INDEX
    ensures Agrees(ArrivalOf(p), calls)
  {
    hide Voice, Agrees, TableOk, CacheOk, FormOk;
    SentWasSaid(n.objs, n.trunk.sent, p, calls);
    VoiceCloseIsLast(n, p.id, calls);
    CallAgrees(p, calls);
  }

  /** The run leaves object i alive; at its end, or later in e, calls is what has been said to it. */
  ghost predicate Heeds(s: P.System, run: seq<P.Action>, side: Side, i: nat, e: P.System, calls: seq<HosterCall>) {
    && SystemOk(s) && P.Feasible(s, run) && i < |P.At(s, side).objs|
    && (i < |P.At(P.After(s, run), side).objs| ==> !P.At(P.After(s, run), side).objs[i].killed)
    && P.At(P.After(s, run), Other(side)).trunk.sent <= P.At(e, Other(side)).trunk.sent
    && Speaks(e, side, P.At(s, side).objs[i].id, calls)
  }

  ghost predicate Speaks(e: P.System, side: Side, id: Id, calls: seq<HosterCall>) {
    SystemOk(e) && Voice(P.At(e, Other(side)).objs, id, calls) && |calls| <= BAD_INDEX
  }

  lemma EventAgrees(s: P.System, run: seq<P.Action>, side: Side, i: nat, e: P.System, calls: seq<HosterCall>)
    requires Heeds(s, run, side, i, e, calls) && run != []
    ensures var ev := EventOf(s, run[0], side, i); ev.Some? ==> Agrees(ev.value, calls)
    ensures Heeds(P.Do(s, run[0]), run[1..], side, i, e, calls)
  {
    hide SystemOk, Agrees, Voice, NodeOk;
    var a := run[0];
    StepOk(s, a);
    StepProjects(s, a, side, i);
    RunProjects(P.Do(s, a), run[1..], side, i);
    if a.Deliver? && EventOf(s, a, side, i).Some? {
      RunKeepsSent(s, run, Other(side));
      NamedHasId(s, side, a.packet.id, i);
      SystemHasNodes(e);
      SaidAgrees(P.At(e, Other(side)), a.packet, calls);
    } else {
      LocalAgrees(s, a, side, i, calls);
    }
  }

  lemma SystemHasNodes(s: P.System)
    requires SystemOk(s)
    ensures NodeOk(s.client) && NodeOk(s.server)
  {
  }

  lemma NamedHasId(s: P.System, side: Side, id: Id, i: nat)
    requires SystemOk(s) && i < |P.At(s, side).objs| && Names(P.At(s, side), id, i)
    ensures P.At(s, side).objs[i].id == id
  {
    assert EntryOk(P.At(s, side).objs, id, P.At(s, side).trunk.table[id]);
  }

  lemma LocalAgrees(s: P.System, a: P.Action, side: Side, i: nat, calls: seq<HosterCall>)
    requires P.Possible(s, a) && i < |P.At(s, side).objs| && (a.Local? || EventOf(s, a, side, i).None?)
    ensures var ev := EventOf(s, a, side, i); ev.Some? ==> Agrees(ev.value, calls)
  {
  }

  lemma {:induction false} RunIsStreamRun(s: P.System, run: seq<P.Action>, side: Side, i: nat, e: P.System,
                                         calls: seq<HosterCall>)
    requires Heeds(s, run, side, i, e, calls) && Reassembles(P.At(s, side).objs[i].link.out, Chunks(calls))
    ensures var es := Events(s, run, side, i);
            && StreamRun(P.At(s, side).objs[i].link, es, Chunks(calls), |Chunks(calls)|)
            && forall ev <- es :: Agrees(ev, calls)
    decreases run
  {
    hide SystemOk, Voice, Reassembles, StreamRun, Agrees, EventOf;
    var l := P.At(s, side).objs[i].link;
    if run == [] {
      NoStream(l, calls);
    } else {
      var ev, rest := EventOf(s, run[0], side, i), Events(P.Do(s, run[0]), run[1..], side, i);
      EventAgrees(s, run, side, i, e, calls);
      StepProjects(s, run[0], side, i);
      ObjectOk(s, side, i);
      if ev.Some? {
        AgreeingReassembles(l, ev.value, calls);
      }
      RunIsStreamRun(P.Do(s, run[0]), run[1..], side, i, e, calls);
      if ev.Some? {
        StreamFirst(l, ev.value, rest, calls);
      }
    }
  }

  lemma NoStream(l: Link, calls: seq<HosterCall>)
    requires Reassembles(l.out, Chunks(calls))
    ensures StreamRun(l, [], Chunks(calls), |Chunks(calls)|)
  {
  }

  lemma AgreeingReassembles(l: Link, e: Event, calls: seq<HosterCall>)
    requires LinkOk(l) && Enabled(l, e) && Agrees(e, calls) && Reassembles(l.out, Chunks(calls))
    ensures Reassembles(Apply(l, e).out, Chunks(calls))
  {
    ApplyReassembles(l, e, Chunks(calls));
  }

  lemma StreamFirst(l: Link, e: Event, es: seq<Event>, calls: seq<HosterCall>)
    requires Enabled(l, e) && Agrees(e, calls) && Reassembles(l.out, Chunks(calls))
    requires StreamRun(Apply(l, e), es, Chunks(calls), |Chunks(calls)|)
    ensures StreamRun(l, [e] + es, Chunks(calls), |Chunks(calls)|)
  {
    EventsFirst(l, e, es);
    assert ([e] + es)[1..] == es;
  }

  // ----- Completion

  /** A read or write of the link without an error. */
  predicate Calm(e: Event) {
    && (e.ReadCompletes? ==> !e.err)
    && (e.WriteCompletes? ==> !e.err && e.moved > 0)
  }

  /** Everything said has been handed to the link in these events: all chunks and the release. */
  ghost predicate AllHandedOver(es: seq<Event>, calls: seq<HosterCall>) {
    StopSeen(es) && forall k: U32 :: k < |Chunks(calls)| ==> k in Delivered(es)
  }

  /** Let mid be any reachable state in which everything that was ever said for a connection has reached a link
      object that is still writing, in whatever order and however often, and let the system go on in any way that
      brings this object no error, no cancellation and no dead-link stop. Then the object never waits for the idle
      timer, has a write handler due until its write loop ends, and ends it, with the whole stream written, after at
      most one write round per missing byte and one for a queued wake-up. */
  lemma DeliveredStreamIsWrittenOut(c: Time, v: Time, run1: seq<P.Action>, run2: seq<P.Action>, side: Side, i: nat,
                                    calls: seq<HosterCall>)
    requires P.Feasible(P.Start(c, v), run1) && P.Feasible(P.After(P.Start(c, v), run1), run2)
    requires var mid := P.After(P.Start(c, v), run1);
             var end := P.After(mid, run2);
             && i < |P.At(mid, side).objs|
             && Voice(P.At(end, Other(side)).objs, P.At(mid, side).objs[i].id, calls) && |calls| <= BAD_INDEX
             && AllHandedOver(Events(P.Start(c, v), run1, side, i), calls)
             && P.At(mid, side).objs[i].link.writing && !P.At(mid, side).objs[i].link.stopNow
             && (forall e <- Events(mid, run2, side, i) :: Calm(e))
             && (i < |P.At(end, side).objs| ==> !P.At(end, side).objs[i].killed)
    ensures var mid := P.After(P.Start(c, v), run1);
            var end := P.After(mid, run2);
            && i < |P.At(end, side).objs|
            && var l, m := P.At(mid, side).objs[i].link, P.At(end, side).objs[i].link;
               && (m.writing ==> m.parked == 0 && (m.pendingWrites != [] || m.woken > 0))
               && (m.writing ==> WriteRounds(Events(mid, run2, side, i)) < Left(l, Chunks(calls)))
               && (!m.writing ==> m.end.Drained? && m.out.written == Concat(Chunks(calls)))
  {
    hide SystemOk, StreamRun, AllHandedOver;
    var start := P.Start(c, v);
    var mid := P.After(start, run1);
    var end := P.After(mid, run2);
    StartSystemOk(c, v);
    RunSystemOk(start, run1);
    RunProjects(mid, run2, side, i);
    RunKeepsSent(mid, run2, Other(side));
    var born, rest := Birth(start, run1, side, i);
    var connected := side.ClientSide?;
    RunProjects(born, rest, side, i);
    BornInStream(born, rest, side, i, connected, end, calls);
    var l := P.At(mid, side).objs[i].link;
    assert Reassembles(l.out, Chunks(calls)) by {
      HandedOverReassembles(connected, Events(born, rest, side, i), Chunks(calls));
    }
    RunIsStreamRun(mid, run2, side, i, end, calls);
    LinkCompletes(connected, Events(born, rest, side, i), Events(mid, run2, side, i), calls);
  }

  lemma BornInStream(born: P.System, rest: seq<P.Action>, side: Side, i: nat, connected: bool, e: P.System,
                     calls: seq<HosterCall>)
    requires Heeds(born, rest, side, i, e, calls) && P.At(born, side).objs[i].link == Run(FRESH_LINK, connected)
    ensures |Chunks(calls)| <= BAD_INDEX
         && StreamRun(Run(FRESH_LINK, connected), Events(born, rest, side, i), Chunks(calls), |Chunks(calls)|)
  {
    hide Run, StreamRun, Events, Voice, SystemOk, Reassembles;
    FreshReassembles(e, side, P.At(born, side).objs[i].id, connected, calls);
    RunIsStreamRun(born, rest, side, i, e, calls);
  }

  lemma FreshReassembles(e: P.System, side: Side, id: Id, connected: bool, calls: seq<HosterCall>)
    requires Speaks(e, side, id, calls)
    ensures Reassembles(Run(FRESH_LINK, connected).out, Chunks(calls)) && |Chunks(calls)| <= BAD_INDEX
  {
    StartOk(connected);
    VoiceCloseIsLast(P.At(e, Other(side)), id, calls);
    ChunksByIndex(calls);
  }

  lemma HandedOverReassembles(connected: bool, es: seq<Event>, src: seq<Octets>)
    requires |src| <= BAD_INDEX && StreamRun(Run(FRESH_LINK, connected), es, src, |src|)
    ensures Reassembles(Final(Run(FRESH_LINK, connected), es).out, src)
  {
    StartOk(connected);
    RunTracks(Run(FRESH_LINK, connected), es, src, {}, |src|);
  }

  lemma LinkCompletes(connected: bool, es1: seq<Event>, es2: seq<Event>, calls: seq<HosterCall>)
    requires |Chunks(calls)| <= BAD_INDEX
    requires StreamRun(Run(FRESH_LINK, connected), es1, Chunks(calls), |Chunks(calls)|) && AllHandedOver(es1, calls)
    requires var l := Final(Run(FRESH_LINK, connected), es1); l.writing && !l.stopNow && Possible(l, es2)
    requires forall e <- es2 :: Agrees(e, calls) && Calm(e)
    ensures var l := Final(Run(FRESH_LINK, connected), es1);
            var m := Final(l, es2);
            && (m.writing ==> m.parked == 0 && (m.pendingWrites != [] || m.woken > 0))
            && (m.writing ==> WriteRounds(es2) < Left(l, Chunks(calls)))
            && (!m.writing ==> m.end.Drained? && m.out.written == Concat(Chunks(calls)))
  {
    ReceivedStreamIsWrittenOut(connected, es1, es2, Chunks(calls));
  }

  // ----- Abandoned links

  /** A link whose dialling failed without a report keeps its entry in the table for ever. */
  lemma AbandonedKeepsItsEntry(s: P.System, run: seq<P.Action>, side: Side, i: nat)
    requires Reachable(s) && P.Feasible(s, run) && i < |P.At(s, side).objs|
    requires D.Abandoned(P.At(s, side).objs[i].link)
    ensures i < |P.At(P.After(s, run), side).objs| && Names(P.At(P.After(s, run), side), P.At(s, side).objs[i].id, i)
  {
    ReachableOk(s);
    RunProjects(s, run, side, i);
    D.AbandonedForEver(P.At(s, side).objs[i].link, Events(s, run, side, i));
    var n := P.At(P.After(s, run), side);
    assert n.objs[i].link.calls == [];
    assert TableOk(n.objs, n.trunk.table);
  }
}
