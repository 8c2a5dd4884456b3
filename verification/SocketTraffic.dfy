/** From socket to socket: the streams of the whole system, told by the actions of a run alone. */
module SocketTraffic {
  import opened Bytes
  import opened Packets
  import opened PacketCache
  import opened OutLinkSpec
  import opened OutLinkProofs
  import opened Node
  import opened NodeProofs
  import opened EndToEnd
  import opened Projection
  import opened LinkTraffic
  import opened Mixtures
  import P = Protocol

  /** What the socket of link object i of a side brings in an action. */
  function ReadInAction(a: P.Action, side: Side, i: nat): seq<Octets> {
    if a.Local? && a.side == side && a.oid == i then ReadIn(a.event) else []
  }

  /** The byte strings that the socket of link object i has brought. */
  function ReadBy(run: seq<P.Action>, side: Side, i: nat): seq<Octets> {
    if run == [] then [] else ReadInAction(run[0], side, i) + ReadBy(run[1..], side, i)
  }

  /** What that socket takes in an action. */
  function TakenInAction(s: P.System, a: P.Action, side: Side, i: nat): Octets
    requires P.Possible(s, a)
  {
    if a.Local? && a.side == side && a.oid == i then Taken(P.At(s, side).objs[i].link, a.event) else []
  }

  /** The bytes that the socket of link object i has taken. */
  function TakenBy(s: P.System, run: seq<P.Action>, side: Side, i: nat): Octets
    requires P.Feasible(s, run)
    decreases run
  {
    if run == [] then [] else TakenInAction(s, run[0], side, i) + TakenBy(P.Do(s, run[0]), run[1..], side, i)
  }

  function CallsSoFar(s: P.System, side: Side, i: nat): seq<HosterCall> {
    if i < |P.At(s, side).objs| then P.At(s, side).objs[i].link.calls else []
  }

  function WrittenSoFar(s: P.System, side: Side, i: nat): Octets {
    if i < |P.At(s, side).objs| then P.At(s, side).objs[i].link.out.written else []
  }

  lemma NewLinkHasNoTraffic(connected: bool)
    ensures Run(FRESH_LINK, connected).calls == [] && Run(FRESH_LINK, connected).out.written == []
  {
  }

  lemma TrafficBefore(s: P.System, a: P.Action, side: Side, i: nat)
    requires SystemOk(s) && P.Possible(s, a) && i >= |P.At(s, side).objs|
    ensures CallsSoFar(P.Do(s, a), side, i) == [] && WrittenSoFar(P.Do(s, a), side, i) == []
  {
    hide SystemOk, P.Do, P.Possible, Run;
    StepAddsFresh(s, a, side);
    NewLinkHasNoTraffic(side.ClientSide?);
  }

  /** Only events of the link itself bring or take bytes. */
  lemma ActionTraffic(s: P.System, a: P.Action, side: Side, i: nat)
    requires P.Possible(s, a) && i < |P.At(s, side).objs|
    requires var e := EventOf(s, a, side, i); e.Some? ==> Enabled(P.At(s, side).objs[i].link, e.value)
    ensures var l, e := P.At(s, side).objs[i].link, EventOf(s, a, side, i);
            && ReadInAction(a, side, i) == (if e.Some? then ReadIn(e.value) else [])
            && TakenInAction(s, a, side, i) == (if e.Some? then Taken(l, e.value) else [])
  {
    hide Enabled, Dies;
  }

  lemma EventTraffic(l: Link, e: Option<Event>, l': Link)
    requires LinkOk(l) && Moved(l, e, l')
    ensures Chunks(l'.calls) == Chunks(l.calls) + if e.Some? then ReadIn(e.value) else []
    ensures l'.out.written == l.out.written + if e.Some? then Taken(l, e.value) else []
  {
    hide LinkOk, Apply, Enabled, Chunks, ReadIn, Taken;
    if e.Some? {
      ChunkIsRead(l, e.value);
      WrittenIsTaken(l, e.value);
    } else {
      assert Chunks(l.calls) + [] == Chunks(l.calls) && l.out.written + [] == l.out.written;
    }
  }

  lemma StepTraffic(s: P.System, a: P.Action, side: Side, i: nat)
    requires SystemOk(s) && P.Possible(s, a) && i < |P.At(s, side).objs|
    ensures Chunks(CallsSoFar(P.Do(s, a), side, i)) == Chunks(CallsSoFar(s, side, i)) + ReadInAction(a, side, i)
    ensures WrittenSoFar(P.Do(s, a), side, i) == WrittenSoFar(s, side, i) + TakenInAction(s, a, side, i)
  {
    hide SystemOk, P.Do, P.Possible, Apply, Enabled, LinkOk, Chunks, EventOf;
    hide ReadInAction, TakenInAction, Taken, ReadIn;
    StepProjects(s, a, side, i);
    ObjectOk(s, side, i);
    ActionTraffic(s, a, side, i);
    EventTraffic(P.At(s, side).objs[i].link, EventOf(s, a, side, i), P.At(P.Do(s, a), side).objs[i].link);
  }

  lemma NoTrafficYet(s: P.System, a: P.Action, side: Side, i: nat)
    requires P.Possible(s, a) && i >= |P.At(s, side).objs|
    ensures ReadInAction(a, side, i) == [] && TakenInAction(s, a, side, i) == []
  {
  }

  /** Over every run of the system, what a link object has handed to its trunk is what its socket brought, and what it
      has put out is what its socket took. */
  lemma {:induction false} RunTraffic(s: P.System, run: seq<P.Action>, side: Side, i: nat)
    requires SystemOk(s) && P.Feasible(s, run)
    ensures var e := P.After(s, run);
            && Chunks(CallsSoFar(e, side, i)) == Chunks(CallsSoFar(s, side, i)) + ReadBy(run, side, i)
            && WrittenSoFar(e, side, i) == WrittenSoFar(s, side, i) + TakenBy(s, run, side, i)
    decreases run
  {
    hide SystemOk, P.Do, P.Possible, CallsSoFar, WrittenSoFar, Chunks, ReadInAction, TakenInAction;
    var chunks, written := Chunks(CallsSoFar(s, side, i)), WrittenSoFar(s, side, i);
    if run == [] {
      assert chunks + [] == chunks && written + [] == written;
    } else {
      var a, s1, rest := run[0], P.Do(s, run[0]), run[1..];
      StepOk(s, a);
      RunTraffic(s1, rest, side, i);
      StepOrBirthTraffic(s, a, side, i);
      assert chunks + ReadInAction(a, side, i) + ReadBy(rest, side, i)
          == chunks + (ReadInAction(a, side, i) + ReadBy(rest, side, i));
      assert written + TakenInAction(s, a, side, i) + TakenBy(s1, rest, side, i)
          == written + (TakenInAction(s, a, side, i) + TakenBy(s1, rest, side, i));
    }
  }

  lemma StepOrBirthTraffic(s: P.System, a: P.Action, side: Side, i: nat)
    requires SystemOk(s) && P.Possible(s, a)
    ensures Chunks(CallsSoFar(P.Do(s, a), side, i)) == Chunks(CallsSoFar(s, side, i)) + ReadInAction(a, side, i)
    ensures WrittenSoFar(P.Do(s, a), side, i) == WrittenSoFar(s, side, i) + TakenInAction(s, a, side, i)
  {
    hide SystemOk, P.Do, P.Possible, ReadInAction, TakenInAction;
    if i < |P.At(s, side).objs| {
      StepTraffic(s, a, side, i);
    } else {
      TrafficBefore(s, a, side, i);
      NoTrafficYet(s, a, side, i);
    }
  }

  lemma NothingYet(c: Time, v: Time, side: Side, i: nat)
    ensures Chunks(CallsSoFar(P.Start(c, v), side, i)) == [] && WrittenSoFar(P.Start(c, v), side, i) == []
  {
  }

  lemma StartTraffic(c: Time, v: Time, run: seq<P.Action>, side: Side, i: nat)
    requires P.Feasible(P.Start(c, v), run) && i < |P.At(P.After(P.Start(c, v), run), side).objs|
    ensures var l := P.At(P.After(P.Start(c, v), run), side).objs[i].link;
            Chunks(l.calls) == ReadBy(run, side, i) && l.out.written == TakenBy(P.Start(c, v), run, side, i)
  {
    hide SystemOk, P.Feasible, P.After, Chunks, ReadBy, TakenBy;
    StartSystemOk(c, v);
    RunTraffic(P.Start(c, v), run, side, i);
    NothingYet(c, v, side, i);
    assert [] + ReadBy(run, side, i) == ReadBy(run, side, i);
    assert [] + TakenBy(P.Start(c, v), run, side, i) == TakenBy(P.Start(c, v), run, side, i);
  }

  /** Link object j of side has spoken for its connection: nobody else has said anything different or more. */
  ghost predicate Speaker(e: P.System, side: Side, j: nat, id: Id) {
    && j < |P.At(e, side).objs| && P.At(e, side).objs[j].id == id
    && Voice(P.At(e, side).objs, id, P.At(e, side).objs[j].link.calls)
    && |P.At(e, side).objs[j].link.calls| <= BAD_INDEX
  }

  /** Over every run of the whole system from its start, in both directions: the bytes that the socket of a link object
      has taken are a prefix of the bytes that the socket of its speaker has brought. If it has ended gracefully,
      without a dead-link stop, they are all of them. */
  lemma SocketToSocket(c: Time, v: Time, run: seq<P.Action>, side: Side, j: nat, i: nat)
    requires P.Feasible(P.Start(c, v), run)
    requires i < |P.At(P.After(P.Start(c, v), run), Other(side)).objs|
    requires var e := P.After(P.Start(c, v), run); Speaker(e, side, j, P.At(e, Other(side)).objs[i].id)
    ensures var o := P.At(P.After(P.Start(c, v), run), Other(side)).objs[i];
            var taken, brought := TakenBy(P.Start(c, v), run, Other(side), i), Concat(ReadBy(run, side, j));
            && taken <= brought
            && (o.link.end.Drained? && !o.killed ==> taken == brought)
  {
    var e := P.After(P.Start(c, v), run);
    var calls, o := P.At(e, side).objs[j].link.calls, P.At(e, Other(side)).objs[i];
    assert Reachable(e);
    hide Reachable, P.Feasible, P.After;
    StartTraffic(c, v, run, side, j);
    StartTraffic(c, v, run, Other(side), i);
    OutputIsPrefixOfInput(e, side, i, calls);
    if o.link.end.Drained? && !o.killed {
      GracefulCloseLosesNothing(e, side, i, calls);
    }
  }
}
