/** Exactly when the output of a link can be something that none of the link objects on the other side has read. */
module MixedOutput {
  import opened Bytes
  import opened Packets
  import opened PacketCache
  import opened OutLinkSpec
  import opened OutLinkProofs
  import opened Reassembly
  import opened Node
  import opened NodeProofs
  import opened EndToEnd
  import opened Projection
  import opened Mixtures
  import Wire
  import P = Protocol

  // ----- Events of a link that the system can bring about

  ghost predicate AllAt(run: seq<P.Action>, side: Side) {
    forall a <- run :: P.AtSide(a, side)
  }

  /** Data that the other side has sent, or a write or idle handler of the link. */
  predicate CanHappen(n: Node, id: Id, e: Event) {
    match e
    case Arrive(k, data) => Data(id, k, data) in n.trunk.sent
    case IdleHandler => true
    case WriteCompletes(_, _) => true
    case _ => false
  }

  function Cause(side: Side, id: Id, i: nat, e: Event): P.Action {
    if e.Arrive? then P.Deliver(side, Data(id, e.id, e.data), true, 0) else P.Local(side, i, e, 0)
  }

  /** Object i of the side is in the table. */
  ghost predicate InTable(s: P.System, side: Side, i: nat) {
    i < |P.At(s, side).objs| && Names(P.At(s, side), P.At(s, side).objs[i].id, i)
  }

  lemma ReceivedData(n: Node, p: Packet, i: nat, now: Time)
    requires p.Data? && Names(n, p.id, i) && i < |n.objs|
    ensures Receive(n, p, true, now).trunk.table == n.trunk.table
  {
    hide SendData;
  }

  lemma QuietEvent(n: Node, i: nat, e: Event, now: Time)
    requires i < |n.objs| && LinkOk(n.objs[i].link) && Enabled(n.objs[i].link, e)
    requires e.IdleHandler? || e.WriteCompletes?
    ensures LocalEvent(n, i, e, now).trunk == n.trunk
  {
    CallEffect(n.objs[i].link, e);
    hide Apply, Enabled;
  }

  /** Action a brings about event e of object i, and nothing else that matters here. */
  ghost predicate BringsAbout(s: P.System, a: P.Action, side: Side, i: nat, e: Event)
    requires i < |P.At(s, side).objs|
  {
    && P.Possible(s, a) && P.AtSide(a, side) && EventOf(s, a, side, i) == Some(e)
    && P.At(P.Do(s, a), side).trunk.table == P.At(s, side).trunk.table
    && P.At(P.Do(s, a), Other(side)) == P.At(s, Other(side))
  }

  lemma ArrivalIsCaused(s: P.System, side: Side, i: nat, k: U32, data: Octets)
    requires SystemOk(s) && InTable(s, side, i)
    requires Data(P.At(s, side).objs[i].id, k, data) in P.At(s, Other(side)).trunk.sent
    ensures BringsAbout(s, Cause(side, P.At(s, side).objs[i].id, i, Arrive(k, data)), side, i, Arrive(k, data))
  {
    hide SystemOk, Receive, Wire.Encode, Wire.Decode, Dies, Apply, Enabled;
    var n, p := P.At(s, side), Data(P.At(s, side).objs[i].id, k, data);
    SentFits(s, Other(side), p);
    DataIsDecoded(side, p);
    ReceivedData(n, p, i, 0);
    DoDeliver(s, side, p);
  }

  lemma DataIsDecoded(side: Side, p: Packet)
    requires p.Data? && |p.data| <= MAX_CHUNK_SIZE
    ensures Wire.Decode(side, Wire.Encode(Other(side), p)) == Some(p)
  {
    Wire.WireRoundTrip(Other(side), p);
  }

  lemma DoDeliver(s: P.System, side: Side, p: Packet)
    requires p in P.At(s, Other(side)).trunk.sent && (p.Data? ==> |p.data| < 0x1_0000_0000)
    requires Wire.Decode(side, Wire.Encode(Other(side), p)) == Some(p)
    ensures P.Do(s, P.Deliver(side, p, true, 0)) == P.Put(s, side, Receive(P.At(s, side), p, true, 0))
  {
    hide Receive, Wire.Encode, Wire.Decode;
  }

  lemma OwnEventIsCaused(s: P.System, side: Side, i: nat, e: Event)
    requires SystemOk(s) && InTable(s, side, i) && Enabled(P.At(s, side).objs[i].link, e)
    requires e.IdleHandler? || e.WriteCompletes?
    ensures BringsAbout(s, Cause(side, P.At(s, side).objs[i].id, i, e), side, i, e)
  {
    hide SystemOk, LinkOk, Enabled, Apply, LocalEvent;
    ObjectOk(s, side, i);
    QuietEvent(P.At(s, side), i, e, 0);
  }

  lemma CauseWorks(s: P.System, side: Side, i: nat, e: Event)
    requires SystemOk(s) && InTable(s, side, i) && Enabled(P.At(s, side).objs[i].link, e)
    requires CanHappen(P.At(s, Other(side)), P.At(s, side).objs[i].id, e)
    ensures BringsAbout(s, Cause(side, P.At(s, side).objs[i].id, i, e), side, i, e)
  {
    hide SystemOk, Enabled, BringsAbout;
    if e.Arrive? {
      ArrivalIsCaused(s, side, i, e.id, e.data);
    } else {
      OwnEventIsCaused(s, side, i, e);
    }
  }

  /** A run of events of object i that can happen is a run of the system, on this side only. */
  lemma {:induction false} RunIsCaused(s: P.System, side: Side, i: nat, es: seq<Event>) returns (run: seq<P.Action>)
    requires SystemOk(s) && InTable(s, side, i) && Possible(P.At(s, side).objs[i].link, es)
    requires forall e <- es :: CanHappen(P.At(s, Other(side)), P.At(s, side).objs[i].id, e)
    ensures P.Feasible(s, run) && AllAt(run, side)
    ensures i < |P.At(P.After(s, run), side).objs|
    ensures P.At(P.After(s, run), side).objs[i].id == P.At(s, side).objs[i].id
    ensures P.At(P.After(s, run), side).objs[i].link == Final(P.At(s, side).objs[i].link, es)
    ensures P.At(P.After(s, run), Other(side)) == P.At(s, Other(side))
    decreases es
  {
    hide SystemOk, CanHappen, P.Do, P.Possible, Apply, EventOf;
    run := [];
    if es != [] {
      var a := Cause(side, P.At(s, side).objs[i].id, i, es[0]);
      CauseWorks(s, side, i, es[0]);
      StepOk(s, a);
      StepProjects(s, a, side, i);
      var rest := RunIsCaused(P.Do(s, a), side, i, es[1..]);
      run := [a] + rest;
      assert run[1..] == rest;
    }
  }

  // ----- A link that hears a whole stream

  /** The chunks of src from the k-th on, then one round that writes everything. */
  function Hearing(src: seq<Octets>, k: nat): seq<Event>
    requires k <= |src| <= BAD_INDEX
    decreases |src| - k
  {
    if k == |src| then [IdleHandler, WriteCompletes(false, |Concat(src)|)]
    else [Arrive(k, src[k])] + Hearing(src, k + 1)
  }

  /** The write loop is on, and the first k chunks of src are all that has come. */
  ghost predicate HasHeard(l: Link, src: seq<Octets>, k: nat)
    requires k <= |src| <= BAD_INDEX
  {
    && LinkOk(l) && l.writing && !l.stopNow
    && l.out == NOTHING_OUT.(chunks := map j: U32 | j < k :: src[j])
  }

  lemma HasHeardNothing(l: Link, src: seq<Octets>, k: nat)
    requires k == 0 && |src| <= BAD_INDEX
    requires LinkOk(l) && l.writing && !l.stopNow && l.out == NOTHING_OUT
    ensures HasHeard(l, src, k)
  {
    var none := map j: U32 | j < k && j < |src| :: src[j];
    assert none == map[];
  }

  lemma HearsNext(l: Link, src: seq<Octets>, k: nat)
    requires k < |src| <= BAD_INDEX && HasHeard(l, src, k)
    ensures HasHeard(Apply(l, Arrive(k, src[k])), src, k + 1)
  {
    ApplyOk(l, Arrive(k, src[k]));
  }

  lemma FillsWithAll(o: Outgoing, src: seq<Octets>)
    requires |src| <= BAD_INDEX && o == NOTHING_OUT.(chunks := map j: U32 | j < |src| :: src[j])
    ensures Fill(o).buffer == Concat(src) && Fill(o).written == [] && Fill(o).next == |src|
    ensures Fill(o).stop == UNDEFINED_CHUNK && ChunksOk(o)
  {
    FilledUpTo(o, src, o.chunks.Keys, 0, |src|);
    FillOk(o);
    assert src[..|src|] == src && [] + Fill(o).buffer == Fill(o).buffer;
  }

  lemma IdleHandlerWrites(l: Link)
    requires l.woken > 0 && !l.stopNow && Fill(l.out).buffer != []
    ensures Apply(l, IdleHandler)
         == l.(woken := l.woken - 1, out := Fill(l.out), pendingWrites := l.pendingWrites + [Fill(l.out).buffer])
  {
    hide Fill;
  }

  lemma WholeWrite(l: Link)
    requires LinkOk(l) && l.pendingWrites != []
    ensures var e := WriteCompletes(false, |l.out.buffer|);
            Enabled(l, e) && Apply(l, e).out.written == l.out.written + l.out.buffer
  {
    var e := WriteCompletes(false, |l.out.buffer|);
    WriterEntered(l, e);
    OutEffect(l, e);
    FillOk(WriterEntry(l, e).out);
    assert l.out.buffer[..|l.out.buffer|] == l.out.buffer;
  }

  lemma WritesAll(l: Link, src: seq<Octets>)
    requires 0 < |src| <= BAD_INDEX && HasHeard(l, src, |src|) && Concat(src) != []
    ensures Possible(l, Hearing(src, |src|)) && Final(l, Hearing(src, |src|)).out.written == Concat(src)
  {
    var e := WriteCompletes(false, |Concat(src)|);
    FillsWithAll(l.out, src);
    assert l.woken == 1 && l.pendingWrites == [];
    var m := Apply(l, IdleHandler);
    ApplyOk(l, IdleHandler);
    hide LinkOk, Fill, Apply;
    IdleHandlerWrites(l);
    WholeWrite(m);
    assert [] + Concat(src) == Concat(src);
    TwoEvents(l, IdleHandler, e);
  }

  lemma TwoEvents(l: Link, e: Event, f: Event)
    requires Enabled(l, e) && Enabled(Apply(l, e), f)
    ensures Possible(l, [e, f]) && Final(l, [e, f]) == Apply(Apply(l, e), f)
  {
    hide Enabled, Apply;
    EventsFirst(Apply(l, e), f, []);
    assert [f] + [] == [f] && [e] + [f] == [e, f];
    EventsFirst(l, e, [f]);
  }

  lemma {:induction false} HearsAll(l: Link, src: seq<Octets>, k: nat)
    requires k <= |src| <= BAD_INDEX && src != [] && HasHeard(l, src, k) && Concat(src) != []
    ensures Possible(l, Hearing(src, k)) && Final(l, Hearing(src, k)).out.written == Concat(src)
    decreases |src| - k
  {
    if k == |src| {
      WritesAll(l, src);
    } else {
      HearsNext(l, src, k);
      HearsAll(Apply(l, Arrive(k, src[k])), src, k + 1);
      hide HasHeard, Apply;
      EventsFirst(l, Arrive(k, src[k]), Hearing(src, k + 1));
    }
  }

  // ----- Every mixture can be put out

  /** Link object i is in the table, its write loop is on, and nothing has come from the other side yet. */
  ghost predicate Untouched(s: P.System, side: Side, i: nat) {
    && InTable(s, side, i)
    && var l := P.At(s, side).objs[i].link; l.writing && !l.stopNow && l.out == NOTHING_OUT
  }

  lemma ChunkWasSent(n: Node, id: Id, k: U32, chunk: Octets)
    requires NodeOk(n) && Fits(n.objs, id) && ReadAt(n.objs, id, k, chunk)
    ensures Data(id, k, chunk) in n.trunk.sent && chunk != []
  {
    var j :| 0 <= j < |n.objs| && n.objs[j].id == id && HasChunk(n.objs[j].link.calls, k, chunk);
    assert AllSent(n.objs[j], n.trunk.sent) && LinkOk(n.objs[j].link);
    assert PacketOf(id, k, n.objs[j].link.calls[k]) in n.trunk.sent;
  }

  lemma {:induction false} HearingCanHappen(n: Node, id: Id, src: seq<Octets>, k: nat)
    requires NodeOk(n) && Fits(n.objs, id) && Mixture(n.objs, id, src) && k <= |src|
    ensures forall e <- Hearing(src, k) :: CanHappen(n, id, e)
    decreases |src| - k
  {
    hide NodeOk, Fits;
    if k < |src| {
      assert ReadAt(n.objs, id, k, src[k]);
      ChunkWasSent(n, id, k, src[k]);
      HearingCanHappen(n, id, src, k + 1);
    }
  }

  lemma MixtureHasBytes(n: Node, id: Id, src: seq<Octets>)
    requires NodeOk(n) && Fits(n.objs, id) && Mixture(n.objs, id, src) && src != []
    ensures Concat(src) != []
  {
    hide NodeOk, Fits;
    assert ReadAt(n.objs, id, |src| - 1, src[|src| - 1]);
    ChunkWasSent(n, id, |src| - 1, src[|src| - 1]);
  }

  /** Whatever mixture of the streams read on the other side: a link that has received nothing yet can put it out,
      with steps of its own side alone. */
  lemma MixtureCanBePutOut(s: P.System, side: Side, i: nat, src: seq<Octets>) returns (run: seq<P.Action>)
    requires Reachable(s) && Untouched(s, side, i)
    requires Fits(P.At(s, Other(side)).objs, P.At(s, side).objs[i].id)
    requires Mixture(P.At(s, Other(side)).objs, P.At(s, side).objs[i].id, src)
    ensures P.Feasible(s, run) && AllAt(run, side)
    ensures i < |P.At(P.After(s, run), side).objs|
    ensures P.At(P.After(s, run), side).objs[i].id == P.At(s, side).objs[i].id
    ensures P.At(P.After(s, run), side).objs[i].link.out.written == Concat(src)
    ensures P.At(P.After(s, run), Other(side)) == P.At(s, Other(side))
  {
    hide Reachable, SystemOk, NodeOk, Fits, Mixture, LinkOk, CanHappen, HasHeard, P.Do, Hearing;
    ReachableOk(s);
    var n, o := P.At(s, Other(side)), P.At(s, side).objs[i];
    run := [];
    if src != [] {
      NodeIsOk(s, Other(side));
      ObjectOk(s, side, i);
      MixtureHasBytes(n, o.id, src);
      MixtureIsShort(n.objs, o.id, src);
      HasHeardNothing(o.link, src, 0);
      HearsAll(o.link, src, 0);
      HearingCanHappen(n, o.id, src, 0);
      run := RunIsCaused(s, side, i, Hearing(src, 0));
    }
  }

  lemma MixtureIsShort(objs: seq<Obj>, id: Id, src: seq<Octets>)
    requires Mixture(objs, id, src)
    ensures |src| <= BAD_INDEX
  {
  }

  // ----- Exactly when the output belongs to one stream

  /** The bytes are a prefix of what one link object of the connection has read. */
  ghost predicate OfOneStream(objs: seq<Obj>, id: Id, bytes: Octets) {
    exists j :: 0 <= j < |objs| && objs[j].id == id && bytes <= Concat(Chunks(objs[j].link.calls))
  }

  /** The streams read under the connection cannot be mixed into anything else. This speaks of what has been read
      only, not of what has been sent or received. */
  ghost predicate CannotBeMixed(objs: seq<Obj>, id: Id) {
    forall src | Mixture(objs, id, src) :: OfOneStream(objs, id, Concat(src))
  }

  lemma PrefixOfOneStream(objs: seq<Obj>, id: Id, bytes: Octets, more: Octets)
    requires OfOneStream(objs, id, more) && bytes <= more
    ensures OfOneStream(objs, id, bytes)
  {
  }

  /** In every reachable state, in both directions: if the streams read under a connection cannot be mixed into
      anything else, every link object of the connection on the receiving side has put out a prefix of one of them. */
  lemma UnmixedOutputIsOfOneStream(s: P.System, side: Side, i: nat)
    requires Reachable(s) && i < |P.At(s, side).objs|
    requires Fits(P.At(s, Other(side)).objs, P.At(s, side).objs[i].id)
    requires CannotBeMixed(P.At(s, Other(side)).objs, P.At(s, side).objs[i].id)
    ensures OfOneStream(P.At(s, Other(side)).objs, P.At(s, side).objs[i].id, P.At(s, side).objs[i].link.out.written)
  {
    hide Reachable, OfOneStream;
    var objs, o := P.At(s, Other(side)).objs, P.At(s, side).objs[i];
    var src := OutputIsMixture(s, side, i);
    MixtureStart(objs, o.id, src, o.link.out.next);
    PrefixOfOneStream(objs, o.id, o.link.out.written, Concat(src[..o.link.out.next]));
  }

  lemma {:induction false} OtherSideWaits(s: P.System, run: seq<P.Action>, side: Side)
    requires P.Feasible(s, run) && AllAt(run, side)
    ensures P.At(P.After(s, run), Other(side)) == P.At(s, Other(side))
    decreases run
  {
    if run != [] {
      assert P.AtSide(run[0], side);
      DoAtSide(s, run[0], side);
      OtherSideWaits(P.Do(s, run[0]), run[1..], side);
    }
  }

  /** run is a run of one side alone after which object i has put out a prefix of one stream of the other side. */
  ghost predicate EndsInOneStream(s: P.System, run: seq<P.Action>, side: Side, i: nat)
    requires P.Feasible(s, run)
  {
    var end := P.After(s, run);
    i < |P.At(end, side).objs| ==>
      OfOneStream(P.At(end, Other(side)).objs, P.At(end, side).objs[i].id, P.At(end, side).objs[i].link.out.written)
  }

  /** In every reachable state, in both directions, for a link that has received nothing yet: whatever its side does
      with what the other side has sent, the link only ever puts out a prefix of one of the streams read there, if
      and only if these cannot be mixed into anything else. */
  lemma OutputIsOfOneStreamIff(s: P.System, side: Side, i: nat)
    requires Reachable(s) && Untouched(s, side, i)
    requires Fits(P.At(s, Other(side)).objs, P.At(s, side).objs[i].id)
    ensures (forall run | P.Feasible(s, run) && AllAt(run, side) :: EndsInOneStream(s, run, side, i))
       <==> CannotBeMixed(P.At(s, Other(side)).objs, P.At(s, side).objs[i].id)
  {
    hide Reachable, OfOneStream, Fits, Mixture;
    var objs, id := P.At(s, Other(side)).objs, P.At(s, side).objs[i].id;
    if CannotBeMixed(objs, id) {
      forall run | P.Feasible(s, run) && AllAt(run, side) ensures EndsInOneStream(s, run, side, i) {
        UnmixedRun(s, run, side, i);
      }
    }
    if forall run | P.Feasible(s, run) && AllAt(run, side) :: EndsInOneStream(s, run, side, i) {
      forall src | Mixture(objs, id, src) ensures OfOneStream(objs, id, Concat(src)) {
        var run := MixtureCanBePutOut(s, side, i, src);
        assert EndsInOneStream(s, run, side, i);
      }
    }
  }

  lemma UnmixedRun(s: P.System, run: seq<P.Action>, side: Side, i: nat)
    requires Reachable(s) && i < |P.At(s, side).objs| && P.Feasible(s, run) && AllAt(run, side)
    requires Fits(P.At(s, Other(side)).objs, P.At(s, side).objs[i].id)
    requires CannotBeMixed(P.At(s, Other(side)).objs, P.At(s, side).objs[i].id)
    ensures EndsInOneStream(s, run, side, i)
  {
    ReachableOk(s);
    RunProjects(s, run, side, i);
    OtherSideWaits(s, run, side);
    StaysReachable(s, run);
    hide Reachable, SystemOk, OfOneStream, Fits, Mixture, CannotBeMixed, AllAt;
    UnmixedOutputIsOfOneStream(P.After(s, run), side, i);
  }

  /** Link objects that said the same cannot be mixed into anything else. */
  lemma SameStreamCannotBeMixed(objs: seq<Obj>, id: Id, calls: seq<HosterCall>)
    requires Voice(objs, id, calls) && CloseIsLast(calls) && Says(objs, id, calls)
    ensures CannotBeMixed(objs, id)
  {
    var j :| 0 <= j < |objs| && objs[j].id == id && objs[j].link.calls == calls;
    forall src | Mixture(objs, id, src) ensures OfOneStream(objs, id, Concat(src)) {
      MixtureOfOneVoice(objs, id, src, calls);
      ConcatPrefix(Chunks(calls), |src|);
      assert Chunks(calls)[..|src|] == src;
    }
  }
}
