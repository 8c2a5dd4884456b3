/** The two resend caches: packets are repeated on timer ticks until a deadline. */
module PacketCache {
  import opened Bytes
  import opened Packets

  /** Readings of the steady clock, in nanoseconds. */
  type Time = int

  const MS := 1_000_000
  const RESEND_TIMEOUT := 300 * MS
  const DEADLINE_TIMEOUT := 2000 * MS

  datatype Cached = Cached(info: Packet, deadline: Time, nextSend: Time)

  /** The data cache repeats a packet strictly after its time, the connect cache also exactly on it. */
  datatype Policy = DataCache | ConnectCache

  predicate Due(policy: Policy, c: Cached, now: Time) {
    match policy
    case DataCache => now > c.nextSend
    case ConnectCache => !(c.nextSend > now)
  }

  function Put(items: seq<Cached>, info: Packet, now: Time): seq<Cached> {
    items + [Cached(info, now + DEADLINE_TIMEOUT, now + RESEND_TIMEOUT)]
  }

  function Unexpired(items: seq<Cached>, now: Time): seq<Cached> {
    if items == [] then []
    else
      var c := items[|items| - 1];
      var rest := Unexpired(items[..|items| - 1], now);
      if now > c.deadline then rest else rest + [c]
  }

  function Postpone(policy: Policy, c: Cached, now: Time): Cached {
    if Due(policy, c, now) then c.(nextSend := now + RESEND_TIMEOUT) else c
  }

  function PostponeAll(policy: Policy, items: seq<Cached>, now: Time): seq<Cached> {
    seq(|items|, i requires 0 <= i < |items| => Postpone(policy, items[i], now))
  }

  function DueInfos(policy: Policy, items: seq<Cached>, now: Time): seq<Packet> {
    if items == [] then []
    else
      var c := items[|items| - 1];
      var rest := DueInfos(policy, items[..|items| - 1], now);
      if Due(policy, c, now) then rest + [c.info] else rest
  }

  function Without(items: seq<Cached>, id: Id): seq<Cached> {
    if items == [] then []
    else
      var c := items[|items| - 1];
      var rest := Without(items[..|items| - 1], id);
      if c.info.id == id then rest else rest + [c]
  }

  // ----- The loops of the program

  /** Compacts the vector in place, the kept items in front, then truncates it. */
  method RemoveExpired(items: seq<Cached>, now: Time) returns (kept: seq<Cached>)
    ensures kept == Unexpired(items, now)
  {
    kept := items;
    var tail := 0;
    for i := 0 to |items|
      invariant 0 <= tail <= i && |kept| == |items|
      invariant kept[..tail] == Unexpired(items[..i], now)
      invariant forall j | i <= j < |items| :: kept[j] == items[j]
    {
      assert items[..i + 1][..i] == items[..i];
      if !(now > kept[i].deadline) {
        kept := kept[tail := kept[i]];
        tail := tail + 1;
      }
    }
    assert items[..|items|] == items;
    kept := kept[..tail];
  }

  method OnCacheResend(policy: Policy, items: seq<Cached>, now: Time) returns (kept: seq<Cached>, out: seq<Packet>)
    ensures kept == PostponeAll(policy, Unexpired(items, now), now)
    ensures out == DueInfos(policy, Unexpired(items, now), now)
  {
    kept := RemoveExpired(items, now);
    ghost var live := kept;
    out := [];
    for i := 0 to |kept|
      invariant |kept| == |live| && forall j | i <= j < |live| :: kept[j] == live[j]
      invariant kept[..i] == PostponeAll(policy, live[..i], now)
      invariant out == DueInfos(policy, live[..i], now)
    {
      assert live[..i + 1][..i] == live[..i];
      if Due(policy, kept[i], now) {
        kept := kept[i := kept[i].(nextSend := now + RESEND_TIMEOUT)];
        out := out + [kept[i].info];
      }
    }
    assert live[..|live|] == live;
  }

  /** Erases one entry after the other, keeping the order of the rest. */
  method Forget(items: seq<Cached>, id: Id) returns (kept: seq<Cached>)
    ensures kept == Without(items, id)
  {
    kept := items;
    var it := 0;
    ghost var seen := 0;
    while it < |kept|
      invariant 0 <= it <= |kept| && 0 <= seen <= |items| && |kept| - it == |items| - seen
      invariant kept[..it] == Without(items[..seen], id)
      invariant kept[it..] == items[seen..]
      decreases |kept| - it
    {
      assert items[..seen + 1][..seen] == items[..seen];
      assert kept[it] == kept[it..][0] == items[seen];
      if kept[it].info.id != id {
        it := it + 1;
      } else {
        kept := kept[..it] + kept[it + 1..];
      }
      seen := seen + 1;
    }
    assert items[..|items|] == items;
  }

  // ----- Whole runs: pushes, ticks and acknowledgements, with everything sent and when

  datatype CacheEvent = Push(info: Packet) | Tick | Ack(id: Id)

  datatype Timed = Timed(at: Time, event: CacheEvent)

  datatype Sent = Sent(at: Time, info: Packet)

  datatype CacheState = CacheState(items: seq<Cached>, log: seq<Sent>)

  function Stamp(infos: seq<Packet>, now: Time): seq<Sent> {
    seq(|infos|, i requires 0 <= i < |infos| => Sent(now, infos[i]))
  }

  function Step(policy: Policy, s: CacheState, e: Timed): CacheState {
    match e.event
    case Push(info) => CacheState(Put(s.items, info, e.at), s.log + [Sent(e.at, info)])
    case Tick =>
      var live := Unexpired(s.items, e.at);
      CacheState(PostponeAll(policy, live, e.at), s.log + Stamp(DueInfos(policy, live, e.at), e.at))
    case Ack(id) => CacheState(Without(s.items, id), s.log)
  }

  function Steps(policy: Policy, s: CacheState, es: seq<Timed>): CacheState
    decreases es
  {
    if es == [] then s else Steps(policy, Step(policy, s, es[0]), es[1..])
  }

  predicate Monotone(es: seq<Timed>, from: Time) {
    es == [] || (from <= es[0].at && Monotone(es[1..], es[0].at))
  }

  function Pushes(es: seq<Timed>, p: Packet): nat {
    if es == [] then 0 else (if es[0].event == Push(p) then 1 else 0) + Pushes(es[1..], p)
  }

  /** When copies of p were sent. */
  function TimesOf(log: seq<Sent>, p: Packet): seq<Time> {
    if log == [] then []
    else
      var s := log[|log| - 1];
      var rest := TimesOf(log[..|log| - 1], p);
      if s.info == p then rest + [s.at] else rest
  }

  // ----- Projection of a cache on one packet

  function Only(items: seq<Cached>, p: Packet): seq<Cached> {
    if items == [] then []
    else
      var c := items[|items| - 1];
      var rest := Only(items[..|items| - 1], p);
      if c.info == p then rest + [c] else rest
  }

  lemma OnlySnoc(items: seq<Cached>, c: Cached, p: Packet)
    ensures Only(items + [c], p) == if c.info == p then Only(items, p) + [c] else Only(items, p)
  {
    assert (items + [c])[..|items|] == items;
  }

  lemma {:induction false} OnlyUnexpired(items: seq<Cached>, p: Packet, now: Time)
    ensures Only(Unexpired(items, now), p) == Unexpired(Only(items, p), now)
  {
    if items != [] {
      var front, c := items[..|items| - 1], items[|items| - 1];
      OnlyUnexpired(front, p, now);
      OnlySnoc(Unexpired(front, now), c, p);
      assert (Only(front, p) + [c])[..|Only(front, p)|] == Only(front, p);
    }
  }

  lemma {:induction false} OnlyPostponed(policy: Policy, items: seq<Cached>, p: Packet, now: Time)
    ensures Only(PostponeAll(policy, items, now), p) == PostponeAll(policy, Only(items, p), now)
  {
    if items != [] {
      var front := items[..|items| - 1];
      OnlyPostponed(policy, front, p, now);
      var o := Only(front, p);
      assert PostponeAll(policy, items, now)[..|items| - 1] == PostponeAll(policy, front, now);
      assert PostponeAll(policy, o + [items[|items| - 1]], now)[..|o|] == PostponeAll(policy, o, now);
    }
  }

  lemma {:induction false} OnlyWithout(items: seq<Cached>, p: Packet, id: Id)
    ensures Only(Without(items, id), p) == if p.id == id then [] else Only(items, p)
  {
    if items != [] {
      var front, c := items[..|items| - 1], items[|items| - 1];
      OnlyWithout(front, p, id);
      OnlySnoc(Without(front, id), c, p);
    }
  }

  lemma {:induction false} TimesOfConcat(log: seq<Sent>, more: seq<Sent>, p: Packet)
    ensures TimesOf(log + more, p) == TimesOf(log, p) + TimesOf(more, p)
  {
    if more == [] {
      assert log + more == log;
    } else {
      TimesOfConcat(log, more[..|more| - 1], p);
      assert (log + more)[..|log + more| - 1] == log + more[..|more| - 1];
    }
  }

  function Repeated(now: Time, n: nat): seq<Time> {
    seq(n, _ => now)
  }

  lemma TimesOfSnoc(log: seq<Sent>, s: Sent, p: Packet)
    ensures TimesOf(log + [s], p) == if s.info == p then TimesOf(log, p) + [s.at] else TimesOf(log, p)
  {
    assert (log + [s])[..|log|] == log;
  }

  lemma {:induction false} TimesOfDue(policy: Policy, items: seq<Cached>, p: Packet, now: Time)
    ensures TimesOf(Stamp(DueInfos(policy, items, now), now), p)
         == Repeated(now, |DueInfos(policy, Only(items, p), now)|)
  {
    if items != [] {
      var front, c := items[..|items| - 1], items[|items| - 1];
      TimesOfDue(policy, front, p, now);
      var d, o := DueInfos(policy, front, now), Only(front, p);
      assert (o + [c])[..|o|] == o;
      if Due(policy, c, now) {
        assert Stamp(d + [c.info], now) == Stamp(d, now) + [Sent(now, c.info)];
        TimesOfSnoc(Stamp(d, now), Sent(now, c.info), p);
      }
    }
  }

  /** One step as seen by packet p alone. */
  lemma StepOnly(policy: Policy, s: CacheState, e: Timed, p: Packet)
    ensures var t := Step(policy, s, e);
            var alone := Step(policy, CacheState(Only(s.items, p), []), e);
            match e.event {
              case Push(info) =>
                && Only(t.items, p) == (if info == p then Put(Only(s.items, p), p, e.at) else Only(s.items, p))
                && TimesOf(t.log, p) == TimesOf(s.log, p) + (if info == p then [e.at] else [])
              case Tick =>
                && Only(t.items, p) == alone.items
                && TimesOf(t.log, p) == TimesOf(s.log, p) + Repeated(e.at, |alone.log|)
              case Ack(id) =>
                && Only(t.items, p) == (if p.id == id then [] else Only(s.items, p))
                && TimesOf(t.log, p) == TimesOf(s.log, p)
            }
  {
    match e.event
    case Push(info) =>
      assert (s.log + [Sent(e.at, info)])[..|s.log|] == s.log;
      assert Put(s.items, info, e.at)[..|s.items|] == s.items;
    case Tick =>
      var live := Unexpired(s.items, e.at);
      OnlyUnexpired(s.items, p, e.at);
      OnlyPostponed(policy, live, p, e.at);
      TimesOfConcat(s.log, Stamp(DueInfos(policy, live, e.at), e.at), p);
      TimesOfDue(policy, live, p, e.at);
    case Ack(id) =>
      OnlyWithout(s.items, p, id);
  }
}
