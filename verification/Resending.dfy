/** How often, how far apart and for how long a cached packet is repeated, over any run of a cache. */
module Resending {
  import opened Bytes
  import opened Packets
  import opened PacketCache

  const EMPTY_CACHE := CacheState([], [])

  /** The longest a packet can be repeated: 7 copies. */
  const MAX_COPIES := 7

  predicate Spaced(policy: Policy, t: seq<Time>) {
    forall i {:trigger t[i]} | 0 < i < |t| ::
      if policy.DataCache? then t[i] - t[i - 1] > RESEND_TIMEOUT else t[i] - t[i - 1] >= RESEND_TIMEOUT
  }

  /** Copies of a packet sent at the times t respect the resend interval and the deadline. */
  predicate Bounded(policy: Policy, t: seq<Time>) {
    Spaced(policy, t) && (t != [] ==> t[|t| - 1] - t[0] <= DEADLINE_TIMEOUT)
  }

  lemma {:induction false} SpacedSpan(policy: Policy, t: seq<Time>)
    requires Spaced(policy, t) && t != []
    ensures t[|t| - 1] - t[0] >= (|t| - 1) * RESEND_TIMEOUT
  {
    if |t| > 1 {
      var front := t[..|t| - 1];
      assert t[|t| - 1] - t[|t| - 2] >= RESEND_TIMEOUT;
      SpacedSpan(policy, front);
    }
  }

  lemma AtMostSevenCopies(policy: Policy, t: seq<Time>)
    requires Bounded(policy, t)
    ensures |t| <= MAX_COPIES
  {
    if t != [] {
      SpacedSpan(policy, t);
    }
  }

  // ----- Upper bounds

  /** The state as seen by a packet pushed at most once: its entry, if still cached, remembers the first and
      the last copy. */
  ghost predicate Slot(policy: Policy, s: CacheState, p: Packet, now: Time) {
    var o, t := Only(s.items, p), TimesOf(s.log, p);
    && Bounded(policy, t)
    && (t == [] ==> o == [])
    && (t != [] ==> t[|t| - 1] <= now)
    && (o != [] ==> o == [Cached(p, t[0] + DEADLINE_TIMEOUT, t[|t| - 1] + RESEND_TIMEOUT)])
  }

  /** A tick on a cache that holds one entry. */
  lemma TickOnOne(policy: Policy, c: Cached, now: Time)
    ensures var s := Step(policy, CacheState([c], []), Timed(now, Tick));
            if now > c.deadline then s == CacheState([], [])
            else if Due(policy, c, now) then
              s == CacheState([c.(nextSend := now + RESEND_TIMEOUT)], [Sent(now, c.info)])
            else s == CacheState([c], [])
  {
    assert [c][..0] == [];
    assert Unexpired([c], now) == if now > c.deadline then [] else [c];
    assert PostponeAll(policy, [c], now) == [Postpone(policy, c, now)];
    assert DueInfos(policy, [c], now) == if Due(policy, c, now) then [c.info] else [];
    assert Stamp([c.info], now) == [Sent(now, c.info)];
  }

  lemma SpacedSnoc(policy: Policy, t: seq<Time>, now: Time)
    requires Spaced(policy, t)
    requires t != [] ==>
               var gap := now - t[|t| - 1]; if policy.DataCache? then gap > RESEND_TIMEOUT else gap >= RESEND_TIMEOUT
    ensures Spaced(policy, t + [now])
  {
  }

  lemma TickKeepsSlot(policy: Policy, s: CacheState, at: Time, p: Packet, now: Time)
    requires Slot(policy, s, p, now) && now <= at && Only(s.items, p) != []
    ensures Slot(policy, Step(policy, s, Timed(at, Tick)), p, at)
  {
    hide Only, TimesOf, Step;
    var c, t := Only(s.items, p)[0], TimesOf(s.log, p);
    StepOnly(policy, s, Timed(at, Tick), p);
    TickOnOne(policy, c, at);
    assert t + Repeated(at, 0) == t && Repeated(at, 1) == [at];
    if at <= c.deadline && Due(policy, c, at) {
      SpacedSnoc(policy, t, at);
    }
  }

  lemma PushKeepsSlot(policy: Policy, s: CacheState, at: Time, info: Packet, p: Packet, now: Time)
    requires Slot(policy, s, p, now) && now <= at && (info == p ==> TimesOf(s.log, p) == [])
    ensures Slot(policy, Step(policy, s, Timed(at, Push(info))), p, at)
    ensures info != p ==> TimesOf(Step(policy, s, Timed(at, Push(info))).log, p) == TimesOf(s.log, p)
  {
    hide Step, Only, TimesOf;
    StepOnly(policy, s, Timed(at, Push(info)), p);
  }

  lemma AckKeepsSlot(policy: Policy, s: CacheState, at: Time, id: Id, p: Packet, now: Time)
    requires Slot(policy, s, p, now) && now <= at
    ensures Slot(policy, Step(policy, s, Timed(at, Ack(id))), p, at)
    ensures TimesOf(Step(policy, s, Timed(at, Ack(id))).log, p) == TimesOf(s.log, p)
  {
    hide Step, Only, TimesOf;
    StepOnly(policy, s, Timed(at, Ack(id)), p);
  }

  lemma IdleTickKeepsSlot(policy: Policy, s: CacheState, at: Time, p: Packet, now: Time)
    requires Slot(policy, s, p, now) && now <= at && Only(s.items, p) == []
    ensures Slot(policy, Step(policy, s, Timed(at, Tick)), p, at)
    ensures TimesOf(Step(policy, s, Timed(at, Tick)).log, p) == TimesOf(s.log, p)
  {
    hide Only, TimesOf;
    StepOnly(policy, s, Timed(at, Tick), p);
    assert TimesOf(s.log, p) + Repeated(at, 0) == TimesOf(s.log, p);
  }

  lemma StepKeepsSlot(policy: Policy, s: CacheState, e: Timed, p: Packet, now: Time)
    requires Slot(policy, s, p, now) && now <= e.at
    requires e.event == Push(p) ==> TimesOf(s.log, p) == []
    ensures Slot(policy, Step(policy, s, e), p, e.at)
    ensures e.event != Push(p) && TimesOf(s.log, p) == [] ==> TimesOf(Step(policy, s, e).log, p) == []
  {
    hide Step, Only, TimesOf, Bounded;
    match e.event
    case Push(info) => PushKeepsSlot(policy, s, e.at, info, p, now);
    case Ack(id) => AckKeepsSlot(policy, s, e.at, id, p, now);
    case Tick =>
      if Only(s.items, p) == [] {
        IdleTickKeepsSlot(policy, s, e.at, p, now);
      } else {
        TickKeepsSlot(policy, s, e.at, p, now);
      }
  }

  lemma {:induction false} RunKeepsSlot(policy: Policy, s: CacheState, es: seq<Timed>, p: Packet, now: Time)
    requires Slot(policy, s, p, now) && Monotone(es, now)
    requires Pushes(es, p) <= (if TimesOf(s.log, p) == [] then 1 else 0)
    ensures Bounded(policy, TimesOf(Steps(policy, s, es).log, p))
    decreases es
  {
    if es != [] {
      StepKeepsSlot(policy, s, es[0], p, now);
      RunKeepsSlot(policy, Step(policy, s, es[0]), es[1..], p, es[0].at);
    }
  }

  /** Over any run of a cache with a clock that does not go back, a packet pushed at most once is sent at most
      7 times, its copies are more than 300 ms apart (at least 300 ms in the connect cache), and none is sent
      later than 2000 ms after the first. */
  lemma ResendsAreBounded(policy: Policy, es: seq<Timed>, p: Packet, start: Time)
    requires Monotone(es, start) && Pushes(es, p) <= 1
    ensures var t := TimesOf(Steps(policy, EMPTY_CACHE, es).log, p);
            |t| <= MAX_COPIES && Bounded(policy, t)
  {
    RunKeepsSlot(policy, EMPTY_CACHE, es, p, start);
    AtMostSevenCopies(policy, TimesOf(Steps(policy, EMPTY_CACHE, es).log, p));
  }

  // ----- A packet pushed several times

  /** How many more copies an entry can still give. */
  function CopiesLeft(c: Cached): nat {
    if c.nextSend > c.deadline then 0 else (c.deadline - c.nextSend) / RESEND_TIMEOUT + 1
  }

  function AllCopiesLeft(items: seq<Cached>): nat {
    if items == [] then 0 else AllCopiesLeft(items[..|items| - 1]) + CopiesLeft(items[|items| - 1])
  }

  lemma AllCopiesLeftSnoc(items: seq<Cached>, c: Cached)
    ensures AllCopiesLeft(items + [c]) == AllCopiesLeft(items) + CopiesLeft(c)
  {
    assert (items + [c])[..|items|] == items;
  }

  lemma SentCopyIsOneLess(policy: Policy, c: Cached, now: Time)
    requires now <= c.deadline
    ensures CopiesLeft(Postpone(policy, c, now)) + (if Due(policy, c, now) then 1 else 0) <= CopiesLeft(c)
  {
    if Due(policy, c, now) && now + RESEND_TIMEOUT <= c.deadline {
      QuotientStep(c.deadline - (now + RESEND_TIMEOUT), c.deadline - c.nextSend);
    }
  }

  lemma QuotientStep(a: nat, b: nat)
    requires a + RESEND_TIMEOUT <= b
    ensures a / RESEND_TIMEOUT + 1 <= b / RESEND_TIMEOUT
  {
  }

  lemma {:induction false} TickUsesCopies(policy: Policy, items: seq<Cached>, now: Time)
    ensures var live := Unexpired(items, now);
            |DueInfos(policy, live, now)| + AllCopiesLeft(PostponeAll(policy, live, now)) <= AllCopiesLeft(items)
  {
    if items != [] {
      var front, c := items[..|items| - 1], items[|items| - 1];
      var live := Unexpired(front, now);
      TickUsesCopies(policy, front, now);
      if now <= c.deadline {
        assert (live + [c])[..|live|] == live;
        assert PostponeAll(policy, live + [c], now) == PostponeAll(policy, live, now) + [Postpone(policy, c, now)];
        AllCopiesLeftSnoc(PostponeAll(policy, live, now), Postpone(policy, c, now));
        SentCopyIsOneLess(policy, c, now);
      }
    }
  }

  /** Copies sent and copies left. */
  function Copies(s: CacheState, p: Packet): nat {
    |TimesOf(s.log, p)| + AllCopiesLeft(Only(s.items, p))
  }

  /** A tick on the entries of one packet. */
  lemma TickAlone(policy: Policy, own: seq<Cached>, now: Time)
    ensures var alone := Step(policy, CacheState(own, []), Timed(now, Tick));
            |alone.log| + AllCopiesLeft(alone.items) <= AllCopiesLeft(own)
  {
    TickUsesCopies(policy, own, now);
    hide AllCopiesLeft, Unexpired, PostponeAll, DueInfos;
  }

  lemma StepUsesCopies(policy: Policy, s: CacheState, e: Timed, p: Packet)
    ensures Copies(Step(policy, s, e), p) <= Copies(s, p) + if e.event == Push(p) then MAX_COPIES else 0
  {
    hide Step, TimesOf, Only;
    StepOnly(policy, s, e, p);
    var own := Only(s.items, p);
    match e.event
    case Push(info) =>
      AllCopiesLeftSnoc(own, Cached(p, e.at + DEADLINE_TIMEOUT, e.at + RESEND_TIMEOUT));
    case Tick =>
      TickAlone(policy, own, e.at);
      assert e == Timed(e.at, Tick);
    case Ack(_) =>
  }

  lemma {:induction false} RunUsesCopies(policy: Policy, s: CacheState, es: seq<Timed>, p: Packet)
    ensures Copies(Steps(policy, s, es), p) <= Copies(s, p) + MAX_COPIES * Pushes(es, p)
    decreases es
  {
    if es != [] {
      hide Copies, Step;
      StepUsesCopies(policy, s, es[0], p);
      RunUsesCopies(policy, Step(policy, s, es[0]), es[1..], p);
    }
  }

  /** Over any run of a cache, whatever the clock does, a packet is sent at most 7 times for each time it was
      pushed. */
  lemma AtMostSevenCopiesPerPush(policy: Policy, es: seq<Timed>, p: Packet)
    ensures |TimesOf(Steps(policy, EMPTY_CACHE, es).log, p)| <= MAX_COPIES * Pushes(es, p)
  {
    RunUsesCopies(policy, EMPTY_CACHE, es, p);
  }

  // ----- Lower bound

  /** While the clock has not passed until, ticks are at most g apart, the last one before es being at last. */
  predicate Dense(es: seq<Timed>, last: Time, g: Time, until: Time) {
    es == [] ||
    if es[0].event.Tick? then (last <= until ==> es[0].at - last <= g) && Dense(es[1..], es[0].at, g, until)
    else Dense(es[1..], last, g, until)
  }

  predicate TickAfter(es: seq<Timed>, time: Time) {
    exists e <- es :: e.event.Tick? && e.at > time
  }

  predicate Undisturbed(es: seq<Timed>, p: Packet) {
    forall e <- es :: e.event != Push(p) && e.event != Ack(p.id)
  }

  /** p, first sent at t0, is still cached and has been repeated at the pace of at least once per 300 ms + g. */
  ghost predicate OnPace(s: CacheState, p: Packet, t0: Time, last: Time, g: Time) {
    var t := TimesOf(s.log, p);
    && t != [] && t[0] == t0
    && Only(s.items, p) == [Cached(p, t0 + DEADLINE_TIMEOUT, t[|t| - 1] + RESEND_TIMEOUT)]
    && t[|t| - 1] <= t0 + (|t| - 1) * (RESEND_TIMEOUT + g)
    && last <= t[|t| - 1] + RESEND_TIMEOUT && last <= t0 + DEADLINE_TIMEOUT
  }

  /** p has been evicted after enough copies. */
  ghost predicate Evicted(s: CacheState, p: Packet, g: Time) {
    Only(s.items, p) == [] && DEADLINE_TIMEOUT < |TimesOf(s.log, p)| * (RESEND_TIMEOUT + g)
  }

  lemma TickKeepsPace(policy: Policy, s: CacheState, now: Time, p: Packet, t0: Time, last: Time, g: Time)
    requires OnPace(s, p, t0, last, g) && last <= now <= last + g
    ensures var s' := Step(policy, s, Timed(now, Tick));
            if now > t0 + DEADLINE_TIMEOUT then Evicted(s', p, g) else OnPace(s', p, t0, now, g)
  {
    hide Only, TimesOf, Step;
    var t, c := TimesOf(s.log, p), Only(s.items, p)[0];
    StepOnly(policy, s, Timed(now, Tick), p);
    TickOnOne(policy, c, now);
    var n, pace := |t|, RESEND_TIMEOUT + g;
    assert n * pace == (n - 1) * pace + pace;
    assert Repeated(now, 1) == [now];
  }

  /** p has been evicted, or is on pace and will be. */
  ghost predicate Paced(s: CacheState, es: seq<Timed>, p: Packet, t0: Time, last: Time, g: Time) {
    Evicted(s, p, g) || (OnPace(s, p, t0, last, g) && TickAfter(es, t0 + DEADLINE_TIMEOUT))
  }

  lemma TickPaces(policy: Policy, s: CacheState, e: Timed, rest: seq<Timed>, p: Packet, t0: Time, last: Time, g: Time)
    requires Paced(s, [e] + rest, p, t0, last, g) && e.event.Tick? && last <= e.at
    requires last <= t0 + DEADLINE_TIMEOUT ==> e.at - last <= g
    ensures Paced(Step(policy, s, e), rest, p, t0, e.at, g)
  {
    if Evicted(s, p, g) {
      hide TimesOf;
      StepOnly(policy, s, e, p);
      assert TimesOf(s.log, p) + Repeated(e.at, 0) == TimesOf(s.log, p);
    } else {
      hide Step, TimesOf;
      TickKeepsPace(policy, s, e.at, p, t0, last, g);
      assert e == Timed(e.at, Tick);
      if e.at <= t0 + DEADLINE_TIMEOUT {
        LaterTick(e, rest, t0 + DEADLINE_TIMEOUT);
      }
    }
  }

  lemma LaterTick(e: Timed, rest: seq<Timed>, time: Time)
    requires TickAfter([e] + rest, time) && !(e.event.Tick? && e.at > time)
    ensures TickAfter(rest, time)
  {
    var f :| f in [e] + rest && f.event.Tick? && f.at > time;
    assert f in rest;
  }

  lemma OtherPaces(policy: Policy, s: CacheState, e: Timed, rest: seq<Timed>, p: Packet, t0: Time, last: Time, g: Time)
    requires Paced(s, [e] + rest, p, t0, last, g) && !e.event.Tick?
    requires e.event != Push(p) && e.event != Ack(p.id)
    ensures Paced(Step(policy, s, e), rest, p, t0, last, g)
  {
    hide Step, TimesOf, Only;
    StepOnly(policy, s, e, p);
    if !Evicted(s, p, g) {
      LaterTick(e, rest, t0 + DEADLINE_TIMEOUT);
    }
  }

  lemma {:induction false} RunKeepsPace(policy: Policy, s: CacheState, es: seq<Timed>, p: Packet, t0: Time, last: Time,
                                       now: Time, g: Time)
    requires Monotone(es, now) && last <= now && Undisturbed(es, p) && 0 <= g
    requires Dense(es, last, g, t0 + DEADLINE_TIMEOUT) && Paced(s, es, p, t0, last, g)
    ensures Evicted(Steps(policy, s, es), p, g)
    decreases es
  {
    hide Step, Evicted, OnPace;
    if es == [] {
      assert !TickAfter(es, t0 + DEADLINE_TIMEOUT);
    } else {
      var e, rest := es[0], es[1..];
      assert e in es && es == [e] + rest;
      if e.event.Tick? {
        TickPaces(policy, s, e, rest, p, t0, last, g);
      } else {
        OtherPaces(policy, s, e, rest, p, t0, last, g);
      }
      hide Paced;
      RunKeepsPace(policy, Step(policy, s, e), rest, p, t0, if e.event.Tick? then e.at else last, e.at, g);
    }
  }

  lemma QuotientBelow(a: nat, n: int, d: int)
    requires d > 0 && a < n * d
    ensures a / d < n
  {
  }

  /** If from the push of p until its deadline has passed the ticks are at most g apart, and p is not
      acknowledged, at least floor(2000 / (300 + g)) copies follow the first (times in ms). */
  lemma ResendsHappen(policy: Policy, before: CacheState, t0: Time, p: Packet, after: seq<Timed>, g: Time)
    requires Only(before.items, p) == [] && TimesOf(before.log, p) == []
    requires 0 <= g && Monotone(after, t0) && Undisturbed(after, p)
    requires Dense(after, t0, g, t0 + DEADLINE_TIMEOUT) && TickAfter(after, t0 + DEADLINE_TIMEOUT)
    ensures var t := TimesOf(Steps(policy, Step(policy, before, Timed(t0, Push(p))), after).log, p);
            |t| - 1 >= DEADLINE_TIMEOUT / (RESEND_TIMEOUT + g)
  {
    var pushed := Step(policy, before, Timed(t0, Push(p)));
    StepOnly(policy, before, Timed(t0, Push(p)), p);
    assert OnPace(pushed, p, t0, t0, g);
    RunKeepsPace(policy, pushed, after, p, t0, t0, t0, g);
    QuotientBelow(DEADLINE_TIMEOUT, |TimesOf(Steps(policy, pushed, after).log, p)|, RESEND_TIMEOUT + g);
  }

  // ----- Exactly when copies leave

  /** A copy may leave at this time if the last one left then: strictly later than 300 ms after it in the data cache,
      and also exactly then in the connect cache. */
  predicate MayFollow(policy: Policy, last: Time, now: Time) {
    if policy.DataCache? then now - last > 300 * MS else now - last >= 300 * MS
  }

  /** When copies of a packet leave that was first sent at t0, the last time at last: on each tick not later than
      2000 ms after t0 that may follow the copy before. */
  function CopyTimes(policy: Policy, t0: Time, last: Time, es: seq<Timed>): seq<Time>
    decreases es
  {
    if es == [] then []
    else if es[0].event.Tick? && MayFollow(policy, last, es[0].at) && es[0].at - t0 <= 2000 * MS
    then [es[0].at] + CopyTimes(policy, t0, es[0].at, es[1..])
    else CopyTimes(policy, t0, last, es[1..])
  }

  /** The entry of p, if any, remembers t0 and last; without one, no copy may leave any more. */
  ghost predicate Entry(s: CacheState, p: Packet, t0: Time, last: Time, now: Time) {
    || Only(s.items, p) == [Cached(p, t0 + DEADLINE_TIMEOUT, last + RESEND_TIMEOUT)]
    || (Only(s.items, p) == [] && now - t0 > DEADLINE_TIMEOUT)
  }

  lemma EntryStep(policy: Policy, s: CacheState, e: Timed, p: Packet, t0: Time, last: Time, now: Time)
    requires Entry(s, p, t0, last, now) && now <= e.at && e.event != Push(p) && e.event != Ack(p.id)
    ensures var s' := Step(policy, s, e);
            var sends := e.event.Tick? && MayFollow(policy, last, e.at) && e.at - t0 <= 2000 * MS;
            && Entry(s', p, t0, if sends then e.at else last, e.at)
            && TimesOf(s'.log, p) == TimesOf(s.log, p) + if sends then [e.at] else []
  {
    hide Step, TimesOf, Only;
    StepOnly(policy, s, e, p);
    assert Repeated(e.at, 0) == [] && Repeated(e.at, 1) == [e.at];
    if e.event.Tick? {
      assert e == Timed(e.at, Tick);
      if Only(s.items, p) == [] {
        EmptyTick(policy, e.at);
      } else {
        TickOnOne(policy, Only(s.items, p)[0], e.at);
      }
    }
  }

  lemma EmptyTick(policy: Policy, now: Time)
    ensures Step(policy, CacheState([], []), Timed(now, Tick)) == CacheState([], [])
  {
  }

  /** With a clock that does not go back, a packet that is pushed once, at t0, and not acknowledged leaves at t0 and
      then exactly at these times. */
  lemma {:induction false} CopiesLeaveExactly(policy: Policy, s: CacheState, es: seq<Timed>, p: Packet, t0: Time,
                                              last: Time, now: Time)
    requires Entry(s, p, t0, last, now) && Monotone(es, now) && Undisturbed(es, p)
    ensures TimesOf(Steps(policy, s, es).log, p) == TimesOf(s.log, p) + CopyTimes(policy, t0, last, es)
    decreases es
  {
    if es != [] {
      hide Step, Entry, MayFollow, TimesOf;
      var e, rest := es[0], es[1..];
      assert e in es;
      EntryStep(policy, s, e, p, t0, last, now);
      var sends := e.event.Tick? && MayFollow(policy, last, e.at) && e.at - t0 <= 2000 * MS;
      CopiesLeaveExactly(policy, Step(policy, s, e), rest, p, t0, if sends then e.at else last, e.at);
    }
  }

  lemma PushedCopiesLeaveExactly(policy: Policy, before: CacheState, t0: Time, p: Packet, after: seq<Timed>)
    requires Only(before.items, p) == [] && Monotone(after, t0) && Undisturbed(after, p)
    ensures TimesOf(Steps(policy, Step(policy, before, Timed(t0, Push(p))), after).log, p)
         == TimesOf(before.log, p) + [t0] + CopyTimes(policy, t0, t0, after)
  {
    var pushed := Step(policy, before, Timed(t0, Push(p)));
    StepOnly(policy, before, Timed(t0, Push(p)), p);
    CopiesLeaveExactly(policy, pushed, after, p, t0, t0, t0);
  }

  // ----- Acknowledgement

  lemma {:induction false} SilentWhileAbsent(policy: Policy, s: CacheState, es: seq<Timed>, p: Packet)
    requires Only(s.items, p) == [] && Pushes(es, p) == 0
    ensures TimesOf(Steps(policy, s, es).log, p) == TimesOf(s.log, p)
    decreases es
  {
    if es != [] {
      StepOnly(policy, s, es[0], p);
      SilentWhileAbsent(policy, Step(policy, s, es[0]), es[1..], p);
    }
  }

  /** Once the acknowledgement for a connection has been processed, no copy of its packet is sent any more,
      whatever ticks, acknowledgements and new connections follow. */
  lemma QuietAfterAck(policy: Policy, s: CacheState, ack: Time, p: Packet, after: seq<Timed>)
    requires Pushes(after, p) == 0
    ensures TimesOf(Steps(policy, s, [Timed(ack, Ack(p.id))] + after).log, p) == TimesOf(s.log, p)
  {
    var e := Timed(ack, Ack(p.id));
    StepOnly(policy, s, e, p);
    assert ([e] + after)[1..] == after;
    SilentWhileAbsent(policy, Step(policy, s, e), after, p);
  }
}
