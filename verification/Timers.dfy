/** The timer manager of timer.cpp: a set ordered by due time and address whose keys move, expiry, re-arming,
    and the "tickled" flag that must not lose a wake-up. Times are naturals; `now` is what the clock gave the
    caller, read before or under the lock as in the source. */
module Timers {
  import opened RaftTypes

  datatype Callback = Callback(id: nat)

  /** What a sleeper was last told: nothing yet, to wake at a time, or that there is no timer. */
  datatype Deadline = Unknown | Due(at: nat) | Never

  class Timer {
    const addr: nat
    const isRepeat: bool
    var ms: nat
    var next: nat
    var cb: Option<Callback>

    constructor (addr: nat, ms: nat, isRepeat: bool, cb: Option<Callback>, now: nat)
      ensures this.addr == addr && this.isRepeat == isRepeat && this.ms == ms && this.cb == cb && next == now + ms
    {
      this.addr, this.isRepeat, this.ms, this.cb, next := addr, isRepeat, ms, cb, now + ms;
    }
  }

  /** The order of the set: null first, then by due time, then by address. */
  predicate Before(a: Timer?, b: Timer?)
    reads a, b
  {
    if a == null || b == null then a == null && b != null
    else a.next < b.next || (a.next == b.next && a.addr < b.addr)
  }

  /** A strict total order, as std::set needs, as long as addresses tell timers apart. */
  lemma BeforeIsOrder(a: Timer?, b: Timer?, c: Timer?)
    ensures !Before(a, a)
    ensures Before(a, b) && Before(b, c) ==> Before(a, c)
    ensures (a != null && b != null && a.addr == b.addr ==> a == b) ==> Before(a, b) || a == b || Before(b, a)
  {
  }

  /** Which comes first: no timer at all, or the one due earlier, or of two due together the one at the lower
      address. */
  lemma WhichIsFirst(a: Timer, b: Timer)
    ensures Before(null, a) && !Before(a, null) && !Before(null, null)
    ensures a.next < b.next ==> Before(a, b) && !Before(b, a)
    ensures a.next == b.next && a.addr < b.addr ==> Before(a, b) && !Before(b, a)
  {
  }

  lemma NotEarlier(t: Timer, u: Timer)
    requires !Before(t, u)
    ensures u.next <= t.next
  {
  }

  ghost predicate Ordered(ts: seq<Timer>)
    reads ts
  {
    forall j, k | 0 <= j < k < |ts| :: Before(ts[j], ts[k])
  }

  /** No other timer in the list has this one's address. */
  ghost predicate Alone(t: Timer, ts: seq<Timer>)
  {
    forall u | u in ts :: u.addr == t.addr ==> u == t
  }

  ghost predicate Apart(ts: seq<Timer>)
  {
    forall j, k | 0 <= j < k < |ts| :: ts[j] != ts[k] && ts[j].addr != ts[k].addr
  }

  /** The number of timers due: the first position whose time is still to come. */
  function DueCount(ts: seq<Timer>, now: nat): (k: nat)
    reads ts
    ensures k <= |ts| && (k < |ts| ==> ts[k].next > now)
    ensures forall j | 0 <= j < k :: ts[j].next <= now
  {
    if ts == [] || ts[0].next > now then 0 else 1 + DueCount(ts[1..], now)
  }

  const HOUR := 60 * 60 * 1000
  const U64 := 0x1_0000_0000_0000_0000

  /** Unsigned subtraction of 64-bit numbers. */
  function Minus(a: nat, b: nat): nat { (a - b) % U64 }

  predicate Rollover(previous: nat, now: nat)
  {
    now < previous && now < Minus(previous, HOUR)
  }

  /** Exactly when the clock counts as turned back: by more than an hour of milliseconds, or, because the
      subtraction wraps, at all while the clock is in its first hour. */
  lemma RolloverExactly(previous: nat, now: nat)
    requires previous < 18446744073709551616
    ensures Rollover(previous, now) <==> now < previous && (previous < 3600000 || previous - now > 3600000)
  {
    if previous < HOUR {
      assert (previous - HOUR) % U64 == previous - HOUR + U64;
    } else {
      assert (previous - HOUR) % U64 == previous - HOUR;
    }
  }

  lemma Strictly(ts: seq<Timer>, k: nat)
    requires Ordered(ts) && k < |ts|
    ensures forall j | k <= j < |ts| :: ts[k].next <= ts[j].next
  {
  }

  lemma DueAreFirst(ts: seq<Timer>, now: nat)
    requires Ordered(ts)
    ensures forall j | 0 <= j < |ts| :: ts[j].next <= now <==> j < DueCount(ts, now)
  {
    var k := DueCount(ts, now);
    if k < |ts| {
      Strictly(ts, k);
    }
  }

  predicate InTime(time: nat, d: Deadline)
  {
    match d
    case Unknown => true
    case Due(at) => at <= time
    case Never => false
  }

  predicate NotBefore(t: Timer, d: Deadline)
    reads t
  {
    InTime(t.next, d)
  }

  class TimerManager {
    var timers: seq<Timer>
    var tickled: bool
    var previousTime: nat
    ghost var clock: nat           // no `now` so far was later
    ghost var seen: Deadline       // what getNextTimer saw last
    ghost var known: set<Timer>    // all timers ever added with a callback

    ghost predicate Valid()
      reads this, timers, known
    {
      && Ordered(timers) && Apart(timers)
      && (forall t | t in known :: t in timers <==> t.cb.Some?)
      && (forall t | t in timers :: (t in known || t.cb.None?) && t.ms <= t.next)
    }

    /** With a clock that does not go back: a sleeper is about to be woken, or nothing is due before what it
        was told. */
    ghost predicate Wakeful()
      reads this, timers
    {
      && (forall t | t in timers :: t.next <= clock + t.ms)
      && (tickled || forall t | t in timers :: NotBefore(t, seen))
    }

    /** A timer that has lost its callback, cancelled or spent, stays out of the set for good. */
    twostate predicate StayGone()
      reads this, known
    {
      forall u | u in old(known) && old(u.cb).None? :: u in known && u.cb.None? && u !in timers
    }

    /** Every repeating timer that is due would be armed again for no earlier than a sleeper was told. */
    ghost predicate RearmsInTime(now: nat)
      reads this, timers
    {
      forall u | u in timers && u.isRepeat && (Rollover(previousTime, now) || u.next <= now) ::
        InTime(now + u.ms, seen)
    }

    /** One timer was set or moved: nothing is missed if the flag is up or some timer was due no later. */
    twostate lemma KeptAwake(new t: Timer)
      requires old(Wakeful()) && old(clock) <= clock && seen == old(seen) && (old(tickled) ==> tickled)
      requires forall u | u in timers && u != t :: u in old(timers) && u.next == old(u.next) && u.ms == old(u.ms)
      requires t.next <= clock + t.ms
      requires tickled || exists u :: u in old(timers) && old(u.next) <= t.next
      ensures Wakeful()
    {
    }

    /** Timers were only taken away. */
    twostate lemma FewerAwake()
      requires old(Wakeful()) && old(clock) <= clock && seen == old(seen) && tickled == old(tickled)
      requires forall u | u in timers :: u in old(timers) && u.next == old(u.next) && u.ms == old(u.ms)
      ensures Wakeful()
    {
    }

    /** Order is a matter of due times and addresses. */
    twostate lemma StillOrdered()
      requires timers == old(timers) && old(Ordered(timers)) && forall u | u in timers :: u.next == old(u.next)
      ensures Ordered(timers)
    {
    }

    twostate lemma Settled(t: Timer)
      requires old(Wakeful()) && t in old(timers)
      ensures old(t.next) <= old(clock) + old(t.ms)
    {
    }

    constructor (now: nat)
      ensures Valid() && Wakeful() && timers == [] && previousTime == now && known == {} && clock == now
    {
      timers, tickled, previousTime := [], false, now;
      clock, seen, known := now, Unknown, {};
    }

    /** std::set::find: the first element not before t, if it is not after it either. */
    method Find(t: Timer) returns (i: nat)
      requires Ordered(timers) && Alone(t, timers)
      ensures i <= |timers| && (i < |timers| <==> t in timers) && (i < |timers| ==> timers[i] == t)
    {
      i := 0;
      while i < |timers| && Before(timers[i], t)
        invariant 0 <= i <= |timers| && forall j | 0 <= j < i :: Before(timers[j], t)
      {
        i := i + 1;
      }
      if i < |timers| && timers[i] != t {
        assert forall j | i < j < |timers| :: Before(timers[i], timers[j]);
        i := |timers|;
      }
    }

    /** std::set::insert of a timer that is not in the set. */
    method Insert(t: Timer) returns (i: nat)
      requires Ordered(timers) && Apart(timers) && t !in timers && Alone(t, timers)
      modifies this`timers
      ensures i <= |old(timers)| && timers == old(timers)[..i] + [t] + old(timers)[i..]
      ensures Ordered(timers) && Apart(timers)
      ensures forall u :: u in timers <==> u in old(timers) || u == t
    {
      i := 0;
      while i < |timers| && Before(timers[i], t)
        invariant 0 <= i <= |timers| && forall j | 0 <= j < i :: Before(timers[j], t)
      {
        i := i + 1;
      }
      InsertedOrder(timers, i, t);
      timers := timers[..i] + [t] + timers[i..];
    }

    method Erase(i: nat)
      requires Ordered(timers) && Apart(timers) && i < |timers|
      modifies this`timers
      ensures timers == old(timers)[..i] + old(timers)[i + 1..]
      ensures Ordered(timers) && Apart(timers)
      ensures forall u :: u in timers <==> u in old(timers) && u != old(timers)[i]
    {
      ErasedOrder(timers, i);
      timers := timers[..i] + timers[i + 1..];
    }

    /** Insert, and remember to wake the sleeper when the timer came first. */
    method Arm(t: Timer) returns (front: bool)
      requires Ordered(timers) && Apart(timers) && t !in timers && Alone(t, timers)
      modifies this`timers, this`tickled
      ensures Ordered(timers) && Apart(timers)
      ensures forall u :: u in timers <==> u in old(timers) || u == t
      ensures front <==> !old(tickled) && forall u | u in old(timers) :: Before(t, u)
      ensures tickled == (old(tickled) || front)
    {
      ghost var was := timers;
      var i := Insert(t);
      FirstOrNot(was, i, t);
      hide Ordered, Apart, Before;
      front := i == 0 && !tickled;
      if front {
        tickled := true;
      }
    }

    method AddTimer(addr: nat, ms: nat, cb: Option<Callback>, isRepeat: bool, now: nat) returns (t: Timer, front: bool)
      requires Valid() && forall u | u in timers :: u.addr != addr
      modifies this
      ensures Valid() && fresh(t) && t.addr == addr && t.ms == ms && t.cb == cb && t.isRepeat == isRepeat
      ensures t.next == now + ms
      ensures forall u :: u in timers <==> u in old(timers) || u == t
      ensures front <==> !old(tickled) && forall u | u in old(timers) :: Before(t, u)
      ensures tickled == (old(tickled) || front)
      ensures StayGone()
      ensures known == old(known) + (if cb.Some? then {t} else {}) && seen == old(seen)
        && previousTime == old(previousTime)
      ensures clock == if now > old(clock) then now else old(clock)
      ensures old(Wakeful()) ==> Wakeful()
    {
      hide Ordered, Apart, Before;
      hide Wakeful, NotBefore;
      t := new Timer(addr, ms, isRepeat, cb, now);
      front := Arm(t);
      if !tickled {
        ghost var u :| u in old(timers) && !Before(t, u);
        NotEarlier(t, u);
      }
      if cb.Some? {
        known := known + {t};
      }
      clock := if now > clock then now else clock;
      if old(Wakeful()) {
        KeptAwake(t);
      }
    }

    /** True if the timer was pending. */
    method Cancel(t: Timer) returns (ok: bool)
      requires Valid() && Alone(t, timers)
      modifies this`timers, t`cb
      ensures Valid() && t.cb.None? && (t in known ==> t !in timers)
      ensures ok == (old(t.cb).Some? && t in old(timers))
      ensures forall u :: u in timers <==> u in old(timers) && !(ok && u == t)
      ensures old(Wakeful()) ==> Wakeful()
      ensures StayGone()
    {
      hide Apart, Ordered, Before, Wakeful;
      ok := false;
      if t.cb.Some? {
        var i := Find(t);
        label called:
        t.cb := None;
        StillOrdered@called();
        if i < |timers| {
          Erase(i);
          ok := true;
        }
      }
      if old(Wakeful()) {
        FewerAwake();
      }
    }

    /** Start the period again from now; never earlier than it was, while the clock does not go back. */
    method Refresh(t: Timer, now: nat) returns (ok: bool)
      requires Valid() && Alone(t, timers)
      modifies this`timers, this`clock, t`next
      ensures Valid()
      ensures ok == (t.cb.Some? && t in old(timers))
      ensures t.next == if ok then now + t.ms else old(t.next)
      ensures forall u :: u in timers <==> u in old(timers)
      ensures old(Wakeful()) && now >= old(clock) ==> Wakeful() && old(t.next) <= (if ok then t.next else old(t.next))
      ensures StayGone()
    {
      hide Ordered, Apart, Before, Wakeful, NotBefore;
      if t.cb.None? {
        return false;
      }
      var i := Find(t);
      if i == |timers| {
        return false;
      }
      Erase(i);
      t.next := now + t.ms;
      var _ := Insert(t);
      clock := if now > clock then now else clock;
      if old(Wakeful()) && now >= old(clock) {
        Settled(t);
        KeptAwake(t);
      }
      return true;
    }

    /** A new period, from now or from when the current one began. */
    method Reset(t: Timer, ms: nat, fromNow: bool, now: nat) returns (ok: bool, front: bool)
      requires Valid() && Alone(t, timers)
      modifies this`timers, this`clock, this`tickled, t`next, t`ms
      ensures Valid()
      ensures var same, live := ms == old(t.ms) && !fromNow, t.cb.Some? && t in old(timers);
        && ok == (same || live)
        && t.ms == (if live then ms else old(t.ms))
        && t.next == (if live && !same then (if fromNow then now else old(t.next - t.ms)) + ms else old(t.next))
        && (same || !live ==> !front && tickled == old(tickled))
        && (live && !same ==> (front <==> !old(tickled) && forall u | u in timers && u != t :: Before(t, u)))
      ensures tickled == (old(tickled) || front)
      ensures forall u :: u in timers <==> u in old(timers)
      ensures old(Wakeful()) ==> Wakeful()
      ensures StayGone()
    {
      hide Ordered, Apart, Before, NotBefore;
      front := false;
      if ms == t.ms && !fromNow {
        return true, false;
      }
      if t.cb.None? {
        return false, false;
      }
      var i := Find(t);
      if i == |timers| {
        return false, false;
      }
      var start := if fromNow then now else t.next - t.ms;
      front := Move(t, i, start, ms, now);
      return true, front;
    }

    /** A pending timer gets a new period from `start` on. */
    method Move(t: Timer, i: nat, start: nat, ms: nat, now: nat) returns (front: bool)
      requires Valid() && Alone(t, timers) && i < |timers| && timers[i] == t
      modifies this`timers, this`clock, this`tickled, t`next, t`ms
      ensures Valid() && t.ms == ms && t.next == start + ms
      ensures forall u :: u in timers <==> u in old(timers)
      ensures front <==> !old(tickled) && forall u | u in timers && u != t :: Before(t, u)
      ensures tickled == (old(tickled) || front)
      ensures old(Wakeful()) && (start <= now || start <= old(t.next - t.ms)) ==> Wakeful()
    {
      hide Ordered, Apart, Before, Wakeful, NotBefore;
      assert t in timers;
      Erase(i);
      t.ms := ms;
      t.next := start + ms;
      front := Arm(t);
      clock := if now > clock then now else clock;
      if old(Wakeful()) && (start <= now || start <= old(t.next - t.ms)) {
        if !tickled {
          ghost var u :| u in old(timers) && u != t && !Before(t, u);
          NotEarlier(t, u);
        }
        Settled(t);
        KeptAwake(t);
      }
    }

    /** How long to sleep; None when there is no timer. From here on the flag is down. */
    method GetNextTimer(now: nat) returns (wait: Option<nat>)
      requires Valid()
      modifies this`tickled, this`seen
      ensures Valid() && !tickled
      ensures wait.None? <==> timers == []
      ensures wait.Some? ==>
        && (wait.value > 0 ==> forall t | t in timers :: now + wait.value <= t.next)
        && exists t :: t in timers && t.next <= now + wait.value
      ensures seen == if timers == [] then Never else Due(timers[0].next)
      ensures old(Wakeful()) ==> Wakeful()
      ensures StayGone()
    {
      tickled := false;
      if timers == [] {
        seen := Never;
        return None;
      }
      var next := timers[0];
      seen := Due(next.next);
      Strictly(timers, 0);
      assert next in timers;
      if now >= next.next {
        return Some(0);
      }
      return Some(next.next - now);
    }

    method DetectClockRollover(now: nat) returns (back: bool)
      modifies this`previousTime
      ensures back == Rollover(old(previousTime), now)
      ensures previousTime == if back then old(previousTime) else now
    {
      if now < previousTime && now < Minus(previousTime, HOUR) {
        return true;
      }
      previousTime := now;
      return false;
    }

    /** std::set::lower_bound of a probe that is due now and lives at some address. */
    method LowerBound(now: nat, probe: nat) returns (i: nat)
      requires Ordered(timers)
      ensures i <= DueCount(timers, now)
    {
      i := 0;
      while i < |timers| && (timers[i].next < now || (timers[i].next == now && timers[i].addr < probe))
        invariant 0 <= i <= DueCount(timers, now)
      {
        DueAreFirst(timers, now);
        i := i + 1;
      }
    }

    /** Hand out the callbacks of the timers taken out, and put the repeating ones back. */
    method Rearm(expired: seq<Timer>, now: nat) returns (cbs: seq<Option<Callback>>)
      requires Ordered(timers) && Apart(timers) && Apart(expired)
      requires forall t | t in expired :: t !in timers && Alone(t, timers)
      modifies this`timers, expired
      ensures Ordered(timers) && Apart(timers)
      ensures forall u :: u in timers <==> u in old(timers) || (u in expired && u.isRepeat)
      ensures forall t | t in expired ::
        && t.ms == old(t.ms) && t.next == (if t.isRepeat then now + t.ms else old(t.next))
        && t.cb == (if t.isRepeat then old(t.cb) else None)
      ensures |cbs| == |expired| && forall k | 0 <= k < |cbs| :: cbs[k] == old(expired[k].cb)
    {
      ApartIs(expired);
      hide Ordered, Apart, Alone;
      cbs := [];
      for k := 0 to |expired|
        invariant Ordered(timers) && Apart(timers)
        invariant forall u :: u in timers <==> u in old(timers) || (u in expired[..k] && u.isRepeat)
        invariant forall j | 0 <= j < |expired| :: expired[j].ms == old(expired[j].ms)
        invariant forall j | k <= j < |expired| ::
          expired[j].next == old(expired[j].next) && expired[j].cb == old(expired[j].cb)
        invariant forall j | 0 <= j < k ::
          && expired[j].next == (if expired[j].isRepeat then now + expired[j].ms else old(expired[j].next))
          && expired[j].cb == (if expired[j].isRepeat then old(expired[j].cb) else None)
        invariant |cbs| == k && forall j | 0 <= j < k :: cbs[j] == old(expired[j].cb)
      {
        var t := expired[k];
        assert expired[..k + 1] == expired[..k] + [t] && t in expired;
        AloneAmong(t, expired, k, old(timers), timers);
        cbs := cbs + [t.cb];
        if t.isRepeat {
          t.next := now + t.ms;
          var _ := Insert(t);
        } else {
          t.cb := None;
        }
      }
    }

    /** Due now, or the clock was turned back. */
    twostate predicate WasDue(t: Timer, now: nat)
      reads this, t
    {
      Rollover(old(previousTime), now) || old(t.next) <= now
    }

    /** Take the due timers out of the set: a prefix of it, found from the lower bound of the probe. */
    method TakeExpired(now: nat, probe: nat) returns (expired: seq<Timer>)
      requires Ordered(timers) && Apart(timers)
      modifies this`timers, this`previousTime
      ensures expired + timers == old(timers)
      ensures Ordered(timers) && Apart(timers) && Apart(expired)
      ensures forall t | t in expired :: t !in timers && Alone(t, timers)
      ensures forall t :: t in old(timers) <==> t in expired || t in timers
      ensures forall t | t in expired :: WasDue(t, now)
      ensures forall t | t in timers :: !WasDue(t, now)
      ensures previousTime == if old(timers) == [] || Rollover(old(previousTime), now) then old(previousTime) else now
    {
      hide Ordered, Apart, Alone, DueCount;
      EmptyOrder();
      expired := [];
      if timers == [] {
        return;
      }
      var back := DetectClockRollover(now);
      if !back && timers[0].next > now {
        Strictly(timers, 0);
        return;
      }
      var i := |timers|;
      if !back {
        i := PastDue(now, probe);
      }
      SplitOrder(timers, i);
      SplitDue(timers, i, now, back);
      expired, timers := timers[..i], timers[i..];
    }

    /** From the lower bound of the probe on past everything that is due. */
    method PastDue(now: nat, probe: nat) returns (i: nat)
      requires Ordered(timers)
      ensures i == DueCount(timers, now)
    {
      i := LowerBound(now, probe);
      while i < |timers| && timers[i].next <= now
        invariant i <= DueCount(timers, now)
      {
        DueAreFirst(timers, now);
        i := i + 1;
      }
    }

    /** The callbacks of exactly the timers that are due, in order, whatever the address of the probe; the
        repeating ones are armed again from now, the others forget their callback, the rest stays. */
    method ListExpiredCb(now: nat, probe: nat) returns (cbs: seq<Option<Callback>>)
      requires Valid()
      modifies this, timers
      ensures Valid() && known == old(known) && tickled == old(tickled) && seen == old(seen)
      ensures forall u :: u in timers <==> u in old(timers) && (WasDue(u, now) ==> u.isRepeat)
      ensures forall u | u in old(timers) ::
        && u.ms == old(u.ms)
        && u.next == (if WasDue(u, now) && u.isRepeat then now + u.ms else old(u.next))
        && u.cb == (if WasDue(u, now) && !u.isRepeat then None else old(u.cb))
      ensures |cbs| <= |old(timers)| && forall k | 0 <= k < |old(timers)| ::
        (WasDue(old(timers)[k], now) <==> k < |cbs|) && (k < |cbs| ==> cbs[k] == old(timers[k].cb))
      ensures 3600000 <= old(previousTime) < 18446744073709551616 && old(previousTime) - now <= 3600000 ==>
        forall k | 0 <= k < |cbs| :: old(timers[k].next) <= now
      ensures previousTime == if old(timers) == [] || Rollover(old(previousTime), now) then old(previousTime) else now
      ensures clock == if now > old(clock) then now else old(clock)
      ensures old(Wakeful()) && !Rollover(old(previousTime), now) ==> Wakeful()
      ensures old(Wakeful()) ==> (Wakeful() <==> old(tickled || RearmsInTime(now)))
      ensures StayGone()
    {
      hide Ordered, Apart, Alone, Wakeful, RearmsInTime;
      ghost var was := timers;
      var expired := TakeExpired(now, probe);
      ghost var rest := timers;
      assert forall j | 0 <= j < |expired| :: expired[j] == was[j];
      cbs := Rearm(expired, now);
      clock := if now > clock then now else clock;
      forall k | 0 <= k < |was| ensures WasDue(was[k], now) <==> k < |cbs| {
        assert was[k] == if k < |expired| then expired[k] else rest[k - |expired|];
        assert k >= |expired| ==> was[k] in rest;
      }
      if old(previousTime) < U64 {
        RolloverExactly(old(previousTime), now);
      }
      if old(Wakeful()) {
        Rearmed(now);
      }
    }

    /** The due timers went or were armed again from now. */
    twostate lemma Rearmed(now: nat)
      requires old(Wakeful()) && old(clock) <= clock && now <= clock && seen == old(seen) && tickled == old(tickled)
      requires forall u :: u in timers <==> u in old(timers) && (WasDue(u, now) ==> u.isRepeat)
      requires forall u | u in old(timers) ::
        u.ms == old(u.ms) && u.next == (if WasDue(u, now) && u.isRepeat then now + u.ms else old(u.next))
      ensures Wakeful() <==> old(tickled || RearmsInTime(now))
      ensures !Rollover(old(previousTime), now) ==> Wakeful()
    {
      if Wakeful() && !tickled {
        forall u | u in old(timers) && u.isRepeat && WasDue(u, now) ensures InTime(now + u.ms, seen) {
          assert u in timers && NotBefore(u, seen);
        }
      }
      if !tickled && !Rollover(old(previousTime), now) {
        forall u | u in old(timers) && u.isRepeat && WasDue(u, now) ensures InTime(now + u.ms, seen) {
          assert old(NotBefore(u, seen));
        }
      }
    }
  }

  /** A sleeper told to wake at 1101 for a timer of period 1000, by a clock that read 100 and then 101. */
  method Asleep() returns (m: TimerManager, t: Timer)
    ensures fresh(m) && fresh(t) && m.Valid() && m.Wakeful() && m.timers == [t] && m.clock == 101
      && m.previousTime == 100
    ensures m.seen == Due(1101) && !m.tickled
    ensures t.isRepeat && t.ms == 1000 && t.next == 1101 && t.cb == Some(Callback(7))
  {
    m := new TimerManager(100);
    var front;
    t, front := m.AddTimer(1, 1000, Some(Callback(7)), true, 101);
    var _ := m.GetNextTimer(101);
    Single(m.timers, t);
  }

  /** A wake-up lost under a clock that never goes back. Two threads call listExpiredCb; the first read the
      clock at 100, before the lock, and gets the lock after the second, which read 101. In the clock's first
      hour the older reading counts as a rollover: the timer due at 1101 fires at once and is armed again for
      1100, while the sleeper was told 1101 and the flag is down. */
  method StaleReading(probe: nat) returns (m: TimerManager, cbs: seq<Option<Callback>>)
    ensures m.Valid() && !m.Wakeful() && m.clock == 101 && cbs == [Some(Callback(7))]
    ensures m.seen == Due(1101) && !m.tickled && exists t :: t in m.timers && t.next == 1100
  {
    var t;
    m, t := Asleep();
    var _ := m.ListExpiredCb(101, probe);
    Single(m.timers, t);
    assert !m.RearmsInTime(100);
    cbs := m.ListExpiredCb(100, probe);
    assert t in m.timers;
  }

  lemma Single(ts: seq<Timer>, t: Timer)
    requires Apart(ts) && t in ts && forall u | u in ts :: u == t
    ensures ts == [t]
  {
    assert ts[0] in ts && ts[|ts| - 1] in ts;
  }

  lemma InsertedOrder(ts: seq<Timer>, i: nat, t: Timer)
    requires Ordered(ts) && Apart(ts) && i <= |ts| && t !in ts && Alone(t, ts)
    requires (forall j | 0 <= j < i :: Before(ts[j], t)) && (i < |ts| ==> !Before(ts[i], t))
    ensures var now := ts[..i] + [t] + ts[i..];
      Ordered(now) && Apart(now) && forall u :: u in now <==> u in ts || u == t
  {
    AfterInserted(ts, i, t);
    InsertedOrdered(ts, i, t);
    InsertedApart(ts, i, t);
    hide Ordered, Apart;
    assert ts == ts[..i] + ts[i..];
  }

  lemma EmptyOrder()
    ensures Ordered([]) && Apart([])
  {
  }

  lemma SplitDue(ts: seq<Timer>, i: nat, now: nat, back: bool)
    requires Ordered(ts) && i == if back then |ts| else DueCount(ts, now)
    ensures forall t | t in ts[..i] :: back || t.next <= now
    ensures forall t | t in ts[i..] :: !back && t.next > now
  {
    DueAreFirst(ts, now);
  }

  lemma ApartIs(ts: seq<Timer>)
    requires Apart(ts)
    ensures forall j, k | 0 <= j < |ts| && 0 <= k < |ts| && ts[j] == ts[k] :: j == k
  {
  }

  lemma AloneAmong(t: Timer, expired: seq<Timer>, k: nat, was: seq<Timer>, ts: seq<Timer>)
    requires Apart(expired) && k < |expired| && t == expired[k] && Alone(t, was) && t !in was
    requires forall u | u in ts :: u in was || u in expired[..k]
    ensures t !in ts && Alone(t, ts)
  {
  }

  lemma SplitOrder(ts: seq<Timer>, i: nat)
    requires Ordered(ts) && Apart(ts) && i <= |ts|
    ensures Ordered(ts[i..]) && Apart(ts[i..]) && Apart(ts[..i])
    ensures forall t | t in ts[..i] :: t !in ts[i..] && Alone(t, ts[i..])
    ensures forall t :: t in ts <==> t in ts[..i] || t in ts[i..]
  {
    assert ts == ts[..i] + ts[i..];
    forall t | t in ts[..i] ensures t !in ts[i..] && Alone(t, ts[i..]) {
      var j :| 0 <= j < i && ts[j] == t;
      forall u | u in ts[i..] ensures u.addr != t.addr && u != t {
        var k :| i <= k < |ts| && ts[k] == u;
      }
    }
  }

  lemma FirstOrNot(ts: seq<Timer>, i: nat, t: Timer)
    requires i <= |ts| && Ordered(ts[..i] + [t] + ts[i..])
    ensures i == 0 <==> forall u | u in ts :: Before(t, u)
  {
    var now := ts[..i] + [t] + ts[i..];
    if i == 0 {
      forall u | u in ts ensures Before(t, u) {
        var j :| 0 <= j < |ts| && ts[j] == u;
        assert now[0] == t && now[j + 1] == u;
      }
    } else {
      assert now[0] == ts[0] && now[i] == t && Before(now[0], now[i]);
      assert ts[0] in ts && !Before(t, ts[0]);
    }
  }

  lemma AfterInserted(ts: seq<Timer>, i: nat, t: Timer)
    requires Ordered(ts) && i <= |ts| && t !in ts && Alone(t, ts) && (i < |ts| ==> !Before(ts[i], t))
    ensures forall j | i <= j < |ts| :: Before(t, ts[j])
  {
    if i < |ts| {
      assert ts[i] in ts && Before(t, ts[i]);
      forall j | i < j < |ts| ensures Before(t, ts[j]) {
        BeforeIsOrder(t, ts[i], ts[j]);
      }
    }
  }

  lemma InsertedOrdered(ts: seq<Timer>, i: nat, t: Timer)
    requires Ordered(ts) && i <= |ts|
    requires (forall j | 0 <= j < i :: Before(ts[j], t)) && (forall j | i <= j < |ts| :: Before(t, ts[j]))
    ensures Ordered(ts[..i] + [t] + ts[i..])
  {
    hide Before;
    var now := ts[..i] + [t] + ts[i..];
    forall j, k | 0 <= j < k < |now| ensures Before(now[j], now[k]) {
      assert j != i ==> now[j] == ts[if j < i then j else j - 1];
      assert k != i ==> now[k] == ts[if k < i then k else k - 1];
    }
  }

  lemma InsertedApart(ts: seq<Timer>, i: nat, t: Timer)
    requires Apart(ts) && i <= |ts| && t !in ts && Alone(t, ts)
    ensures Apart(ts[..i] + [t] + ts[i..])
  {
    var now := ts[..i] + [t] + ts[i..];
    forall j, k | 0 <= j < k < |now| ensures now[j] != now[k] && now[j].addr != now[k].addr {
      var x, y := if j < i then j else j - 1, if k < i then k else k - 1;
      assert j != i ==> now[j] == ts[x] && ts[x] in ts;
      assert k != i ==> now[k] == ts[y] && ts[y] in ts;
    }
  }

  lemma ErasedOrder(ts: seq<Timer>, i: nat)
    requires Ordered(ts) && Apart(ts) && i < |ts|
    ensures var now := ts[..i] + ts[i + 1..];
      Ordered(now) && Apart(now) && forall u :: u in now <==> u in ts && u != ts[i]
  {
    var now := ts[..i] + ts[i + 1..];
    assert ts == ts[..i] + [ts[i]] + ts[i + 1..];
    forall j | 0 <= j < |now| ensures now[j] == ts[if j < i then j else j + 1] && now[j] != ts[i] {
    }
  }
}
