/** GetSleepTimeoutMs() and WaitForWork() (base/message_loop/message_pump_win.cc), and how long a deadline of the thread
    controller can make the pump sleep. */
module Sleep {
  import opened Wrappers
  import opened ThreadController

  /** Milliseconds as a DWORD; the largest one means forever. */
  type Dword = d: int | 0 <= d <= 0xFFFF_FFFF

  const INFINITE: Dword := 0xFFFF_FFFF

  function SaturatedDword(n: int): Dword {
    if n < 0 then 0 else if n > 0xFFFF_FFFF then 0xFFFF_FFFF else n
  }

  /** InMillisecondsRoundedUp(). */
  function MillisecondsUp(d: Ticks): int {
    -(-d / 1000)
  }

  /** GetSleepTimeoutMs(), which asserts that the time is not null. */
  function SleepTimeoutMs(time: Ticks, now: Ticks): Dword
    requires time != 0
  {
    if time == MAX then INFINITE else SaturatedDword(MillisecondsUp(time - now))
  }

  lemma TimeoutExpires(time: Ticks, now: Ticks)
    requires time != 0
    ensures SleepTimeoutMs(time, now) == 0 <==> time != MAX && time <= now
  {
  }

  /** A finite deadline of DoWork() is slept for without saturation and never forever, to less than a millisecond
      more than it needs; and never past the end of the run by more than that. */
  lemma SleepBound(wake: Option<Ticks>, requested: bool, quitAfter: Ticks, now: Ticks)
    requires 0 < now && now + DAY < MAX && 0 < quitAfter <= MAX && (wake.Some? ==> 0 <= wake.value < MAX)
    ensures var d := Deadline(wake, requested, quitAfter, now);
            d != 0 ==>
              var ms := SleepTimeoutMs(d, now);
              && (ms == INFINITE <==> d == MAX)
              && (d != MAX ==>
                    && ms <= 86_400_000
                    && (d <= now ==> ms == 0)
                    && (d > now ==> d <= now + ms * 1000 < d + 1000)
                    && (quitAfter > now ==> now + ms * 1000 < quitAfter + 1000))
  {
    DeadlineBounds(wake, requested, quitAfter, now);
  }

  /** `ms` milliseconds last from now until `t`, rounded up, and are none if it has passed. */
  predicate Lasts(ms: Dword, now: Ticks, t: Ticks) {
    if t <= now then ms == 0 else t <= now + ms * 1000 < t + 1000
  }

  ghost predicate Until(ms: Dword, now: Ticks, times: set<Ticks>) {
    exists t :: Earliest(t, times) && Lasts(ms, now, t)
  }

  /** A DoWork() and the pump's wait for what it answers.  The wait is over at once for work at once, endless exactly if
      nothing is pending or the run is over, and otherwise ends with the earliest of the wake-up, the end of the run
      and a day from now. */
  method WorkThenSleep(c: Controller, tasks: seq<Task>, after: Outlook) returns (ms: Dword)
    requires c.Valid() && 0 < after.now && after.now + 86_400_000_000 < MAX && 0 < c.quitAfter <= MAX
    requires after.pending.Some? ==> 0 <= after.pending.value < MAX
    modifies c
    ensures after.requested ==> ms == 0
    ensures !after.requested && !c.allowed ==>
              if c.quitAfter == MAX then ms == INFINITE
              else Until(ms, after.now, {c.quitAfter, after.now + 86_400_000_000})
    ensures !after.requested && c.allowed && c.quitPending ==> ms == INFINITE
    ensures !after.requested && c.allowed && !c.quitPending ==>
              match after.pending
              case None => ms == INFINITE
              case Some(wake) =>
                if wake == 0 then ms == 0
                else if c.quitAfter < wake && c.quitAfter <= after.now then ms == INFINITE
                else Until(ms, after.now, {wake, c.quitAfter, after.now + 86_400_000_000})
  {
    var info := c.Work(tasks, after);
    if info == 0 {
      return 0;
    }
    ms := SleepTimeoutMs(info, after.now);
    if info != MAX { TimeoutLasts(info, after.now); }
  }

  lemma TimeoutLasts(time: Ticks, now: Ticks)
    requires time != 0 && time <= now + 86_400_000_000 < MAX
    ensures Lasts(SleepTimeoutMs(time, now), now, time)
  {
  }

  /** One MsgWaitForMultipleObjectsEx(): whether it reported a message, what the queue then held, and the time. */
  datatype Wait = Wait(signaled: bool, sent: bool, queued: bool, now: Ticks)

  predicate FoundMessage(w: Wait) {
    w.signaled && (w.sent || w.queued)
  }

  predicate Passed(time: Ticks, now: Ticks) {
    time != MAX && time <= now
  }

  datatype Outcome = DeadlinePassed | MessageAvailable | Waiting

  /** The wait may only ignore messages that were looked at: MWMO_INPUTAVAILABLE is dropped by a wake-up after which
      PeekMessage() found nothing. */
  ghost predicate SawNothing(waits: seq<Wait>, i: nat)
    requires i <= |waits|
  {
    exists j :: 0 <= j < i && waits[j].signaled && !waits[j].sent && !waits[j].queued
  }

  /** The time wait number `i` is computed from: the caller's, or what the clock said after the wait before it. */
  function Clock(recentNow: Ticks, start: Ticks, waits: seq<Wait>, i: nat): Ticks
    requires i <= |waits|
  {
    if i > 0 then waits[i - 1].now else if recentNow != 0 then recentNow else start
  }

  /** WaitForWork(), against what the operating system answers to its successive waits.  It returns only when the
      deadline passed or a message is there, and then after the first wait for which that is so. */
  method WaitForWork(time: Ticks, recentNow: Ticks, start: Ticks, waits: seq<Wait>)
    returns (outcome: Outcome, used: nat, flags: seq<bool>, delays: seq<Dword>)
    requires time != 0
    ensures used <= |waits| && |flags| == |delays| == used
    ensures outcome == Waiting ==> used == |waits|
    ensures outcome == MessageAvailable ==> used > 0 && FoundMessage(waits[used - 1])
    ensures outcome == DeadlinePassed ==>
              Passed(time, Clock(recentNow, start, waits, used)) && (used > 0 ==> !FoundMessage(waits[used - 1]))
    ensures forall i :: 0 <= i < used && (i < used - 1 || outcome == Waiting) ==>
              !FoundMessage(waits[i]) && !Passed(time, waits[i].now)
    ensures forall i :: 0 <= i < used ==> (flags[i] <==> !SawNothing(waits, i))
    ensures forall i :: 0 <= i < used ==>
              delays[i] == SleepTimeoutMs(time, Clock(recentNow, start, waits, i))
              && delays[i] > 0
  {
    var inputAvailable := true;
    used, flags, delays := 0, [], [];
    var delay := SleepTimeoutMs(time, if recentNow != 0 then recentNow else start);
    while delay != 0 && used < |waits|
      invariant used <= |waits| && |flags| == |delays| == used
      invariant delay == SleepTimeoutMs(time, Clock(recentNow, start, waits, used))
      invariant inputAvailable <==> !SawNothing(waits, used)
      invariant forall i :: 0 <= i < used ==> !FoundMessage(waits[i])
      invariant forall i :: 0 <= i < used - 1 ==> !Passed(time, waits[i].now)
      invariant forall i :: 0 <= i < used ==> (flags[i] <==> !SawNothing(waits, i))
      invariant forall i :: 0 <= i < used ==>
                  delays[i] == SleepTimeoutMs(time, Clock(recentNow, start, waits, i))
                  && delays[i] > 0
      decreases |waits| - used
    {
      var w := waits[used];
      flags, delays, used := flags + [inputAvailable], delays + [delay], used + 1;
      if w.signaled {
        if w.sent {
          return MessageAvailable, used, flags, delays;
        }
        if w.queued {
          return MessageAvailable, used, flags, delays;
        }
        inputAvailable := false;
      }
      delay := SleepTimeoutMs(time, w.now);
    }
    outcome := if delay == 0 then DeadlinePassed else Waiting;
  }
}
