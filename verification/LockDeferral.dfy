/** Waiting out an on-chain lock: which residual locks the deferral schedule
    outlasts, and what the keeper does when it does not. */
module LockDeferral {
  import opened ClaimTypes
  import opened VerificationRecord
  import opened KeeperModel

  /** The longest wait after the first refused attempt, in milliseconds. */
  function ScheduledWait(deferrals: nat): nat
    requires deferrals <= |LOCK_DEFERRAL_MS|
  {
    if deferrals == 0 then 0 else ScheduledWait(deferrals - 1) + LOCK_DEFERRAL_MS[deferrals - 1]
  }

  const FULL_SCHEDULE_MS: nat := 30_935_000

  lemma FullScheduleAddsUp()
    ensures ScheduledWait(|LOCK_DEFERRAL_MS|) == FULL_SCHEDULE_MS
  {
    assert ScheduledWait(3) == 335_000;
    assert ScheduledWait(6) == ScheduledWait(3) + 30_600_000;
  }

  /** The deferrals of one claim, each with the wait the schedule gives it. */
  function Waits(id: nat, n: nat): (waits: seq<Event>)
    requires n <= |LOCK_DEFERRAL_MS|
    ensures |waits| == n && forall k | 0 <= k < n :: waits[k] == PayoutDeferred(id, LOCK_DEFERRAL_MS[k])
  {
    seq(n, k requires 0 <= k < n => PayoutDeferred(id, LOCK_DEFERRAL_MS[k]))
  }

  /** Attempt times a queue may give jobs put off as logged: the first attempt, then
      one after each deferral, and a delayed job never runs early. */
  ghost predicate NeverEarly(attempts: seq<int>, deferrals: seq<Event>) {
    && |attempts| == |deferrals| + 1
    && forall k | 0 <= k < |deferrals| ::
         deferrals[k].PayoutDeferred? && attempts[k] + deferrals[k].delay <= attempts[k + 1]
  }

  ghost predicate OnTime(attempts: seq<int>, deferrals: seq<Event>) {
    && |attempts| == |deferrals| + 1
    && forall k | 0 <= k < |deferrals| ::
         deferrals[k].PayoutDeferred? && attempts[k] + deferrals[k].delay == attempts[k + 1]
  }

  /** Such times, over the whole schedule. */
  ghost predicate RespectsDelays(attempts: seq<int>) {
    && |attempts| == |LOCK_DEFERRAL_MS| + 1
    && forall k | 0 <= k < |LOCK_DEFERRAL_MS| :: attempts[k] + LOCK_DEFERRAL_MS[k] <= attempts[k + 1]
  }

  ghost predicate Punctual(attempts: seq<int>) {
    && |attempts| == |LOCK_DEFERRAL_MS| + 1
    && forall k | 0 <= k < |LOCK_DEFERRAL_MS| :: attempts[k] + LOCK_DEFERRAL_MS[k] == attempts[k + 1]
  }

  lemma AttemptsSpread(attempts: seq<int>, k: nat)
    requires RespectsDelays(attempts) && k < |attempts|
    ensures attempts[0] + ScheduledWait(k) <= attempts[k]
    ensures Punctual(attempts) ==> attempts[0] + ScheduledWait(k) == attempts[k]
  {
    if k > 0 {
      AttemptsSpread(attempts, k - 1);
    }
  }

  /** Some attempt the schedule makes falls at or after the lock's release. */
  ghost predicate Outlasted(attempts: seq<int>, release: int) {
    exists k :: 0 <= k < |attempts| && release <= attempts[k]
  }

  lemma ScheduleOutlasts(attempts: seq<int>, release: int)
    requires RespectsDelays(attempts)
    ensures release - attempts[0] <= FULL_SCHEDULE_MS ==> Outlasted(attempts, release)
    ensures Punctual(attempts) ==> (Outlasted(attempts, release) <==> release - attempts[0] <= FULL_SCHEDULE_MS)
  {
    FullScheduleAddsUp();
    AttemptsSpread(attempts, |LOCK_DEFERRAL_MS|);
    if Punctual(attempts) && Outlasted(attempts, release) {
      var k :| 0 <= k < |attempts| && release <= attempts[k];
      AttemptsSpread(attempts, k);
      WaitsGrow(k, |LOCK_DEFERRAL_MS|);
    }
  }

  lemma WaitsGrow(k: nat, n: nat)
    requires k <= n <= |LOCK_DEFERRAL_MS|
    ensures ScheduledWait(k) <= ScheduledWait(n)
  {
    if k < n {
      WaitsGrow(k, n - 1);
    }
  }

  /** The same row refused `refusals` times in a row for its lock, reloaded each
      time. */
  function AfterRefusals(world: World, id: nat, message: string, refusals: nat): (after: World)
    requires id < |world.claims|
    ensures |after.claims| == |world.claims|
  {
    if refusals == 0 then world
    else
      var before := AfterRefusals(world, id, message, refusals - 1);
      Defer(before, id, before.claims[id], message)
  }

  lemma OneRefusal(world: World, id: nat, message: string, counted: nat)
    requires id < |world.claims|
    requires LockDeferrals(world.claims[id].data) == counted as real && counted <= 6
    ensures
      var after := Defer(world, id, world.claims[id], message);
      && after.claims[id] == world.claims[id].(data := after.claims[id].data)
      && (counted < 6 ==>
            && LockDeferrals(after.claims[id].data) == (counted + 1) as real
            && after.log == world.log + [PayoutDeferred(id, LOCK_DEFERRAL_MS[counted])]
            && after.worker.Idle?)
      && (counted == 6 ==> after.worker == Stuck(id) && after.log == world.log)
  {
    assert (counted as real).Floor == counted;
  }

  /** Six refusals are each answered with a deferral that leaves the row in its
      status and queues exactly one more attempt: after the k-th, the k-th wait of
      the schedule. */
  lemma {:induction false} RefusalsAreDeferred(world: World, id: nat, message: string, refusals: nat)
    requires id < |world.claims| && world.worker.Idle?
    requires LockDeferrals(world.claims[id].data) == 0.0 && refusals <= 6
    ensures
      var after := AfterRefusals(world, id, message, refusals);
      && LockDeferrals(after.claims[id].data) == refusals as real
      && after.worker.Idle?
      && after.claims[id] == world.claims[id].(data := after.claims[id].data)
      && after.log == world.log + Waits(id, refusals)
  {
    if refusals > 0 {
      RefusalsAreDeferred(world, id, message, refusals - 1);
      var before := AfterRefusals(world, id, message, refusals - 1);
      assert AfterRefusals(world, id, message, refusals) == Defer(before, id, before.claims[id], message);
      OneRefusal(before, id, message, refusals - 1);
      WaitsExtend(world.log, id, refusals - 1);
    }
  }

  lemma WaitsExtend(log: seq<Event>, id: nat, n: nat)
    requires n < |LOCK_DEFERRAL_MS|
    ensures (log + Waits(id, n)) + [PayoutDeferred(id, LOCK_DEFERRAL_MS[n])] == log + Waits(id, n + 1)
  {
  }

  /** A claim refused for its lock six times logs the schedule, so any attempt times
      a queue may then give it outlast every lock with at most the whole schedule
      left to run when it was first refused, however late the queue runs; and on a
      punctual queue no longer lock is outlasted. */
  lemma ScheduleOutlastsLock(
    world: World, id: nat, message: string, attempts: seq<int>, release: int)
    requires id < |world.claims| && world.worker.Idle? && LockDeferrals(world.claims[id].data) == 0.0
    requires
      var log := AfterRefusals(world, id, message, |LOCK_DEFERRAL_MS|).log;
      |world.log| <= |log| && NeverEarly(attempts, log[|world.log|..])
    ensures release - attempts[0] <= FULL_SCHEDULE_MS ==> Outlasted(attempts, release)
    ensures OnTime(attempts, AfterRefusals(world, id, message, |LOCK_DEFERRAL_MS|).log[|world.log|..]) ==>
      (Outlasted(attempts, release) <==> release - attempts[0] <= FULL_SCHEDULE_MS)
  {
    RefusalsAreDeferred(world, id, message, |LOCK_DEFERRAL_MS|);
    var waits := AfterRefusals(world, id, message, |LOCK_DEFERRAL_MS|).log[|world.log|..];
    assert waits == Waits(id, |LOCK_DEFERRAL_MS|);
    assert OnTime(attempts, waits) ==> Punctual(attempts);
    ScheduleOutlasts(attempts, release);
  }

  /** The seventh queues nothing: the claim goes to a human, still open, and is
      never recorded as failed. */
  lemma SeventhRefusalGoesToReview(world: World, id: nat, message: string)
    requires id < |world.claims| && world.worker.Idle? && world.claims[id].status.Paying?
    requires LockDeferrals(world.claims[id].data) == 0.0
    requires IndexAdmits(world.claims, id, world.claims[id])
    ensures
      var refused := AfterRefusals(world, id, message, 7);
      var after := Escalate(refused);
      && refused.log == world.log + Waits(id, 6)
      && after.claims[id].status.Review?
      && after.claims[id].reviewReason == Some("lock_never_elapsed")
      && after.worker.Idle?
  {
    RefusalsAreDeferred(world, id, message, 6);
    var before := AfterRefusals(world, id, message, 6);
    OneRefusal(before, id, message, 6);
    OthersKeepTheirRows(world, id, message, 7);
  }

  lemma OthersKeepTheirRows(world: World, id: nat, message: string, refusals: nat)
    requires id < |world.claims|
    ensures
      var after := AfterRefusals(world, id, message, refusals);
      forall i | 0 <= i < |world.claims| :: after.claims[i] == world.claims[i].(data := after.claims[i].data)
  {
    if refusals > 0 {
      OthersKeepTheirRows(world, id, message, refusals - 1);
    }
  }
}
