/** The keeper at work: its handlers taken in any order, one after another, and
    what every run of the transition system keeps, kept by its rows and queues. */
module KeeperService {
  import opened ClaimTypes
  import opened VerificationRecord
  import opened KeeperModel
  import opened ClaimKeeper
  import KeeperSafety
  import KeeperBounds
  import KeeperSerial
  import KeeperRetries
  import PlanStability

  /** What the keeper is given to do, and what happens around it. Any claim may be
      named any number of times. */
  datatype Job =
    | Hear(alert: Alert, selected: Option<nat>)
    | Verify(id: nat, verify: ProcessInput)
    | Pay(id: nat, pay: PayoutInput)
    | Mirrored(policyId: nat, trigger: Trigger, txSignature: string)
    | Reindexed(policies: map<nat, Policy>)
    | ChainMoved(policyId: nat, after: ChainState)

  function StepsOf(job: Job): seq<Step> {
    match job
    case Hear(alert, selected) => [IngestStep(alert, selected)]
    case Verify(id, input) => [ProcessStep(id, input)]
    case Pay(id, input) => PayoutSteps(id, input)
    case Mirrored(policyId, trigger, txSignature) => [MirrorStep(policyId, trigger, txSignature)]
    case Reindexed(policies) => [ReindexStep(policies)]
    case ChainMoved(policyId, after) => [ChainStep(policyId, after)]
  }

  /** A verifier's details stay off the keeper's own keys. */
  ghost predicate KeepsOffKeys(job: Job) {
    job.Verify? ==> job.verify.verdict.details.Keys !! KEEPER_KEYS
  }

  /** An alert that names a policy names the newest active one. */
  ghost predicate Answers(policies: map<nat, Policy>, job: Job) {
    job.Hear? ==> SelectsNewestActive(policies, job.alert.agent, job.selected)
  }

  lemma OneStepRun(world: World, config: Settlement.Config, step: Step)
    ensures Run(world, config, [step]) == Apply(world, config, step)
  {
    RunThen(world, config, [], step);
    assert [] + [step] == [step];
  }

  /** One handler, run to its end, takes the keeper where its steps take the world,
      and a safe keeper to a safe one. */
  method Handle(keeper: Keeper, job: Job)
    requires keeper.Valid() && Answers(keeper.policies, job)
    modifies keeper
    ensures keeper.Valid()
    ensures keeper.View() == Run(old(keeper.View()), keeper.config, StepsOf(job))
    ensures old(KeeperSafety.Safe(keeper.View())) ==> KeeperSafety.Safe(keeper.View())
  {
    ghost var before := keeper.View();
    if KeeperSafety.Safe(before) {
      KeeperSafety.RunKeepsSafe(before, keeper.config, StepsOf(job));
    }
    match job
    case Hear(alert, selected) =>
      OneStepRun(before, keeper.config, IngestStep(alert, selected));
      keeper.IngestAlert(alert, selected);
    case Verify(id, input) =>
      OneStepRun(before, keeper.config, ProcessStep(id, input));
      keeper.ProcessClaim(id, input);
    case Pay(id, input) =>
      PayoutPassIsARun(before, keeper.config, id, input);
      keeper.ExecutePayout(id, input);
    case _ => Witness(keeper, job);
  }

  /** What happens around the keeper. */
  method Witness(keeper: Keeper, job: Job)
    requires keeper.Valid() && (job.Mirrored? || job.Reindexed? || job.ChainMoved?)
    modifies keeper
    ensures keeper.Valid()
    ensures keeper.View() == Run(old(keeper.View()), keeper.config, StepsOf(job))
  {
    OneStepRun(keeper.View(), keeper.config, StepsOf(job)[0]);
    match job
    case Mirrored(policyId, trigger, txSignature) => keeper.MirrorPendingClaim(policyId, trigger, txSignature);
    case Reindexed(policies) => keeper.policies := policies;
    case ChainMoved(policyId, after) => keeper.ObserveChain(policyId, after);
  }

  lemma {:induction false} SerialConcat(
    start: World, config: Settlement.Config, first: seq<Step>, rest: seq<Step>)
    requires KeeperSerial.SerialRun(start, config, first)
    requires KeeperSerial.SerialRun(Run(start, config, first), config, rest)
    ensures KeeperSerial.SerialRun(start, config, first + rest)
    decreases |rest|
  {
    if rest == [] {
      assert first + rest == first;
    } else {
      var init, last := rest[..|rest| - 1], rest[|rest| - 1];
      SerialConcat(start, config, first, init);
      RunConcat(start, config, first, init);
      assert (first + rest)[..|first + rest| - 1] == first + init;
      assert (first + rest)[|first + rest| - 1] == last;
    }
  }

  /** A job started with no payout in hand is serial: only its first step may be a
      process pass. */
  lemma {:induction false} JobIsSerial(world: World, config: Settlement.Config, job: Job)
    requires world.worker.Idle?
    ensures KeeperSerial.SerialRun(world, config, StepsOf(job))
  {
    if job.Pay? {
      PayoutIsSerial(world, config, StepsOf(job));
    } else {
      assert StepsOf(job)[..0] == [];
      assert Run(world, config, []) == world;
    }
  }

  lemma JobIsOffKeys(job: Job)
    requires KeepsOffKeys(job)
    ensures KeeperSerial.AllOffKeys(StepsOf(job))
  {
  }

  lemma {:induction false} PayoutIsSerial(world: World, config: Settlement.Config, steps: seq<Step>)
    requires forall s | s in steps :: !s.IngestStep? && !s.ProcessStep?
    ensures KeeperSerial.SerialRun(world, config, steps)
    decreases |steps|
  {
    if steps != [] {
      PayoutIsSerial(world, config, steps[..|steps| - 1]);
      assert steps[|steps| - 1] in steps;
    }
  }

  // ---------------------------------------------------------------------------
  // The queues
  // ---------------------------------------------------------------------------

  /** A claim's jobs in the process queue are the ones the log says it caused. */
  lemma {:induction false} ProcessQueueCounts(log: seq<Event>, id: nat)
    ensures multiset(ProcessQueueOf(log))[id] == KeeperBounds.ProcessJobs(KeeperBounds.UsageOf(log, id))
    decreases |log|
  {
    if log != [] {
      var before, event := log[..|log| - 1], log[|log| - 1];
      ProcessQueueCounts(before, id);
      assert log == before + [event];
      ProcessQueueAfter(before, event);
      KeeperBounds.UsageAfter(before, event, id);
    }
  }

  /** How many jobs of a claim a payout queue was given. */
  function JobsFor(queue: seq<PayoutJob>, id: nat): nat {
    if queue == [] then 0
    else JobsFor(queue[..|queue| - 1], id) + if queue[|queue| - 1].id == id then 1 else 0
  }

  lemma JobsForAppends(queue: seq<PayoutJob>, job: PayoutJob, id: nat)
    ensures JobsFor(queue + [job], id) == JobsFor(queue, id) + if job.id == id then 1 else 0
  {
    assert (queue + [job])[..|queue|] == queue;
  }

  /** Its jobs in the payout queue are one for each approval and each deferral. */
  lemma {:induction false} PayoutQueueCounts(log: seq<Event>, id: nat)
    ensures JobsFor(PayoutQueueOf(log), id) == multiset(log)[PayoutQueued(id)] + KeeperBounds.Deferrals(log, id)
    decreases |log|
  {
    if log != [] {
      var before, event := log[..|log| - 1], log[|log| - 1];
      PayoutQueueCounts(before, id);
      assert log == before + [event];
      PayoutQueueAfter(before, event);
      match event
      case PayoutQueued(other) => JobsForAppends(PayoutQueueOf(before), PayoutJob(other, None), id);
      case PayoutDeferred(other, delay) => JobsForAppends(PayoutQueueOf(before), PayoutJob(other, Some(delay)), id);
      case _ =>
    }
  }

  // ---------------------------------------------------------------------------
  // The service
  // ---------------------------------------------------------------------------

  /** What the keeper's rows, chain and queues show at any moment. */
  ghost predicate Sound(keeper: Keeper)
    reads keeper
  {
    && KeeperSafety.Safe(keeper.View())
    && (forall id | 0 <= id < |keeper.claims| && keeper.claims[id].status.Paid? ::
          keeper.claims[id].policyId in keeper.chain && keeper.chain[keeper.claims[id].policyId].ChainClaimPaid?)
    && (forall id: nat :: KeeperRetries.Retries(keeper.log, id) <= 4)
  }

  ghost predicate Frugal(keeper: Keeper)
    reads keeper
  {
    forall id: nat ::
      && multiset(keeper.processQueue)[id] <= 10
      && JobsFor(keeper.payoutQueue, id) <= multiset(keeper.log)[PayoutQueued(id)] + 18
  }

  /** Rows in the payout path still plan what their latest verdict saw. */
  ghost predicate KeepsPlans(keeper: Keeper)
    reads keeper
  {
    forall id: nat | id < |keeper.claims| :: PlanStability.RowFaithful(keeper.View(), keeper.config, id)
  }

  lemma UsageBoundsQueues(log: seq<Event>, id: nat)
    requires
      var usage := KeeperBounds.UsageOf(log, id);
      KeeperBounds.ProcessJobs(usage) <= 10 && usage.supersedes <= 2
      && usage.deferrals <= 6 * (1 + usage.supersedes)
    ensures multiset(ProcessQueueOf(log))[id] <= 10
    ensures JobsFor(PayoutQueueOf(log), id) <= multiset(log)[PayoutQueued(id)] + 18
  {
    ProcessQueueCounts(log, id);
    PayoutQueueCounts(log, id);
  }

  /** From an empty database, any sequence of jobs whatever leaves the keeper
      sound, and the plans that were approved are the plans that will be settled.
      While verdict details stay off its own keys, no claim ever has more than ten
      jobs put in the process queue, or more in the payout queue than eighteen above
      its approvals. */
  method Serve(keeper: Keeper, jobs: seq<Job>)
    requires keeper.Valid() && Initial(keeper.View())
    modifies keeper
    ensures keeper.Valid() && Sound(keeper) && KeepsPlans(keeper)
    ensures (forall job | job in jobs :: KeepsOffKeys(job)) ==> Frugal(keeper)
  {
    ghost var start := keeper.View();
    ghost var steps: seq<Step> := [];
    for i := 0 to |jobs|
      invariant keeper.Valid() && keeper.View() == Run(start, keeper.config, steps)
      invariant KeeperSerial.SerialRun(start, keeper.config, steps)
      invariant (forall k | 0 <= k < i :: KeepsOffKeys(jobs[k])) ==> KeeperSerial.AllOffKeys(steps)
    {
      var job := jobs[i];
      if job.Hear? && !SelectsNewestActive(keeper.policies, job.alert.agent, job.selected) {
        continue;
      }
      JobIsSerial(keeper.View(), keeper.config, job);
      SerialConcat(start, keeper.config, steps, StepsOf(job));
      if KeepsOffKeys(job) {
        JobIsOffKeys(job);
      }
      RunConcat(start, keeper.config, steps, StepsOf(job));
      Handle(keeper, job);
      steps := steps + StepsOf(job);
    }
    KeeperSafety.EveryRunIsSafe(start, keeper.config, steps);
    forall id: nat ensures KeeperRetries.Retries(keeper.log, id) <= 4 {
      KeeperRetries.RetriesAreBounded(start, keeper.config, steps, id);
    }
    PlanStability.SerialRunStaysFaithful(start, keeper.config, steps);
    if forall job | job in jobs :: KeepsOffKeys(job) {
      forall id: nat ensures
        && multiset(keeper.processQueue)[id] <= 10
        && JobsFor(keeper.payoutQueue, id) <= multiset(keeper.log)[PayoutQueued(id)] + 18
      {
        KeeperBounds.OneRowCausesBoundedWork(start, keeper.config, steps, id);
        UsageBoundsQueues(keeper.log, id);
      }
    }
  }
}
