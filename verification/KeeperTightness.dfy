/** The bound on one claim's work is exact: a run that causes all ten process
    jobs. */
module KeeperTightness {
  import opened ClaimTypes
  import opened VerificationRecord
  import opened KeeperModel
  import opened KeeperSerial
  import opened KeeperBounds
  import Settlement

  const CONFIG := Settlement.Config(true, true, true, false, false, false, false)

  const START := World([], map[0 := Policy("agent", 100, true, 0)], map[], Idle, [])

  /** An exploit alert for the agent. */
  const ALERT := IngestStep(Alert(true, "agent", "exploit", "tx", false, ""), Some(0))

  function Pass(verdict: Verdict): Step {
    ProcessStep(0, ProcessInput(verdict, None, Matured, NeverLanded(""), false))
  }

  /** A pass that finds the agent itself authorised the movement. */
  const REFILE := Pass(Verdict(Contradicted, 0, 1.0, map["reason" := JStr("agent_authorized_movement")]))

  /** A pass that settles nothing. */
  const STALL := Pass(Verdict(Inconclusive, 0, 0.0, map[]))

  ghost predicate Stage(
    world: World, trigger: Trigger, status: Status, attempts: nat, refiled: bool, usage: Usage)
  {
    && |world.claims| == 1 && world.policies == START.policies && world.worker.Idle?
    && UsageOf(world.log, 0) == usage
    && var row := world.claims[0];
       && row.policyId == 0 && row.trigger == trigger && row.status == status && row.verifyAttempts == attempts
       && SupersedesSoFar(row.data) == usage.supersedes as real && AlreadyReattributed(row.data) == refiled
  }

  lemma OpeningStage()
    ensures Stage(Apply(START, CONFIG, ALERT), Exploit, Pending, 0, false, Usage(1, 0, 0, 0, 0))
  {
    UsageAfter([], ClaimOpened(0), 0);
    assert UsageOf([], 0) == Usage(0, 0, 0, 0, 0);
  }

  function Verifying(world: World): Row
    requires |world.claims| == 1
  {
    world.claims[0].(status := Status.Verifying)
  }

  lemma PassIsAdjudicated(world: World, verdict: Verdict)
    requires |world.claims| == 1 && world.policies == START.policies && world.claims[0].policyId == 0
    ensures
      var step := Pass(verdict);
      Apply(world, CONFIG, step)
      == Adjudicate(Put(world, 0, Verifying(world)), CONFIG, 0, world.claims[0], 100, step.input)
  {
    assert IndexAdmits(world.claims, 0, Verifying(world));
  }

  lemma Becomes(world: World, row: Row, event: Event, after: World, trigger: Trigger, status: Status,
                attempts: nat, refiled: bool, usage: Usage)
    requires |world.claims| == 1 && world.policies == START.policies && world.worker.Idle?
    requires after == Note(world.(claims := [row]), event)
    requires UsageOf(world.log + [event], 0) == usage
    requires row.policyId == 0 && row.trigger == trigger && row.status == status && row.verifyAttempts == attempts
    requires SupersedesSoFar(row.data) == usage.supersedes as real && AlreadyReattributed(row.data) == refiled
    ensures Stage(after, trigger, status, attempts, refiled, usage)
  {
  }

  lemma RefilingStage(world: World, attempts: nat, usage: Usage)
    requires Stage(world, Exploit, Pending, attempts, false, usage)
    ensures Stage(Apply(world, CONFIG, REFILE), AgentError, Pending, attempts, true,
                  usage.(refilings := usage.refilings + 1))
  {
    var claim := world.claims[0];
    var row := Refiled(Verifying(world), claim, "agent_authorized_movement", false);
    RefilingWrites(world, row);
    RefiledView(Verifying(world), claim);
    UsageAfter(world.log, RefileQueued(0), 0);
    Becomes(world, row, RefileQueued(0), Apply(world, CONFIG, REFILE), AgentError, Pending, attempts, true,
            usage.(refilings := usage.refilings + 1));
  }

  lemma RefiledView(row: Row, claim: Row)
    ensures
      var refiled := Refiled(row, claim, "agent_authorized_movement", false);
      SupersedesSoFar(refiled.data) == SupersedesSoFar(claim.data) && AlreadyReattributed(refiled.data)
  {
  }

  lemma RefilingWrites(world: World, row: Row)
    requires |world.claims| == 1 && world.policies == START.policies && world.claims[0].policyId == 0
    requires world.claims[0].trigger == Exploit && !AlreadyReattributed(world.claims[0].data)
    requires row == Refiled(Verifying(world), world.claims[0], "agent_authorized_movement", false)
    ensures Apply(world, CONFIG, REFILE) == Note(world.(claims := [row]), RefileQueued(0))
  {
    PassIsAdjudicated(world, REFILE.input.verdict);
    assert Put(Put(world, 0, Verifying(world)), 0, row) == world.(claims := [row]);
  }

  lemma StallingStage(world: World, status: Status, attempts: nat, usage: Usage)
    requires Stage(world, AgentError, status, attempts, true, usage) && attempts < 4
    ensures Stage(Apply(world, CONFIG, STALL), AgentError, Indeterminate, attempts + 1, true,
                  usage.(retries := usage.retries + 1))
  {
    var claim := world.claims[0];
    var row := IndeterminateRow(Verifying(world), claim, attempts + 1, map[]);
    StallingWrites(world, row);
    StalledView(Verifying(world), claim, attempts + 1);
    UsageAfter(world.log, RetryScheduled(0), 0);
    Becomes(world, row, RetryScheduled(0), Apply(world, CONFIG, STALL), AgentError, Indeterminate, attempts + 1,
            true, usage.(retries := usage.retries + 1));
  }

  lemma StalledView(row: Row, claim: Row, attempt: nat)
    ensures SameKeeperView(IndeterminateRow(row, claim, attempt, map[]).data, claim.data)
  {
    MergeKeepsKeeperView(claim.data,
      map[] + map["outcome" := JStr("indeterminate"), "verifyAttempts" := JNum(attempt as real)]);
  }

  lemma StallingWrites(world: World, row: Row)
    requires |world.claims| == 1 && world.policies == START.policies && world.claims[0].policyId == 0
    requires world.claims[0].trigger == AgentError && world.claims[0].verifyAttempts < 4
    requires row == IndeterminateRow(Verifying(world), world.claims[0], world.claims[0].verifyAttempts + 1, map[])
    ensures Apply(world, CONFIG, STALL) == Note(world.(claims := [row]), RetryScheduled(0))
  {
    PassIsAdjudicated(world, STALL.input.verdict);
    assert Put(Put(world, 0, Verifying(world)), 0, row) == world.(claims := [row]);
  }

  lemma SupersedingStage(world: World, attempts: nat, usage: Usage)
    requires Stage(world, AgentError, Indeterminate, attempts, true, usage) && usage.supersedes < 2
    ensures Stage(Apply(world, CONFIG, ALERT), Exploit, Pending, attempts, false,
                  usage.(supersedes := usage.supersedes + 1))
  {
    var row := Superseded(world.claims[0], Exploit, "tx", IngestData(ALERT.alert, false));
    SupersedingWrites(world, row);
    TakenView(world.claims[0], usage.supersedes);
    UsageAfter(world.log, SupersedeQueued(0), 0);
    Becomes(world, row, SupersedeQueued(0), Apply(world, CONFIG, ALERT), Exploit, Pending, attempts, false,
            usage.(supersedes := usage.supersedes + 1));
  }

  lemma TakenView(existing: Row, count: nat)
    requires SupersedesSoFar(existing.data) == count as real
    ensures
      var row := Superseded(existing, Exploit, "tx", IngestData(ALERT.alert, false));
      SupersedesSoFar(row.data) == (count + 1) as real && !AlreadyReattributed(row.data)
  {
    var ingested := IngestData(ALERT.alert, false);
    assert ingested.Keys == {"simulated", "eventType", "source"};
    SupersededView(existing, Exploit, "tx", ingested);
    assert (count + 1) as real == count as real + 1.0;
  }

  lemma SupersedingWrites(world: World, row: Row)
    requires |world.claims| == 1 && world.claims[0].policyId == 0 && world.claims[0].trigger == AgentError
    requires world.claims[0].status == Indeterminate && SupersedesSoFar(world.claims[0].data) <= 1.0
    requires row == Superseded(world.claims[0], Exploit, "tx", IngestData(ALERT.alert, false))
    ensures Apply(world, CONFIG, ALERT) == Note(world.(claims := [row]), SupersedeQueued(0))
  {
    assert FindParked(world.claims, 0, 0) == Some(0) && EarnsSlot(world.claims[0], Exploit, "tx");
    assert Put(world, 0, row) == world.(claims := [row]);
  }

  /** The runs the bound is stated for. */
  ghost predicate Clean(steps: seq<Step>) {
    SerialRun(START, CONFIG, steps) && AllOffKeys(steps)
  }

  /** The world after a run and one step more. */
  lemma OneMore(steps: seq<Step>, step: Step) returns (longer: seq<Step>)
    requires Clean(steps) && Run(START, CONFIG, steps).worker.Idle?
    requires step in {ALERT, REFILE, STALL}
    ensures longer == steps + [step] && Clean(longer)
    ensures Run(START, CONFIG, longer) == Apply(Run(START, CONFIG, steps), CONFIG, step)
  {
    longer := steps + [step];
    assert longer[..|steps|] == steps;
  }

  /** One round: an exploit claim is re-filed as an agent error and stalls. */
  lemma Round(steps: seq<Step>, attempts: nat, usage: Usage) returns (longer: seq<Step>)
    requires Clean(steps) && attempts < 4
    requires Stage(Run(START, CONFIG, steps), Exploit, Pending, attempts, false, usage)
    ensures Clean(longer)
    ensures Stage(Run(START, CONFIG, longer), AgentError, Indeterminate, attempts + 1, true,
                  usage.(refilings := usage.refilings + 1, retries := usage.retries + 1))
  {
    RefilingStage(Run(START, CONFIG, steps), attempts, usage);
    var refiled := OneMore(steps, REFILE);
    StallingStage(Run(START, CONFIG, refiled), Pending, attempts, usage.(refilings := usage.refilings + 1));
    longer := OneMore(refiled, STALL);
  }

  lemma Takeover(steps: seq<Step>, attempts: nat, usage: Usage) returns (longer: seq<Step>)
    requires Clean(steps) && usage.supersedes < 2
    requires Stage(Run(START, CONFIG, steps), AgentError, Indeterminate, attempts, true, usage)
    ensures Clean(longer)
    ensures Stage(Run(START, CONFIG, longer), Exploit, Pending, attempts, false,
                  usage.(supersedes := usage.supersedes + 1))
  {
    SupersedingStage(Run(START, CONFIG, steps), attempts, usage);
    longer := OneMore(steps, ALERT);
  }

  /** Some run causes four retries, two supersedes and three re-filings of one
      claim: with its opening, ten process jobs. */
  lemma TenJobsAreReached() returns (steps: seq<Step>)
    ensures Initial(START) && Clean(steps)
    ensures UsageOf(Run(START, CONFIG, steps).log, 0) == Usage(1, 4, 2, 3, 0)
    ensures ProcessJobs(UsageOf(Run(START, CONFIG, steps).log, 0)) == 10
  {
    OpeningStage();
    steps := OneMore([], ALERT);
    steps := Round(steps, 0, Usage(1, 0, 0, 0, 0));
    steps := Takeover(steps, 1, Usage(1, 1, 0, 1, 0));
    steps := Round(steps, 1, Usage(1, 1, 1, 1, 0));
    steps := Takeover(steps, 2, Usage(1, 2, 1, 2, 0));
    steps := Round(steps, 2, Usage(1, 2, 2, 2, 0));
    StallingStage(Run(START, CONFIG, steps), Indeterminate, 3, Usage(1, 3, 2, 3, 0));
    steps := OneMore(steps, STALL);
  }
}
