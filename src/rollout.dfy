/**
 * The blue/green deployment of Phase 8 (`bank-main/js/phase8.js`): starting a rollout
 * shifts traffic to the green environment in steps of 25 % on a timer, the tick that finds
 * 100 % makes green live, and a rollback returns everything to blue at any time.
 *
 * Each timer tick is one call of `Tick`; several live timers are not modelled.
 */
module Rollout {

  datatype Env = Blue | Green

  /** `phase8Data`'s deployment fields. */
  datatype Deployment = Deployment(isDeploying: bool, trafficPercentage: int, activeEnv: Env)

  const Initial: Deployment := Deployment(false, 0, Blue)

  const Step: int := 25

  /** `startDeployment()`: the flag is raised unless a rollout is already under way. */
  function Start(d: Deployment): (Deployment, bool)
  {
    if d.isDeploying then (d, false) else (d.(isDeploying := true), true)
  }

  /** `finalizeDeployment()` */
  function Finalize(d: Deployment): (r: Deployment)
    ensures r.activeEnv == Green && !r.isDeploying && r.trafficPercentage == d.trafficPercentage
  {
    d.(activeEnv := Green, isDeploying := false)
  }

  datatype TickOutcome = Shifted | Finalized

  /** One tick of `progressiveTrafficShift`'s timer. */
  function Tick(d: Deployment): (Deployment, TickOutcome)
  {
    if d.trafficPercentage >= 100 then (Finalize(d), Finalized)
    else (d.(trafficPercentage := d.trafficPercentage + Step), Shifted)
  }

  /** `rollbackDeployment()` */
  function Rollback(d: Deployment): (r: Deployment)
    ensures r == Initial
  {
    Deployment(false, 0, Blue)
  }

  /** The state after `n` ticks of one timer, finalising ticks included. */
  function Ticks(d: Deployment, n: nat): Deployment
  {
    if n == 0 then d else Tick(Ticks(d, n - 1)).0
  }

  // ---------------------------------------------------------------------------------------
  // Properties

  /** Starting while a rollout is under way does nothing. */
  lemma StartGuard(d: Deployment)
    ensures d.isDeploying ==> Start(d) == (d, false)
    ensures !d.isDeploying ==> Start(d) == (d.(isDeploying := true), true)
  {
  }

  /** Below 100 % a tick adds exactly 25 and changes nothing else; at 100 % or more it finalises instead. */
  lemma TickCases(d: Deployment)
    ensures var (d', o) := Tick(d);
            && (d.trafficPercentage < 100 ==>
                  o == Shifted && d'.trafficPercentage == d.trafficPercentage + 25 &&
                  d'.isDeploying == d.isDeploying && d'.activeEnv == d.activeEnv)
            && (d.trafficPercentage >= 100 ==>
                  o == Finalized && d' == Deployment(false, d.trafficPercentage, Green))
  {
  }

  /** Rollback resets everything whatever the state, and a second rollback changes nothing. */
  lemma RollbackIdempotent(d: Deployment)
    ensures Rollback(d) == Deployment(false, 0, Blue)
    ensures Rollback(Rollback(d)) == Rollback(d)
  {
  }

  /** Traffic is one of 0, 25, 50, 75, 100. */
  ghost predicate TrafficOnGrid(d: Deployment) {
    0 <= d.trafficPercentage <= 100 && d.trafficPercentage % Step == 0
  }

  lemma OperationsKeepTrafficOnGrid(d: Deployment)
    requires TrafficOnGrid(d)
    ensures TrafficOnGrid(Start(d).0) && TrafficOnGrid(Tick(d).0)
    ensures TrafficOnGrid(Finalize(d)) && TrafficOnGrid(Rollback(d))
  {
  }

  /** However many ticks run, traffic stays on the grid and never exceeds 100 %. */
  lemma {:induction false} TicksNeverExceed100(d: Deployment, n: nat)
    requires TrafficOnGrid(d)
    ensures TrafficOnGrid(Ticks(d, n))
  {
    if n > 0 {
      TicksNeverExceed100(d, n - 1);
      OperationsKeepTrafficOnGrid(Ticks(d, n - 1));
    }
  }

  /** From 0 %, the first four ticks give 25, 50, 75 and 100 % while the rollout is still running. */
  lemma {:induction false} RolloutFromZero(d: Deployment, n: nat)
    requires d.trafficPercentage == 0 && n <= 4
    ensures Ticks(d, n) == d.(trafficPercentage := 25 * n)
  {
    if n > 0 {
      RolloutFromZero(d, n - 1);
    }
  }

  /** The fifth tick finds 100 % and makes green live with the rollout over. */
  lemma FifthTickFinalizes(d: Deployment)
    requires d.trafficPercentage == 0
    ensures Ticks(d, 5) == Deployment(false, 100, Green)
    ensures Tick(Ticks(d, 4)).1 == Finalized
  {
    RolloutFromZero(d, 4);
  }

  /**
   * A rollback does not clear the shifting timer: if it keeps ticking, five more ticks
   * shift the traffic back up and make green live again after the rollback.
   */
  lemma RollbackLeavesTimerRunning(d: Deployment)
    ensures Ticks(Rollback(d), 5) == Deployment(false, 100, Green)
    ensures Rollback(d).activeEnv == Blue
  {
    FifthTickFinalizes(Rollback(d));
  }

  // ---------------------------------------------------------------------------------------
  // The engine over `phase8Data`

  class DeploymentEngine {
    var isDeploying: bool
    var trafficPercentage: int
    var activeEnv: Env

    function Snapshot(): Deployment
      reads this
    {
      Deployment(isDeploying, trafficPercentage, activeEnv)
    }

    ghost predicate Valid()
      reads this
    {
      TrafficOnGrid(Snapshot())
    }

    constructor ()
      ensures Valid() && Snapshot() == Initial
    {
      isDeploying := false;
      trafficPercentage := 0;
      activeEnv := Blue;
    }

    /** Returns whether the timer was started. */
    method StartDeployment() returns (started: bool)
      requires Valid()
      modifies this
      ensures Valid() && (Snapshot(), started) == Start(old(Snapshot()))
    {
      if isDeploying {
        return false;
      }
      isDeploying := true;
      return true;
    }

    method ProgressiveTrafficShiftTick() returns (outcome: TickOutcome)
      requires Valid()
      modifies this
      ensures Valid() && (Snapshot(), outcome) == Tick(old(Snapshot()))
    {
      if trafficPercentage >= 100 {
        FinalizeDeployment();
        return Finalized;
      }
      trafficPercentage := trafficPercentage + Step;
      return Shifted;
    }

    method FinalizeDeployment()
      requires Valid()
      modifies this
      ensures Valid() && Snapshot() == Finalize(old(Snapshot()))
    {
      activeEnv := Green;
      isDeploying := false;
    }

    method RollbackDeployment()
      modifies this
      ensures Valid() && Snapshot() == Rollback(old(Snapshot()))
    {
      trafficPercentage := 0;
      activeEnv := Blue;
      isDeploying := false;
    }
  }
}
