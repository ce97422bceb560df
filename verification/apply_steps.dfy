/** The "Apply & Track" timeline: an interval advances a step counter through
    0..n (n = number of application steps, the extra value n meaning "all
    done") and wraps to 0; each step is shown completed, active or pending
    according to the counter. */
module ApplySteps {
  import opened Arith

  datatype StepStatus = Completed | Active | Pending

  /** The application steps shown by default. */
  const DefaultStepCount: nat := 4

  /** The counter after one interval tick. */
  function Next(current: nat, n: nat): (r: nat)
    requires current <= n
    ensures r <= n
    ensures current < n ==> r == current + 1
    ensures current == n ==> r == 0
  {
    (current + 1) % (n + 1)
  }

  /** The counter after `k` ticks. */
  function Ticks(current: nat, n: nat, k: nat): (r: nat)
    requires current <= n
    ensures r <= n
  {
    if k == 0 then current else Next(Ticks(current, n, k - 1), n)
  }

  /** Ticks compose: `a` ticks then `b` ticks are `a + b` ticks. */
  lemma {:induction false} TicksCompose(current: nat, n: nat, a: nat, b: nat)
    requires current <= n
    ensures Ticks(current, n, a + b) == Ticks(Ticks(current, n, a), n, b)
  {
    if b > 0 {
      TicksCompose(current, n, a, b - 1);
    }
  }

  /** Before reaching `n` the counter climbs one step per tick. */
  lemma {:induction false} TicksClimb(current: nat, n: nat, k: nat)
    requires current + k <= n
    ensures Ticks(current, n, k) == current + k
  {
    if k > 0 {
      TicksClimb(current, n, k - 1);
    }
  }

  /** After `n + 1` ticks the counter is back where it was: it climbs to `n`,
      wraps to 0 and climbs again. */
  lemma FullCycle(current: nat, n: nat)
    requires current <= n
    ensures Ticks(current, n, n + 1) == current
  {
    var up := n - current;
    TicksClimb(current, n, up);
    TicksCompose(current, n, up, 1);
    assert Ticks(current, n, up + 1) == 0;
    TicksCompose(current, n, up + 1, current);
    TicksClimb(0, n, current);
  }

  /** How step `index` is shown while the counter is at `current`: pending
      exactly when the counter has not reached it, completed exactly when the
      counter has passed it (StatusLayout gives the resulting layout). */
  function StatusOf(index: nat, current: nat): (s: StepStatus)
    ensures s == Pending <==> current < index
    ensures s == Completed <==> index < current
  {
    if index < current then Completed
    else if index == current then Active
    else Pending
  }

  /** The steps are a run of completed ones, then at most one active one,
      then pending ones: at most one step is active, and none once the
      counter has passed the last step. */
  lemma StatusLayout(current: nat, n: nat)
    requires current <= n
    ensures forall i: nat, j: nat :: i < j && StatusOf(j, current) == Completed ==> StatusOf(i, current) == Completed
    ensures forall i: nat, j: nat :: i < j && StatusOf(i, current) == Pending ==> StatusOf(j, current) == Pending
    ensures forall i: nat, j: nat :: StatusOf(i, current) == Active && StatusOf(j, current) == Active ==> i == j
    ensures current == n ==> forall i: nat :: i < n ==> StatusOf(i, current) == Completed
    ensures current < n ==> StatusOf(current, current) == Active
  {
  }

  /** Every step but the last has a connector line below it. */
  function HasConnector(index: nat, n: nat): (b: bool)
    requires index < n
    ensures b <==> index + 1 < n
  {
    index != n - 1
  }

  /** The filled height of a connector, in percent: full only below a completed step. */
  function ConnectorFill(index: nat, current: nat): (p: real)
    ensures p == 100.0 <==> StatusOf(index, current) == Completed
    ensures p == 0.0 <==> StatusOf(index, current) != Completed
  {
    if StatusOf(index, current) == Completed then 100.0 else 0.0
  }

  /** The number of full connectors among the first `k` steps. */
  function FilledBelow(k: nat, n: nat, current: nat): nat
    requires k <= n
  {
    if k == 0 then 0
    else FilledBelow(k - 1, n, current) + (if HasConnector(k - 1, n) && ConnectorFill(k - 1, current) == 100.0 then 1 else 0)
  }

  /** The connectors of the timeline: every step but the last has one, the
      full ones form an unbroken run from the top, and a full connector
      always leads down to a step that is completed or active. */
  lemma ConnectorsFillFromTop(current: nat, n: nat)
    requires current <= n
    ensures 0 < n ==> !HasConnector(n - 1, n)
    ensures forall i: nat :: i + 1 < n ==> HasConnector(i, n)
    ensures forall i: nat, j: nat :: i < j && ConnectorFill(j, current) == 100.0 ==> ConnectorFill(i, current) == 100.0
    ensures forall i: nat :: i + 1 < n && ConnectorFill(i, current) == 100.0 ==> StatusOf(i + 1, current) != Pending
  {
  }

  /** The filled part of the timeline is as long as the run of completed
      steps, less the last step, which has no connector: among the first `k`
      steps, `min(k, current, n - 1)` connectors are full. */
  lemma {:induction false} FilledCount(k: nat, n: nat, current: nat)
    requires k <= n && 0 < n
    ensures FilledBelow(k, n, current) == Least(k, Least(current, n - 1))
  {
    if k > 0 {
      FilledCount(k - 1, n, current);
    }
  }

  /** With every step completed all `n - 1` connectors are full; with none
      completed none is. */
  lemma FilledEnds(n: nat)
    requires 0 < n
    ensures FilledBelow(n, n, n) == n - 1
    ensures FilledBelow(n, n, 0) == 0
  {
    FilledCount(n, n, n);
    FilledCount(n, n, 0);
  }

  /** The opacity of a step's text, in percent: dimmed only while pending. */
  function TextOpacity(index: nat, current: nat): (p: nat)
    ensures p == 40 <==> index > current
    ensures p == 100 <==> index <= current
  {
    if StatusOf(index, current) == Pending then 40 else 100
  }

  /** The section's state: the number of steps and the counter. */
  class StepCycle {
    const n: nat
    var currentStep: nat

    predicate Valid()
      reads this
    {
      currentStep <= n
    }

    constructor (n: nat)
      ensures Valid() && this.n == n && currentStep == 0
    {
      this.n := n;
      currentStep := 0;
    }

    /** The 4-second interval. */
    method Tick()
      requires Valid()
      modifies this
      ensures Valid()
      ensures currentStep == Next(old(currentStep), n)
    {
      currentStep := (currentStep + 1) % (n + 1);
    }
  }
}
