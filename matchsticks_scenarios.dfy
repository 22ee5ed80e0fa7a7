/** Clients of `Step` that replay the scenarios of matchsticks.test.js,
    using only the contracts of the class. */
module MatchsticksScenarios {
  import opened JsValues
  import opened Matchsticks

  /** Defaults: a step built without arguments, with 2, with a string and with 2.5. */
  method ConstructionDefaults() returns (processed: int, velocities: seq<int>, noPredecessor: bool)
    ensures processed == 0
    ensures velocities == [1, 2, 1, 1]
    ensures noPredecessor
  {
    var step1 := new Step(Undefined, null);
    processed := step1.Processed();
    var v1 := step1.Velocity();
    var p1 := step1.PreviousStep();
    noPredecessor := p1 == null;
    var step2 := new Step(Number(2.0), null);
    var step3 := new Step(Str("string"), null);
    var step4 := new Step(Number(2.5), null);
    var v2 := step2.Velocity();
    var v3 := step3.Velocity();
    var v4 := step4.Velocity();
    velocities := [v1, v2, v3, v4];
  }

  /** Root steps of velocity 1 and 5, each ticked three times. */
  method RootTickTrace() returns (slow: seq<int>, fast: seq<int>)
    ensures slow == [1, 2, 3]
    ensures fast == [5, 10, 15]
  {
    var step1 := new Step(Undefined, null);
    slow := [];
    step1.Tick();
    slow := slow + [step1.proc];
    step1.Tick();
    slow := slow + [step1.proc];
    step1.Tick();
    slow := slow + [step1.proc];

    var step2 := new Step(Number(5.0), null);
    fast := [];
    step2.Tick();
    fast := fast + [step2.proc];
    step2.Tick();
    fast := fast + [step2.proc];
    step2.Tick();
    fast := fast + [step2.proc];
  }

  /** A velocity-5 root step withdrawn from by 2, 2, 2, 2, then ticked and
      withdrawn from by 4, 4: the count after each tick, what each call
      returns and what is left. */
  method PullTrace() returns (ticked: seq<int>, grants: seq<int>, left: seq<int>)
    ensures ticked == [5, 5]
    ensures grants == [2, 2, 1, 0, 4, 1]
    ensures left == [3, 1, 0, 0, 1, 0]
  {
    var step := new Step(Number(5.0), null);
    step.Tick();
    ticked := [step.proc];
    grants, left := [], [];
    var g := step.PullForward(Number(2.0));
    grants, left := grants + [g], left + [step.proc];
    g := step.PullForward(Number(2.0));
    grants, left := grants + [g], left + [step.proc];
    g := step.PullForward(Number(2.0));
    grants, left := grants + [g], left + [step.proc];
    g := step.PullForward(Number(2.0));
    grants, left := grants + [g], left + [step.proc];
    step.Tick();
    ticked := ticked + [step.proc];
    g := step.PullForward(Number(4.0));
    grants, left := grants + [g], left + [step.proc];
    g := step.PullForward(Number(4.0));
    grants, left := grants + [g], left + [step.proc];
  }

  /** A velocity-1 predecessor ticked three times feeds a velocity-2
      successor ticked three times; then the predecessor ticks twice and the
      successor once. The predecessor's counts while it is first ticked, then
      both counts after each successor tick. */
  method ChainTrace() returns (supply: seq<int>, downstream: seq<int>, upstream: seq<int>)
    ensures supply == [1, 2, 3]
    ensures downstream == [2, 3, 3, 5]
    ensures upstream == [1, 0, 0, 0]
  {
    var step1 := new Step(Number(1.0), null);
    var step2 := new Step(Number(2.0), step1);
    step1.Tick();
    var s1 := step1.proc;
    step1.Tick();
    var s2 := step1.proc;
    step1.Tick();
    supply := [s1, s2, step1.proc];
    step2.Tick();
    var d1, u1 := step2.proc, step1.proc;
    assert d1 == 2 && u1 == 1;
    step2.Tick();
    var d2, u2 := step2.proc, step1.proc;
    assert d2 == 3 && u2 == 0;
    step2.Tick();
    var d3, u3 := step2.proc, step1.proc;
    assert d3 == 3 && u3 == 0;
    step1.Tick();
    step1.Tick();
    step2.Tick();
    downstream, upstream := [d1, d2, d3, step2.proc], [u1, u2, u3, step1.proc];
  }

  /** One `Tick` of a chained `Step` performs exactly one step of `ChainedTick`. */
  method TickIsChainedTick(s: Step)
    requires s.Valid() && s.prev != null
    modifies s, s.prev
    ensures Counts(s.proc, s.prev.proc) == ChainedTick(Counts(old(s.proc), old(s.prev.proc)), s.vel)
  {
    ghost var c := Counts(s.proc, s.prev.proc);
    s.Tick();
    ChainedTickMoves(c, s.vel);
  }

  /** Ticking a root `Step` `k` times follows `RootTicks`, so it adds `k * vel`. */
  method TickRootRepeatedly(s: Step, k: nat)
    requires s.prev == null
    modifies s
    ensures s.proc == RootTicks(old(s.proc), s.vel, k)
    ensures s.proc == old(s.proc) + k * s.vel
  {
    var i := 0;
    while i < k
      invariant 0 <= i <= k
      invariant s.proc == RootTicks(old(s.proc), s.vel, i)
    {
      s.Tick();
      i := i + 1;
    }
    RootTicksLinear(old(s.proc), s.vel, k);
  }

  /** Ticking a chained `Step` `k` times, its predecessor idle, follows
      `ChainTicks`: the pair's total is kept and, with a non-negative velocity
      and supply, `min(k * vel, supply)` items move downstream. */
  method TickChainedRepeatedly(s: Step, k: nat)
    requires s.Valid() && s.prev != null
    modifies s, s.prev
    ensures Counts(s.proc, s.prev.proc) == ChainTicks(Counts(old(s.proc), old(s.prev.proc)), s.vel, k)
    ensures s.proc + s.prev.proc == old(s.proc) + old(s.prev.proc)
    ensures s.vel >= 0 && old(s.prev.proc) >= 0 ==>
              s.proc == old(s.proc) + Min(k * s.vel, old(s.prev.proc))
  {
    ghost var c0 := Counts(s.proc, s.prev.proc);
    var i := 0;
    while i < k
      invariant 0 <= i <= k
      invariant Counts(s.proc, s.prev.proc) == ChainTicks(c0, s.vel, i)
    {
      TickIsChainedTick(s);
      i := i + 1;
    }
    ChainTicksConserve(c0, s.vel, k);
    if s.vel >= 0 && c0.upstream >= 0 {
      ChainTicksDrain(c0, s.vel, k);
    }
  }
}
