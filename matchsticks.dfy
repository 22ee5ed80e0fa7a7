/** One stage of a linear production chain (`Step` in matchsticks.js): the
    defaulting rules, the grant rule of `pullForward`, the effect of `tick`,
    and the class whose methods change the counts in place. */
module Matchsticks {
  import opened JsValues

  function Min(a: int, b: int): (m: int) {
    if a <= b then a else b
  }

  // ---------------------------------------------------------------------
  // Construction

  /** The velocity a step is built with: the argument when it is an integer
      number, otherwise the default of 1. Zero and negative integers are kept. */
  function InitialVelocity(arg: JsValue): (v: int)
    ensures IsInteger(arg) ==> v as real == arg.x
    ensures !IsInteger(arg) ==> v == 1
  {
    if IsInteger(arg) then IntegerValue(arg) else 1
  }

  /** Every integer, passed as a number, becomes the velocity unchanged. */
  lemma IntegerVelocityKept(n: int)
    ensures InitialVelocity(Number(n as real)) == n
  {
  }

  /** A number with a fractional part (such as 2.5) falls back to velocity 1. */
  lemma FractionalVelocityDefaults(x: real)
    requires x.Floor as real != x
    ensures InitialVelocity(Number(x)) == 1
  {
  }

  // ---------------------------------------------------------------------
  // pullForward

  /** The amount `pullForward(request)` hands out when `proc` items are held:
      nothing for a request that is not an integer, otherwise the smaller of
      the request and the holding. */
  function Granted(proc: int, request: JsValue): (g: int)
    ensures !IsInteger(request) ==> g == 0
    ensures IsInteger(request) ==>
              g <= IntegerValue(request) && g <= proc &&
              (g == IntegerValue(request) || g == proc)
  {
    if !IsInteger(request) then 0
    else if IntegerValue(request) >= proc then proc
    else IntegerValue(request)
  }

  /** The grant is exactly the minimum of an integer request and the holding. */
  lemma GrantedIsMin(proc: int, request: int)
    ensures Granted(proc, FromInt(request)) == Min(request, proc)
  {
  }

  /** With nothing negative involved, a grant is a share of both the request
      and the holding, and the holding stays non-negative. */
  lemma GrantNonNegative(proc: int, request: int)
    requires proc >= 0 && request >= 0
    ensures 0 <= Granted(proc, FromInt(request)) <= request
    ensures 0 <= proc - Granted(proc, FromInt(request)) <= proc
  {
  }

  /** A request at least as large as the holding drains it to 0, and any
      request made afterwards is granted nothing. */
  lemma DrainThenEmpty(proc: int, request: int, again: JsValue)
    requires request >= proc && IsInteger(again) && IntegerValue(again) >= 0
    ensures proc - Granted(proc, FromInt(request)) == 0
    ensures Granted(0, again) == 0
  {
  }

  /** The code does not reject a negative request: one smaller than the
      holding is "granted" as a negative amount, which raises the holding. */
  lemma NegativeRequestRaises(proc: int, request: int)
    requires request < 0 && request < proc
    ensures Granted(proc, FromInt(request)) == request
    ensures proc - Granted(proc, FromInt(request)) > proc
  {
  }

  // ---------------------------------------------------------------------
  // tick

  /** The counts of a chained step (`downstream`) and of its predecessor (`upstream`). */
  datatype Counts = Counts(downstream: int, upstream: int)

  /** One `tick()` of a chained step of velocity `vel`: it pulls up to `vel`
      from its predecessor and adds what it was given. */
  function ChainedTick(c: Counts, vel: int): (r: Counts) {
    var g := Granted(c.upstream, FromInt(vel));
    Counts(c.downstream + g, c.upstream - g)
  }

  /** A chained tick moves items, it neither creates nor loses any; the amount
      moved is the minimum of the velocity and what the predecessor holds. */
  lemma ChainedTickMoves(c: Counts, vel: int)
    ensures ChainedTick(c, vel).downstream + ChainedTick(c, vel).upstream
            == c.downstream + c.upstream
    ensures ChainedTick(c, vel).downstream - c.downstream == Min(vel, c.upstream)
  {
  }

  /** With a non-negative velocity and holding, a chained tick gains between 0
      and `vel` and leaves the predecessor non-negative. */
  lemma ChainedTickBounds(c: Counts, vel: int)
    requires vel >= 0 && c.upstream >= 0
    ensures c.downstream <= ChainedTick(c, vel).downstream <= c.downstream + vel
    ensures 0 <= ChainedTick(c, vel).upstream <= c.upstream
  {
  }

  /** The count of a root step after `k` successive `tick()` calls. */
  function RootTicks(proc: int, vel: int, k: nat): (r: int) {
    if k == 0 then proc else RootTicks(proc, vel, k - 1) + vel
  }

  /** `k` root ticks add `k * vel`; from a fresh step the count is `k * vel`. */
  lemma {:induction false} RootTicksLinear(proc: int, vel: int, k: nat)
    ensures RootTicks(proc, vel, k) == proc + k * vel
  {
    if k > 0 {
      RootTicksLinear(proc, vel, k - 1);
      assert (k - 1) * vel + vel == k * vel;
    }
  }

  /** The counts after `k` successive `tick()` calls of a chained step whose
      predecessor does not tick in between. */
  function ChainTicks(c: Counts, vel: int, k: nat): (r: Counts) {
    if k == 0 then c else ChainedTick(ChainTicks(c, vel, k - 1), vel)
  }

  /** Repeated chained ticks conserve the items of the pair. */
  lemma {:induction false} ChainTicksConserve(c: Counts, vel: int, k: nat)
    ensures ChainTicks(c, vel, k).downstream + ChainTicks(c, vel, k).upstream
            == c.downstream + c.upstream
  {
    if k > 0 {
      ChainTicksConserve(c, vel, k - 1);
      ChainedTickMoves(ChainTicks(c, vel, k - 1), vel);
    }
  }

  /** With a non-negative velocity and holding, `k` chained ticks move
      `min(k * vel, upstream)` items: the successor is capped by its velocity
      until the predecessor runs dry. */
  lemma {:induction false} ChainTicksDrain(c: Counts, vel: int, k: nat)
    requires vel >= 0 && c.upstream >= 0
    ensures ChainTicks(c, vel, k).downstream == c.downstream + Min(k * vel, c.upstream)
    ensures ChainTicks(c, vel, k).upstream == c.upstream - Min(k * vel, c.upstream)
  {
    if k > 0 {
      ChainTicksDrain(c, vel, k - 1);
      var prior := ChainTicks(c, vel, k - 1);
      ChainedTickMoves(prior, vel);
      assert (k - 1) * vel + vel == k * vel;
      assert (k - 1) * vel <= k * vel;
    }
  }

  // ---------------------------------------------------------------------
  // The class

  /** A stage of the chain. `vel` and `prev` are fixed at construction; `proc`
      counts the items processed and not yet taken downstream. */
  class Step {
    var proc: int
    const vel: int
    const prev: Step?

    /** A step is never its own predecessor: the constructor cannot be handed
        the object it is building. */
    predicate Valid() {
      prev != this
    }

    /** `new Step(velocity, previousStep)`: nothing processed yet, the
        velocity defaulted, the predecessor as given. */
    constructor (velocity: JsValue, previousStep: Step?)
      ensures Valid()
      ensures proc == 0
      ensures vel == InitialVelocity(velocity)
      ensures prev == previousStep
    {
      proc := 0;
      vel := InitialVelocity(velocity);
      prev := previousStep;
    }

    /** The getter `processed`. */
    method Processed() returns (n: int)
      ensures n == proc
    {
      n := proc;
    }

    /** The getter `velocity`. */
    method Velocity() returns (v: int)
      ensures v == vel
    {
      v := vel;
    }

    /** The getter `previousStep`. */
    method PreviousStep() returns (p: Step?)
      ensures p == prev
    {
      p := prev;
    }

    /** `pullForward(request)`: hand out the grant and keep the rest. */
    method PullForward(request: JsValue) returns (available: int)
      modifies this
      ensures available == Granted(old(proc), request)
      ensures proc == old(proc) - available
      ensures !IsInteger(request) ==> available == 0 && proc == old(proc)
    {
      if !IsInteger(request) {
        return 0;
      }
      available := 0;
      if IntegerValue(request) >= proc {
        available := proc;
      } else {
        available := IntegerValue(request);
      }
      proc := proc - available;
    }

    /** `tick()`: a root step adds its velocity; a chained step moves what
        its predecessor grants it. Only this step and its predecessor change. */
    method Tick()
      requires Valid()
      modifies this, prev
      ensures prev == null ==> proc == old(proc) + vel
      ensures prev != null ==>
                proc == old(proc) + Min(vel, old(prev.proc)) &&
                prev.proc == old(prev.proc) - Min(vel, old(prev.proc))
      ensures prev != null ==> proc + prev.proc == old(proc) + old(prev.proc)
    {
      if prev != null {
        var given := prev.PullForward(FromInt(vel));
        proc := proc + given;
      } else {
        proc := proc + vel;
      }
    }
  }
}
