# matchsticks: a verified model of `Step`

The repository models a linear production chain. Each stage, a `Step`, has:

- a fixed integer `velocity`;
- a count of `processed` items waiting to be taken downstream;
- an optional `previousStep`.

`tick()` lets a step produce. A root step adds its velocity. A chained step pulls up to its velocity from its predecessor with `pullForward` and adds what it was granted. `pullForward(request)` grants the smaller of the request and the holding, and removes that amount.

The model has three modules:

- `JsValues` (`js_values.dfy`): the JavaScript values a caller may pass. `Number.isInteger` is the predicate `IsInteger`. It holds for a finite number with no fractional part, and never for a string, a BigInt, `undefined`, `NaN` or the like.
- `Matchsticks` (`matchsticks.dfy`): the class `Step`, with `var proc`, `const vel` and `const prev: Step?`. Beside it are the pure rules its methods follow. `InitialVelocity` is the defaulting rule. `Granted` is the grant rule. `ChainedTick` / `ChainTicks` / `RootTicks` describe one and repeated ticks. The lemmas about them are in the same module.
- `MatchsticksScenarios` (`matchsticks_scenarios.dfy`): client methods that replay the jest scenarios, and methods that tie one and `k` calls of `Tick` on a `Step` to `ChainedTick`, `RootTicks` and `ChainTicks`. They rely on nothing but the class contracts.

`vel` and `prev` are `const`, so they cannot change after construction. `Valid()` is `prev != this`, and the constructor establishes it. `Tick` may modify only `this` and `prev`. For a root step `prev` is null, so only `this`. `PullForward` may modify only `this`.

Three facts about the code are easy to miss, and the model keeps them:

- Velocity may be any integer, including 0 and negative values: only non-integers are replaced by 1.
- A negative request is not rejected. It is granted as a negative amount and so raises `processed` (`NegativeRequestRaises`).
- `processed` can therefore become negative. The non-negativity and min properties are stated under explicit `>= 0` assumptions.

## Model

| member | source | states |
|---|---|---|
| `Matchsticks.InitialVelocity` | matchsticks.js:3-9 | the velocity is the argument when `Number.isInteger` holds of it, and 1 otherwise |
| `Matchsticks.IntegerVelocityKept` | matchsticks.js:7-9 | every integer, including 0 and negatives, is kept as the velocity |
| `Matchsticks.FractionalVelocityDefaults` | matchsticks.test.js:18-19 | a number with a fractional part (2.5) gives velocity 1 |
| `JsValues.IsInteger` | matchsticks.js:7 | `Number.isInteger`: true exactly for a finite number with no fractional part |
| `Matchsticks.Granted` | matchsticks.js:29-42 | a non-integer request is granted 0; an integer request is granted a value no larger than the request or the holding, and equal to one of them |
| `Matchsticks.GrantedIsMin` | matchsticks.js:32-38 | the grant for an integer request is exactly `min(request, processed)` |
| `Matchsticks.GrantNonNegative` | matchsticks.js:34-40 | with `processed >= 0` and `request >= 0`: `0 <= grant <= request` and the holding left is between 0 and the old holding |
| `Matchsticks.DrainThenEmpty` | matchsticks.test.js:57-61 | a request at least the holding leaves 0, and any later non-negative request is granted 0 |
| `Matchsticks.NegativeRequestRaises` | matchsticks.js:36-40 | a negative request below the holding is granted itself, so the holding grows |
| `Matchsticks.ChainedTick` | matchsticks.js:22-23 | definition of one chained tick; properties in ChainedTickMoves and ChainedTickBounds |
| `Matchsticks.ChainedTickMoves` | matchsticks.js:22-23 | a chained tick conserves the sum of the two counts and moves exactly `min(velocity, predecessor's count)` |
| `Matchsticks.ChainedTickBounds` | matchsticks.js:22-23 | with velocity and predecessor count `>= 0`, the successor gains between 0 and the velocity and the predecessor stays `>= 0` |
| `Matchsticks.RootTicks` | matchsticks.js:24-26 | definition of `k` successive root ticks; properties in RootTicksLinear |
| `Matchsticks.RootTicksLinear` | matchsticks.js:24-26 | `k` root ticks add `k * velocity` to the count |
| `Matchsticks.ChainTicks` | matchsticks.js:22-23 | definition of `k` successive chained ticks with an idle predecessor; properties in ChainTicksConserve and ChainTicksDrain |
| `Matchsticks.ChainTicksConserve` | matchsticks.js:22-23 | any number of chained ticks conserves the sum of the two counts |
| `Matchsticks.ChainTicksDrain` | matchsticks.test.js:84-94 | with non-negative velocity and supply, `k` chained ticks move `min(k * velocity, supply)` from predecessor to successor |
| `Matchsticks.Step.Valid` | matchsticks.js:11-13 | a step is not its own predecessor (`prev != this`) |
| `Matchsticks.Step.constructor` | matchsticks.js:2-15 | a new step has processed 0, the defaulted velocity and the given predecessor; it is not its own predecessor, because that predecessor is an object that existed before the step was built |
| `Matchsticks.Step.Processed` | matchsticks.js:17 | returns the current count and changes nothing |
| `Matchsticks.Step.Velocity` | matchsticks.js:18 | returns the fixed velocity and changes nothing |
| `Matchsticks.Step.PreviousStep` | matchsticks.js:19 | returns the predecessor (or null) and changes nothing |
| `Matchsticks.Step.PullForward` | matchsticks.js:29-42 | returns `Granted(old count, request)`, lowers the count by exactly that and changes nothing else; a non-integer request returns 0 and changes nothing |
| `Matchsticks.Step.Tick` | matchsticks.js:21-27 | a root step's count grows by its velocity; a chained step gains `min(velocity, predecessor's old count)` and the predecessor loses the same, so their sum is conserved; only this step and its predecessor change |
| `MatchsticksScenarios.ConstructionDefaults` | matchsticks.test.js:3-20 | defaults: processed 0, no predecessor, velocities 1, 2, 1, 1 for no argument, 2, a string and 2.5 |
| `MatchsticksScenarios.RootTickTrace` | matchsticks.test.js:22-44 | root steps of velocity 1 and 5 count 1, 2, 3 and 5, 10, 15 over three ticks |
| `MatchsticksScenarios.PullTrace` | matchsticks.test.js:46-71 | each tick of the velocity-5 step brings the count to 5; the withdrawals of 2, 2, 2, 2, 4, 4 return 2, 2, 1, 0, 4, 1 and leave 3, 1, 0, 0, 1, 0 |
| `MatchsticksScenarios.ChainTrace` | matchsticks.test.js:73-100 | the predecessor counts 1, 2, 3 as it is ticked; then the successor counts 2, 3, 3, 5 while the predecessor counts 1, 0, 0, 0 |
| `MatchsticksScenarios.TickIsChainedTick` | matchsticks.js:22-23 | one `Tick` of a chained `Step` produces exactly the counts `ChainedTick` gives |
| `MatchsticksScenarios.TickRootRepeatedly` | matchsticks.js:24-26 | `k` ticks of a root `Step` give the count `RootTicks` gives, which is the old count plus `k * velocity` |
| `MatchsticksScenarios.TickChainedRepeatedly` | matchsticks.js:22-23 | `k` ticks of a chained `Step` with an idle predecessor give the counts `ChainTicks` gives: the pair's total is kept, and with non-negative velocity and supply the successor gains `min(k * velocity, supply)` |

## Left out

- Integer width: JavaScript numbers are doubles, exact only up to 2^53. The model's counts are unbounded integers, and rounding of huge counts is not modelled.
- Number values are written as reals. `NaN` and the infinities are the one value `NotFinite`, and a real that no double can represent is therefore admitted as an argument.
- The prototype check `Object.getPrototypeOf(previousStep) === Step.prototype` (matchsticks.js:11) is replaced by the static type `Step?`. The code treats a value whose prototype is not `Step.prototype` as "no predecessor". That includes an instance of a subclass of `Step`. Such a value cannot be written in the model. An object that is not a `Step` but has `Step.prototype` as its prototype (made with `Object.create(Step.prototype)`) passes the check and is kept as the predecessor. The next `tick()` then throws a TypeError when `pullForward` reads the private count (matchsticks.js:34). This error path is not modelled.
- Private fields: The JavaScript fields `#proc`, `#vel` and `#prev` are private. Dafny fields are not, so other code could assign `proc` directly. Only the methods here do.
- `module.exports` (matchsticks.js:45-47) is module plumbing with no behaviour.
