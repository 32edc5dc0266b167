# Replimat terminal: feedstock bookkeeping

This project models the Replimat terminal (`Building_ReplimatTerminal`) of the
Replimat mod. The terminal is a powered building that turns feedstock, a liquid
stored in feed tanks on the same power network, into meals. The model covers:

- the two cached flags (any tank connected; enough feedstock stored);
- the dispense gate, which probes for one unit of feedstock;
- the drain loop, which visits the connected tanks in shuffled order and takes
  `min(left, stock)` from each;
- the replication countdown and the power draw that follows it;
- the meal pick and the dispensing of a meal;
- the advisory lines of the inspect text.

Files:

- `feedstock.dfy` (module `Feedstock`): the stocks of the connected tanks as a
  `seq<real>`, their total `Sum`, and `DrawInOrder`, the reference definition
  of the drain loop. It also holds the lemmas that the loop takes exactly the
  request, whatever the shuffle, and that it never makes a tank gain or go
  negative. `DrawTarget` is a helper definition: the positive part of a
  request, which is what the loop takes, since a request of zero or less stops
  it before its first draw.
- `terminal.dfy` (module `Replimat`): the class `ReplimatTerminal`. Its fields
  are the ones the source updates in place: the two flags, `replicatingTicks`,
  `selectedFood` and `powerOutput`. `powerOn` is also a field; the host's power
  network sets it. `ConsumeFeedstock` keeps the source's loop, with its `break`,
  over an `array<real>` of tank stocks, and is proved equal to `DrawInOrder`.
  `Candidates` is the filter of `Source/Building_ReplimatTerminal.cs:63`: the
  allowed meal defs of the configured preferability.
- `scenarios.dfy` (module `Scenarios`): worked scenarios with one connected tank.

Modelling choices:

- The connected tanks (`GetTanks`) are passed to every operation as an
  `array<real>` of stocks. Stocks are non-negative.
- The in-place shuffle of the tank list is a permutation `order` of the tank
  indices, passed in by the caller.
- `DrawFeedstock` subtracts the amount from the tank.
- `ReplimatUtility.convertMassToFeedstockVolume` is the terminal's constant
  `massToVolume`, an arbitrary function given at construction.
- `RandomElement` is a nondeterministic choice (`:|`) among the candidate
  meal defs.
- The source returns `null` when it cannot dispense. The model returns
  `DispenseResult.Unavailable` instead.
- The source faults when no allowed meal has the configured preferability:
  the random pick yields no def, and making the meal then fails before any
  feedstock is drawn. The model makes this an explicit result,
  `NoEligibleMeal`, that leaves every tank unchanged.
- The "no tanks" error that `ConsumeFeedstock` logs is its boolean result.

Two facts about the code shape the contracts:

- When the connected tanks do not cover the request, `ConsumeFeedstock` draws
  nothing at all (`Source/Building_ReplimatTerminal.cs:96`).
- `TryDispenseFood` returns the meal even then
  (`Source/Building_ReplimatTerminal.cs:150`); see Findings.

## Model

| member | source | states |
|---|---|---|
| Feedstock.SumUpdate | Source/Building_ReplimatTerminal.cs:108-112 | Drawing from one tank changes the total by exactly the change in that tank's stock |
| Feedstock.DrawBounds | Source/Building_ReplimatTerminal.cs:100-114 | After the drain loop no tank has more than before, none is below zero, and a tank the order does not visit keeps its stock |
| Feedstock.DrawAmount | Source/Building_ReplimatTerminal.cs:100-114 | One pass takes at most the request, and exactly the request unless every visited tank ends empty |
| Feedstock.DrawExact | Source/Building_ReplimatTerminal.cs:90-114 | When the tanks hold at least the request, the total drops by exactly the request, for every shuffle of the tanks |
| Feedstock.TwoTankDraw | Source/Building_ReplimatTerminal.cs:94-114 | Tanks of 1.0 and 4.0 drained of 2.0 hold 3.0 in total, in either order |
| Replimat.TicksAfterIsClamped | Source/Building_ReplimatTerminal.cs:185-188 | `k` ticks lower a non-negative countdown by `k`, stopping at zero; it never goes negative |
| Replimat.CycleLength | Source/Building_ReplimatTerminal.cs:134 | A cycle started at the 2-second duration is still running after `k` ticks iff `k` is under 120 ticks, and is idle from then on |
| Replimat.ReplimatTerminal.constructor | Source/Building_ReplimatTerminal.cs:14-28 | A new terminal is idle, picks lavish meals and has nutrient paste selected |
| Replimat.ReplimatTerminal.CheckFeedstockAvailability | Source/Building_ReplimatTerminal.cs:66-84 | Afterwards `hasReplimatTanks` holds iff a tank is connected and `hasEnoughFeedstock` iff the total stock is at least the amount; no tank and no other field changes |
| Replimat.ReplimatTerminal.CanDispenseNow | Source/Building_ReplimatTerminal.cs:32-39 | Refreshes both flags with the one-unit probe; true iff powered, some tank connected and the total at least 1; false whenever no tank is connected, powered or not |
| Replimat.ReplimatTerminal.SpawnSetup | Source/Building_ReplimatTerminal.cs:41-52 | Placement refreshes the flags with the probe and selects a candidate meal def, or none when there is no candidate |
| Replimat.ReplimatTerminal.ChooseMeal | Source/Building_ReplimatTerminal.cs:61-64 | The selected def is allowed and of the configured preferability; with no candidate nothing is selected |
| Replimat.ReplimatTerminal.ConsumeFeedstock | Source/Building_ReplimatTerminal.cs:86-122 | With no tank, only the error is logged; when the total covers the request, the stocks become `DrawInOrder` of the old stocks, so the total drops by exactly the request, no tank gains and none goes negative; when short, nothing changes |
| Replimat.ReplimatTerminal.Replicate | Source/Building_ReplimatTerminal.cs:127-137 | The countdown is set to the full 2-second duration, whatever it was, iff the terminal can dispense now; otherwise it is unchanged; the flags are refreshed either way |
| Replimat.ReplimatTerminal.TryDispenseFood | Source/Building_ReplimatTerminal.cs:139-151 | Unavailable, with no tank change, iff the gate is closed; otherwise a meal def of the configured preferability is returned, and the total drops by its volume if the tanks covered it and is unchanged if not |
| Replimat.ReplimatTerminal.TryDispenseFoodChecked | Source/Building_ReplimatTerminal.cs:139-151 | Corrected dispensing: the gate asks for power and a connected tank, and the availability check is made for the picked meal's volume instead of one unit; a meal is returned only when the tanks covered its volume, and then exactly that volume has been drawn; a refused request leaves every tank unchanged, keeps the selected meal when the gate is closed, and leaves the flags refreshed |
| Replimat.ReplimatTerminal.Tick | Source/Building_ReplimatTerminal.cs:179-191 | The countdown drops by exactly one while positive and stays at zero when idle; the power output is -1500 if the countdown was positive at the start of the tick and -125 otherwise |
| Replimat.ReplimatTerminal.GetInspectString | Source/Building_ReplimatTerminal.cs:193-209 | The host's text is kept. The tank advisory follows it iff no tank is connected. The feedstock advisory follows it iff tanks are connected but hold too little. Nothing is added otherwise |
| Scenarios.ProbeMissesShortfall | Source/Building_ReplimatTerminal.cs:139-151 | As written, one 5.0 tank and a 3.0 meal: both requests return the meal, and 2.0 units remain after the second |
| Scenarios.CheckedRefusesShortfall | Source/Building_ReplimatTerminal.cs:139-151 | With the corrected check the second request is refused and 2.0 units remain |
| Scenarios.ProbeRefusesSmallMeal | Source/Building_ReplimatTerminal.cs:32-39 | One 0.7 tank and a 0.5 meal: as written the one-unit probe refuses the meal; the corrected check serves it and 0.2 units remain |
| Scenarios.NoTankScenario | Source/Building_ReplimatTerminal.cs:32-39 | With no tank the terminal cannot dispense, powered or not, and the inspect text asks for a tank |

## Findings

| source | as written | input that shows it | evidently intended | confidence | as-written member | corrected member |
|---|---|---|---|---|---|---|
| Source/Building_ReplimatTerminal.cs:36 | `CanDispenseNow` probes for 1 unit. `TryDispenseFood` then drains the meal's real volume, and `ConsumeFeedstock` skips the whole draw when the tanks do not cover it (line 96). The meal is returned anyway (line 150) | One tank of 5.0 units, a meal needing 3.0, two requests: the second returns a meal and the tank still holds 2.0 | A meal is handed out only when its volume is available, and that volume is debited | not executed | Scenarios.ProbeMissesShortfall | Replimat.ReplimatTerminal.TryDispenseFoodChecked |
| Source/Building_ReplimatTerminal.cs:36 | The same one-unit probe refuses a meal whose volume is under one unit whenever less than one unit is stored, although the tanks cover the meal | One tank of 0.7 units and a meal needing 0.5: `TryDispenseFood` returns nothing | The meal is served when its volume is available | not executed | Scenarios.ProbeRefusesSmallMeal | Replimat.ReplimatTerminal.TryDispenseFoodChecked |

`TryDispenseFood` stays the model of the code as written. `TryDispenseFoodChecked`
is the same operation with the one-unit probe gate replaced by an availability
check for the picked meal's volume (it still requires power and a connected
tank). Like the original, it first refreshes both flags with the one-unit
probe, so the inspect text reads the same flags after a refused request; once a
meal has been picked, `hasEnoughFeedstock` is refreshed again for that meal's
volume. Its contract ties "a meal was returned" to "exactly its volume was
drawn".

## Left out

- `Source/JobDriver_FoodDeliverReplimat.cs`: its toils, reservations, pathing and fail conditions run inside the host's job runner, which is not part of this model.
- `Draw`: rendering of the glow with interpolated alpha.
- `ExposeData`, and the `MealFilter` storage settings that `SpawnSetup` copies: they only feed the host's save system. The meal pick reads the def's fixed filter, modelled as `allowedMeals`.
- Log output: `Log.Message` lines are dropped; the `Log.Error` of `ConsumeFeedstock` is its `loggedError` result.
- The sound that `Replicate` plays.
- The map and power-network query behind `GetTanks`: the connected tanks are passed in.
- `Building_ReplimatFeedTank` is not part of this model. Its `DrawFeedstock` is modelled as a plain subtraction, and its stock as a non-negative real.
- `ReplimatUtility` is not part of this model. Its mass-to-volume conversion is an arbitrary function fixed at construction.
- `ThingMaker.MakeThing`: a meal is represented by its def.
- `base.Tick` and `base.GetInspectString` belong to the host. The host's inspect text is a parameter.
- `AppendLine` writes the platform's line break; the model writes `"\n"`.
- Float rounding: feedstock amounts are exact reals, so IEEE rounding of the sums and subtractions is not modelled.
- The randomness of `Shuffle` and `RandomElement`: the shuffle is any permutation, and the pick any candidate.
- Replimat.ReplimatTerminal.ChooseMeal: states only that the pick is some candidate, not that it is uniform, because probabilities are outside the model.
