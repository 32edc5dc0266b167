/** The Replimat terminal: a powered building that turns feedstock stored in the
    connected tanks into meals.

    The tanks connected to the terminal's power network are handed to each
    operation as an array of stocks (`tanks`); the random shuffle of the tank
    list is handed in as a permutation `order` of the tank indices. */
module Replimat {
  import opened Feedstock

  /** The food preferability tiers of the host game, lowest first. */
  datatype FoodPreferability =
    | Undefined
    | NeverForNutrition
    | DesperateOnly
    | RawBad
    | RawTasty
    | MealAwful
    | MealSimple
    | MealFine
    | MealLavish

  /** A meal definition: its name, preferability tier and base mass in kilograms. */
  datatype MealDef = MealDef(defName: string, preferability: FoodPreferability, baseMass: real)

  /** The one-slot optional value used for the selected meal def. */
  datatype Option<T> = None | Some(value: T)

  /** The outcome of asking the terminal for a meal. `Unavailable` is the source's
      `null`; `NoEligibleMeal` is the fault the source runs into when no allowed
      meal has the configured preferability (the random pick yields no def and
      making the meal fails before any feedstock is drawn). */
  datatype DispenseResult =
    | Unavailable
    | NoEligibleMeal
    | Produced(meal: MealDef)

  /** Ticks per second of game time. */
  const TicksPerSecond: int := 60

  /** `GenTicks.SecondsToTicks(2f)`: the length of one replication cycle. */
  const CollectDuration: int := 2 * TicksPerSecond

  /** The feedstock probe `CanDispenseNow` checks for, whatever meal is made. */
  const ProbeAmount: real := 1.0

  /** Power drawn while idle and while replicating (the power output is their negation). */
  const IdlePower: real := 125.0
  const ReplicatingPower: real := 1500.0

  const NoTanksMessage: string := "Requires connection to Replimat Feedstock Tank"
  const InsufficientMessage: string := "Insufficient Feedstock"

  /** One tick of the countdown: down by one while positive. */
  function CountdownStep(ticks: int): int
  {
    if ticks > 0 then ticks - 1 else ticks
  }

  /** The countdown after `k` ticks. */
  function TicksAfter(ticks: int, k: nat): int
  {
    if k == 0 then ticks else TicksAfter(CountdownStep(ticks), k - 1)
  }

  /** From any non-negative countdown, `k` ticks bring it down by `k`, stopping at zero. */
  lemma {:induction false} TicksAfterIsClamped(ticks: int, k: nat)
    requires ticks >= 0
    ensures TicksAfter(ticks, k) == if ticks >= k then ticks - k else 0
  {
    if k > 0 {
      TicksAfterIsClamped(CountdownStep(ticks), k - 1);
    }
  }

  /** A replication cycle keeps the terminal busy for exactly `CollectDuration` ticks:
      it is still replicating after `k` ticks iff `k < CollectDuration`. */
  lemma CycleLength(k: nat)
    ensures TicksAfter(CollectDuration, k) > 0 <==> k < CollectDuration
    ensures k >= CollectDuration ==> TicksAfter(CollectDuration, k) == 0
  {
    TicksAfterIsClamped(CollectDuration, k);
  }

  class ReplimatTerminal {
    /** `powerComp.PowerOn`: set by the host's power network. */
    var powerOn: bool
    /** `powerComp.PowerOutput`: negative while the terminal draws power. */
    var powerOutput: real
    /** The meal defs the terminal's fixed storage filter allows. */
    const allowedMeals: set<MealDef>
    /** The preferability tier meals are picked from. */
    const maxPreferability: FoodPreferability
    /** `ReplimatUtility.convertMassToFeedstockVolume`. */
    const massToVolume: real -> real
    /** The currently selected meal def; `None` once a pick found no candidate. */
    var selectedFood: Option<MealDef>
    /** Ticks left in the current replication cycle. */
    var replicatingTicks: int
    var hasReplimatTanks: bool
    var hasEnoughFeedstock: bool

    /** The countdown never leaves `0 .. CollectDuration`. */
    ghost predicate Valid()
      reads this
    {
      0 <= replicatingTicks <= CollectDuration
    }

    /** The meal defs a pick chooses from: allowed, and of the configured tier. */
    function Candidates(): set<MealDef>
    {
      set m | m in allowedMeals && m.preferability == maxPreferability
    }

    /** A freshly built terminal: idle, lavish meals, nutrient paste selected. */
    constructor (powered: bool, allowed: set<MealDef>, toVolume: real -> real, nutrientPaste: MealDef)
      ensures Valid()
      ensures powerOn == powered && allowedMeals == allowed && massToVolume == toVolume
      ensures maxPreferability == MealLavish
      ensures selectedFood == Some(nutrientPaste)
      ensures replicatingTicks == 0
      ensures !hasReplimatTanks && !hasEnoughFeedstock
    {
      powerOn := powered;
      powerOutput := 0.0;
      allowedMeals := allowed;
      maxPreferability := MealLavish;
      massToVolume := toVolume;
      selectedFood := Some(nutrientPaste);
      replicatingTicks := 0;
      hasReplimatTanks := false;
      hasEnoughFeedstock := false;
    }

    /** Refresh the two cached flags from the connected tanks. */
    method CheckFeedstockAvailability(tanks: array<real>, feedstockNeeded: real)
      modifies this
      ensures hasReplimatTanks <==> tanks.Length > 0
      ensures hasEnoughFeedstock <==> Sum(tanks[..]) >= feedstockNeeded
      ensures powerOn == old(powerOn) && powerOutput == old(powerOutput)
      ensures selectedFood == old(selectedFood) && replicatingTicks == old(replicatingTicks)
    {
      var totalAvailableFeedstock := Sum(tanks[..]);
      hasReplimatTanks := tanks.Length > 0;
      if totalAvailableFeedstock >= feedstockNeeded {
        hasEnoughFeedstock := true;
      } else {
        hasEnoughFeedstock := false;
      }
    }

    /** Refresh the flags with the fixed one-unit probe, then report whether a
        meal can be made: powered, connected to a tank, and holding the probe. */
    method CanDispenseNow(tanks: array<real>) returns (can: bool)
      modifies this
      ensures hasReplimatTanks <==> tanks.Length > 0
      ensures hasEnoughFeedstock <==> Sum(tanks[..]) >= ProbeAmount
      ensures can <==> powerOn && tanks.Length > 0 && Sum(tanks[..]) >= ProbeAmount
      ensures tanks.Length == 0 ==> !can
      ensures powerOn == old(powerOn) && powerOutput == old(powerOutput)
      ensures selectedFood == old(selectedFood) && replicatingTicks == old(replicatingTicks)
    {
      CheckFeedstockAvailability(tanks, ProbeAmount);
      can := powerOn && hasReplimatTanks && hasEnoughFeedstock;
    }

    /** Placement in the world: refresh the flags with the probe and pick a meal. */
    method SpawnSetup(tanks: array<real>)
      modifies this
      ensures hasReplimatTanks <==> tanks.Length > 0
      ensures hasEnoughFeedstock <==> Sum(tanks[..]) >= ProbeAmount
      ensures Candidates() != {} ==> selectedFood.Some? && selectedFood.value in Candidates()
      ensures Candidates() == {} ==> selectedFood == None
      ensures powerOn == old(powerOn) && powerOutput == old(powerOutput)
      ensures replicatingTicks == old(replicatingTicks)
    {
      CheckFeedstockAvailability(tanks, ProbeAmount);
      ChooseMeal();
    }

    /** Pick, at random, an allowed meal def of the configured tier. With no
        candidate the pick yields no def. */
    method ChooseMeal()
      modifies this`selectedFood
      ensures Candidates() != {} ==> selectedFood.Some? && selectedFood.value in Candidates()
      ensures Candidates() == {} ==> selectedFood == None
    {
      var candidates := Candidates();
      if candidates == {} {
        selectedFood := None;
      } else {
        var m :| m in candidates;
        selectedFood := Some(m);
      }
    }

    /** Draw `feedstockNeeded` from the tanks, visiting them in the shuffled
        `order` and taking `Min(left, stock)` from each, but only if their total
        covers the request. Returns whether the "no tanks" error was logged. */
    method ConsumeFeedstock(tanks: array<real>, order: seq<nat>, feedstockNeeded: real)
      returns (loggedError: bool)
      requires NonNegative(tanks[..])
      requires IsPermutation(order, tanks.Length)
      modifies tanks
      ensures loggedError <==> tanks.Length == 0
      ensures tanks[..] == if Sum(old(tanks[..])) >= feedstockNeeded
                           then DrawInOrder(old(tanks[..]), order, feedstockNeeded)
                           else old(tanks[..])
      ensures NonNegative(tanks[..])
      ensures forall i :: 0 <= i < tanks.Length ==> tanks[i] <= old(tanks[i])
      ensures Sum(tanks[..]) == if Sum(old(tanks[..])) >= feedstockNeeded
                                then Sum(old(tanks[..])) - DrawTarget(feedstockNeeded)
                                else Sum(old(tanks[..]))
    {
      ghost var before := tanks[..];
      var totalAvailableFeedstock := Sum(tanks[..]);
      loggedError := false;
      if tanks.Length > 0 {
        if totalAvailableFeedstock >= feedstockNeeded {
          var feedstockLeftToConsume := feedstockNeeded;
          var k := 0;
          while k < |order|
            invariant 0 <= k <= |order|
            invariant DrawInOrder(tanks[..], order[k..], feedstockLeftToConsume)
                      == DrawInOrder(before, order, feedstockNeeded)
          {
            if feedstockLeftToConsume <= 0.0 {
              break;
            }
            var j := order[k];
            var num := Min(feedstockLeftToConsume, tanks[j]);
            tanks[j] := tanks[j] - num;
            feedstockLeftToConsume := feedstockLeftToConsume - num;
            k := k + 1;
          }
          DrawBounds(before, order, feedstockNeeded);
          DrawExact(before, order, feedstockNeeded);
        }
      } else {
        loggedError := true;
      }
    }

    /** Start a replication cycle, if a meal could be dispensed now. */
    method Replicate(tanks: array<real>)
      requires Valid()
      modifies this
      ensures Valid()
      ensures hasReplimatTanks <==> tanks.Length > 0
      ensures hasEnoughFeedstock <==> Sum(tanks[..]) >= ProbeAmount
      ensures replicatingTicks == if powerOn && tanks.Length > 0 && Sum(tanks[..]) >= ProbeAmount
                                  then CollectDuration
                                  else old(replicatingTicks)
      ensures powerOn == old(powerOn) && powerOutput == old(powerOutput)
      ensures selectedFood == old(selectedFood)
    {
      var can := CanDispenseNow(tanks);
      if !can {
        return;
      }
      replicatingTicks := CollectDuration;
      CheckFeedstockAvailability(tanks, ProbeAmount);
    }

    /** Make a meal if the terminal can dispense now: pick a meal def, draw its
        feedstock volume from the tanks, and hand the meal out. */
    method TryDispenseFood(tanks: array<real>, order: seq<nat>) returns (r: DispenseResult)
      requires NonNegative(tanks[..])
      requires IsPermutation(order, tanks.Length)
      modifies this, tanks
      ensures NonNegative(tanks[..])
      ensures hasReplimatTanks <==> tanks.Length > 0
      ensures hasEnoughFeedstock <==> Sum(old(tanks[..])) >= ProbeAmount
      ensures r.Unavailable? <==> !(powerOn && tanks.Length > 0 && Sum(old(tanks[..])) >= ProbeAmount)
      ensures r.Unavailable? ==> selectedFood == old(selectedFood)
      ensures r.NoEligibleMeal? <==> !r.Unavailable? && Candidates() == {}
      ensures r.NoEligibleMeal? ==> selectedFood == None
      ensures !r.Produced? ==> tanks[..] == old(tanks[..])
      ensures r.Produced? ==> r.meal in Candidates() && selectedFood == Some(r.meal)
      ensures r.Produced? ==>
                var volume := massToVolume(r.meal.baseMass);
                && (forall i :: 0 <= i < tanks.Length ==> tanks[i] <= old(tanks[i]))
                && tanks[..] == (if Sum(old(tanks[..])) >= volume
                                 then DrawInOrder(old(tanks[..]), order, volume)
                                 else old(tanks[..]))
                && Sum(tanks[..]) == (if Sum(old(tanks[..])) >= volume
                                      then Sum(old(tanks[..])) - DrawTarget(volume)
                                      else Sum(old(tanks[..])))
      ensures powerOn == old(powerOn) && powerOutput == old(powerOutput)
      ensures replicatingTicks == old(replicatingTicks)
    {
      var can := CanDispenseNow(tanks);
      if !can {
        return Unavailable;
      }
      ChooseMeal();
      if selectedFood.None? {
        return NoEligibleMeal;
      }
      var dispensedMeal := selectedFood.value;
      var volume := massToVolume(dispensedMeal.baseMass);
      var _ := ConsumeFeedstock(tanks, order, volume);
      r := Produced(dispensedMeal);
    }

    /** `TryDispenseFood` with the feedstock check made for the volume of the
        meal actually picked instead of the one-unit probe. The flags are
        refreshed first, as `CanDispenseNow` does; the gate then asks only for
        power and a connected tank, and a meal is handed out exactly when the
        tanks cover its volume, which is then drawn in full. */
    method TryDispenseFoodChecked(tanks: array<real>, order: seq<nat>) returns (r: DispenseResult)
      requires NonNegative(tanks[..])
      requires IsPermutation(order, tanks.Length)
      modifies this, tanks
      ensures NonNegative(tanks[..])
      ensures !(powerOn && tanks.Length > 0) ==> r.Unavailable?
      ensures hasReplimatTanks <==> tanks.Length > 0
      ensures !(powerOn && tanks.Length > 0) || Candidates() == {} ==>
                (hasEnoughFeedstock <==> Sum(old(tanks[..])) >= ProbeAmount)
      ensures !(powerOn && tanks.Length > 0) ==> selectedFood == old(selectedFood)
      ensures r.NoEligibleMeal? ==> selectedFood == None
      ensures powerOn && tanks.Length > 0 && Candidates() != {} ==>
                selectedFood.Some? &&
                (hasEnoughFeedstock <==> Sum(old(tanks[..])) >= massToVolume(selectedFood.value.baseMass))
      ensures r.NoEligibleMeal? <==> powerOn && tanks.Length > 0 && Candidates() == {}
      ensures !r.Produced? ==> tanks[..] == old(tanks[..])
      ensures powerOn && tanks.Length > 0 && Candidates() != {} ==>
                selectedFood.Some? && selectedFood.value in Candidates()
      ensures r.Unavailable? <==>
                || !(powerOn && tanks.Length > 0)
                || (&& Candidates() != {} && selectedFood.Some?
                    && Sum(old(tanks[..])) < massToVolume(selectedFood.value.baseMass))
      ensures r.Produced? ==>
                var volume := massToVolume(r.meal.baseMass);
                && r.meal in Candidates() && selectedFood == Some(r.meal)
                && Sum(old(tanks[..])) >= volume
                && hasReplimatTanks && hasEnoughFeedstock
                && tanks[..] == DrawInOrder(old(tanks[..]), order, volume)
                && Sum(tanks[..]) == Sum(old(tanks[..])) - DrawTarget(volume)
      ensures powerOn == old(powerOn) && powerOutput == old(powerOutput)
      ensures replicatingTicks == old(replicatingTicks)
    {
      CheckFeedstockAvailability(tanks, ProbeAmount);
      if !(powerOn && hasReplimatTanks) {
        return Unavailable;
      }
      ChooseMeal();
      if selectedFood.None? {
        return NoEligibleMeal;
      }
      var dispensedMeal := selectedFood.value;
      var volume := massToVolume(dispensedMeal.baseMass);
      CheckFeedstockAvailability(tanks, volume);
      if !hasEnoughFeedstock {
        return Unavailable;
      }
      var _ := ConsumeFeedstock(tanks, order, volume);
      r := Produced(dispensedMeal);
    }

    /** Per-tick update: count the cycle down and draw replicating power while it
        runs, idle power otherwise. */
    method Tick()
      requires Valid()
      modifies this`replicatingTicks, this`powerOutput
      ensures Valid()
      ensures replicatingTicks == CountdownStep(old(replicatingTicks))
      ensures old(replicatingTicks) > 0 ==> replicatingTicks == old(replicatingTicks) - 1
      ensures old(replicatingTicks) == 0 ==> replicatingTicks == 0
      ensures powerOutput == if old(replicatingTicks) > 0 then -ReplicatingPower else -IdlePower
    {
      powerOutput := -IdlePower;
      if replicatingTicks > 0 {
        replicatingTicks := replicatingTicks - 1;
        powerOutput := -ReplicatingPower;
      }
    }

    /** The inspect text: the host's text, followed on a new line by an advisory
        when no tank is connected or when the connected tanks hold too little. */
    function GetInspectString(hostText: string): (r: string)
      reads this
      ensures |r| >= |hostText| && r[..|hostText|] == hostText
      ensures r[|hostText|..] == "\n" + NoTanksMessage <==> !hasReplimatTanks
      ensures r[|hostText|..] == "\n" + InsufficientMessage <==> hasReplimatTanks && !hasEnoughFeedstock
      ensures r == hostText <==> hasReplimatTanks && hasEnoughFeedstock
    {
      var text := if !hasReplimatTanks then hostText + "\n" + NoTanksMessage else hostText;
      if hasReplimatTanks && !hasEnoughFeedstock then text + "\n" + InsufficientMessage else text
    }
  }
}
