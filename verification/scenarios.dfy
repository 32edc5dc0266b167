/** Worked scenarios of the terminal: one connected tank and one allowed lavish
    meal of half a kilogram. */
module Scenarios {
  import opened Feedstock
  import opened Replimat

  /** The lavish meal of the scenarios: half a kilogram. */
  const Lavish: MealDef := MealDef("MealLavish", MealLavish, 0.5)

  /** A powered terminal allowing only `Lavish`, converting `litresPerKg` units of
      feedstock per kilogram, and one tank holding `stock`. */
  method NewTerminal(stock: real, litresPerKg: real) returns (t: ReplimatTerminal, tanks: array<real>)
    ensures fresh(t) && fresh(tanks)
    ensures t.Valid() && t.powerOn && t.allowedMeals == {Lavish}
    ensures t.maxPreferability == MealLavish
    ensures t.Candidates() == {Lavish}
    ensures t.massToVolume(Lavish.baseMass) == litresPerKg * 0.5
    ensures tanks[..] == [stock]
  {
    t := new ReplimatTerminal(true, {Lavish}, mass => litresPerKg * mass,
                              MealDef("MealNutrientPaste", MealAwful, 0.3));
    tanks := new real[1];
    tanks[0] := stock;
  }

  /** The terminal as written, one tank of 5.0 and a meal of 3.0: the second
      request passes the one-unit probe (2.0 units left), so a meal is handed out
      although its 3.0 units are not there and nothing is drawn. */
  method ProbeMissesShortfall() returns (first: DispenseResult, second: DispenseResult, left: real)
    ensures first == Produced(Lavish)
    ensures second == Produced(Lavish)
    ensures left == 2.0
  {
    var t, tanks := NewTerminal(5.0, 6.0);
    first := t.TryDispenseFood(tanks, [0]);
    assert tanks[..] == [2.0];
    second := t.TryDispenseFood(tanks, [0]);
    left := tanks[0];
  }

  /** With the check made for the picked meal's volume, the second request is
      refused and the 2.0 units stay in the tank. */
  method CheckedRefusesShortfall() returns (first: DispenseResult, second: DispenseResult, left: real)
    ensures first == Produced(Lavish)
    ensures second == Unavailable
    ensures left == 2.0
  {
    var t, tanks := NewTerminal(5.0, 6.0);
    first := t.TryDispenseFoodChecked(tanks, [0]);
    assert tanks[..] == [2.0];
    second := t.TryDispenseFoodChecked(tanks, [0]);
    left := tanks[0];
  }

  /** One tank of 0.7 and a meal of 0.5: as written, the one-unit probe refuses a
      meal the tank covers; with the check made for the meal's volume it is
      served and 0.2 units remain. */
  method ProbeRefusesSmallMeal() returns (asWritten: DispenseResult, checked: DispenseResult, left: real)
    ensures asWritten == Unavailable
    ensures checked == Produced(Lavish)
    ensures left == 0.2
  {
    var t, tanks := NewTerminal(0.7, 1.0);
    asWritten := t.TryDispenseFood(tanks, [0]);
    var t', tanks' := NewTerminal(0.7, 1.0);
    checked := t'.TryDispenseFoodChecked(tanks', [0]);
    assert tanks'[..] == [0.2];
    left := tanks'[0];
  }

  /** With no tank connected the terminal cannot dispense, powered or not, and the
      inspect text asks for a tank. */
  method NoTankScenario(powered: bool) returns (can: bool, text: string)
    ensures !can
    ensures text == "\n" + NoTanksMessage
  {
    var t := new ReplimatTerminal(powered, {Lavish}, mass => 6.0 * mass, Lavish);
    var tanks := new real[0];
    can := t.CanDispenseNow(tanks);
    text := t.GetInspectString("");
  }
}
