/**
 * The two fuel gauges of the game: the spacecraft's `FuelManager`
 * (src/components/spacecraft/fuelManager.js), whose capacity is a field, and
 * the older `FuelManager` (src/components/fuelManager.js), whose refuel limit
 * is the literal 1000.  Both burn `consumptionRate * amount` per call, never
 * going below empty.  Quantities are exact reals.
 */
module Fuel {

  /** `Math.max(fuel - consumptionRate * amount, 0)`. */
  function AfterConsume(fuel: real, consumptionRate: real, amount: real): (r: real)
    ensures r >= 0.0
    ensures r > 0.0 <==> fuel > consumptionRate * amount
    ensures r == fuel - consumptionRate * amount || (r == 0.0 && fuel <= consumptionRate * amount)
  {
    if fuel - consumptionRate * amount > 0.0 then fuel - consumptionRate * amount else 0.0
  }

  /** `Math.min(fuel + amount, limit)`. */
  function AfterRefuel(fuel: real, amount: real, limit: real): (r: real)
    ensures r <= limit
    ensures r == fuel + amount || (r == limit && fuel + amount >= limit)
  {
    if fuel + amount < limit then fuel + amount else limit
  }

  /** Two burns at a non-negative rate cost the same as one burn of their sum. */
  lemma ConsumeTwice(fuel: real, consumptionRate: real, a: real, b: real)
    requires consumptionRate >= 0.0 && b >= 0.0
    ensures AfterConsume(AfterConsume(fuel, consumptionRate, a), consumptionRate, b)
         == AfterConsume(fuel, consumptionRate, a + b)
  {
    assert consumptionRate * (a + b) == consumptionRate * a + consumptionRate * b;
    assert consumptionRate * b >= 0.0 by {
      ZeroLeProduct(consumptionRate, b);
    }
  }

  lemma ZeroLeProduct(x: real, y: real)
    requires x >= 0.0 && y >= 0.0
    ensures x * y >= 0.0
  {
  }

  /** Two non-negative refuels fill as far as one refuel of their sum. */
  lemma RefuelTwice(fuel: real, a: real, b: real, limit: real)
    requires b >= 0.0
    ensures AfterRefuel(AfterRefuel(fuel, a, limit), b, limit) == AfterRefuel(fuel, a + b, limit)
  {
  }

  /** A gauge within [0, limit] stays there under both operations, given a non-negative refuel. */
  lemma GaugeStaysInRange(fuel: real, consumptionRate: real, amount: real, limit: real)
    requires 0.0 <= fuel <= limit
    requires consumptionRate >= 0.0 && amount >= 0.0
    ensures 0.0 <= AfterConsume(fuel, consumptionRate, amount) <= fuel
    ensures 0.0 <= AfterRefuel(fuel, amount, limit) <= limit
    ensures fuel <= AfterRefuel(fuel, amount, limit)
  {
    ZeroLeProduct(consumptionRate, amount);
  }
}

/** The spacecraft's gauge, src/components/spacecraft/fuelManager.js. */
module SpacecraftFuel {
  import opened Fuel

  class FuelManager {
    const capacity: real
    var fuel: real
    const consumptionRate: real

    /** The source's defaults are 1000, 1000 and 0.001. */
    constructor(capacity: real, initialFuel: real, consumptionRate: real)
      ensures this.capacity == capacity && fuel == initialFuel && this.consumptionRate == consumptionRate
    {
      this.capacity := capacity;
      fuel := initialFuel;
      this.consumptionRate := consumptionRate;
    }

    /** Burns `consumptionRate * amount`, stopping at empty; reports whether fuel is left. */
    method ConsumeFuel(amount: real) returns (hasFuel: bool)
      modifies this
      ensures fuel == AfterConsume(old(fuel), consumptionRate, amount)
      ensures fuel >= 0.0
      ensures hasFuel <==> fuel > 0.0
    {
      var fuelConsumed := consumptionRate * amount;
      fuel := if fuel - fuelConsumed > 0.0 then fuel - fuelConsumed else 0.0;
      return fuel > 0.0;
    }

    /** Adds `amount`, then cuts the level back to `capacity`. */
    method Refuel(amount: real)
      modifies this
      ensures fuel == AfterRefuel(old(fuel), amount, capacity)
      ensures fuel <= capacity
    {
      fuel := fuel + amount;
      fuel := if fuel < capacity then fuel else capacity;
    }

    method GetFuelLevel() returns (level: real)
      ensures level == fuel
    {
      return fuel;
    }
  }
}

/** The older gauge, src/components/fuelManager.js: refuelling stops at 1000. */
module LegacyFuel {
  import opened Fuel

  const RefuelLimit: real := 1000.0

  class FuelManager {
    var fuel: real
    const consumptionRate: real

    /** The source's defaults are 1000 and 0.001. */
    constructor(initialFuel: real, consumptionRate: real)
      ensures fuel == initialFuel && this.consumptionRate == consumptionRate
    {
      fuel := initialFuel;
      this.consumptionRate := consumptionRate;
    }

    /** Burns `consumptionRate * amount`, stopping at empty; reports whether fuel is left. */
    method ConsumeFuel(amount: real) returns (hasFuel: bool)
      modifies this
      ensures fuel == AfterConsume(old(fuel), consumptionRate, amount)
      ensures fuel >= 0.0
      ensures hasFuel <==> fuel > 0.0
    {
      var fuelConsumed := consumptionRate * amount;
      fuel := if fuel - fuelConsumed > 0.0 then fuel - fuelConsumed else 0.0;
      return fuel > 0.0;
    }

    /** Adds `amount`, then cuts the level back to 1000. */
    method Refuel(amount: real)
      modifies this
      ensures fuel == AfterRefuel(old(fuel), amount, RefuelLimit)
      ensures fuel <= RefuelLimit
    {
      fuel := fuel + amount;
      fuel := if fuel < RefuelLimit then fuel else RefuelLimit;
    }

    method GetFuelLevel() returns (level: real)
      ensures level == fuel
    {
      return fuel;
    }
  }
}
