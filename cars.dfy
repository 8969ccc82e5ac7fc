/** The car classes: a base car with an engine and a speed, a manual car
    that adds a gear, and an electric car that adds a battery drained by
    accelerating and recharged by braking. A subclass holds its base car
    and delegates to it where the source calls `super()`. */
module Cars {
  import opened Common

  /** What a car's operations read and change. */
  datatype CarState = CarState(engineOn: bool, speed: int)

  const SpeedLimit: int := 300
  const AccelerationStep: int := 20
  const BrakeStep: int := 10

  /** `accelerare`: nothing happens with the engine off. */
  function Accelerated(c: CarState): (r: CarState)
    ensures r.engineOn == c.engineOn
    ensures r.speed - c.speed == (if c.engineOn then AccelerationStep else 0)
  {
    if c.engineOn then c.(speed := c.speed + AccelerationStep) else c
  }

  /** `applyBreak`: ten less, but never below zero. */
  function Braked(c: CarState): (r: CarState)
    ensures r.engineOn == c.engineOn
    ensures r.speed >= 0
    ensures r.speed <= c.speed || c.speed < 0
    ensures r.speed == 0 || r.speed == c.speed - BrakeStep
  {
    c.(speed := if c.speed - BrakeStep > 0 then c.speed - BrakeStep else 0)
  }

  /** The `speed` setter: a value outside 0..300 raises and leaves the car
      as it was. */
  function SpeedSet(c: CarState, value: int): (r: Result<CarState, string>)
    ensures r.Success? <==> 0 <= value <= SpeedLimit
    ensures r.Success? ==> r.value == c.(speed := value)
    ensures value < 0 ==> r == Failure("Speed cannot be negative")
    ensures value > SpeedLimit ==> r == Failure("Speed limit exceeded")
  {
    if value < 0 then Failure("Speed cannot be negative")
    else if value > SpeedLimit then Failure("Speed limit exceeded")
    else Success(c.(speed := value))
  }

  /** `engine_status`. */
  function EngineStatus(c: CarState): (s: string)
    ensures s == "ON" <==> c.engineOn
    ensures s == "OFF" <==> !c.engineOn
  {
    if c.engineOn then "ON" else "OFF"
  }

  function AccelerateTimes(c: CarState, n: nat): CarState
  {
    if n == 0 then c else Accelerated(AccelerateTimes(c, n - 1))
  }

  function BrakeTimes(c: CarState, n: nat): CarState
  {
    if n == 0 then c else Braked(BrakeTimes(c, n - 1))
  }

  /** With the engine on, `n` accelerations add exactly `20 * n`; with it
      off they add nothing. */
  lemma {:induction false} AccelerateTimesAdds(c: CarState, n: nat)
    ensures AccelerateTimes(c, n).engineOn == c.engineOn
    ensures AccelerateTimes(c, n).speed == c.speed + (if c.engineOn then AccelerationStep * n else 0)
  {
    if n > 0 {
      AccelerateTimesAdds(c, n - 1);
    }
  }

  /** From a non-negative speed, `n` brakes leave `max(0, speed - 10 * n)`. */
  lemma {:induction false} BrakeTimesSubtracts(c: CarState, n: nat)
    requires c.speed >= 0
    ensures BrakeTimes(c, n).speed == if c.speed - BrakeStep * n > 0 then c.speed - BrakeStep * n else 0
  {
    if n > 0 {
      BrakeTimesSubtracts(c, n - 1);
    }
  }

  /** No operation makes a non-negative speed negative. */
  lemma SpeedStaysNonNegative(c: CarState, value: int)
    requires c.speed >= 0
    ensures Accelerated(c).speed >= 0 && Braked(c).speed >= 0
    ensures SpeedSet(c, value).Success? ==> SpeedSet(c, value).value.speed >= 0
  {
  }

  /** `shiftGear`: a gear outside 0..6 is refused. */
  function Shifted(gear: int, requested: int): (r: int)
    ensures 0 <= requested <= 6 ==> r == requested
    ensures !(0 <= requested <= 6) ==> r == gear
  {
    if requested < 0 || requested > 6 then gear else requested
  }

  /** A manual car that starts in gear 0 stays within gears 0..6. */
  lemma ShiftedStaysInRange(gear: int, requested: int)
    requires 0 <= gear <= 6
    ensures 0 <= Shifted(gear, requested) <= 6
  {
  }

  datatype ElectricState = ElectricState(car: CarState, battery: int)

  /** The electric `accelerare`: refused on an empty battery; otherwise the
      base acceleration, then five percent of battery, engine on or off. */
  function ElectricAccelerated(e: ElectricState): (r: ElectricState)
    ensures e.battery <= 0 ==> r == e
    ensures e.battery > 0 ==> r.car == Accelerated(e.car) && r.battery == e.battery - 5
  {
    if e.battery <= 0 then e else ElectricState(Accelerated(e.car), e.battery - 5)
  }

  /** The electric `applyBreak`: the base brake, then two percent recharged,
      up to 100. */
  function ElectricBraked(e: ElectricState): (r: ElectricState)
    ensures r.car == Braked(e.car)
    ensures r.battery == if e.battery + 2 < 100 then e.battery + 2 else 100
  {
    ElectricState(Braked(e.car), if e.battery + 2 < 100 then e.battery + 2 else 100)
  }

  /** The battery a new electric car can reach: at most 100, and above -5,
      since it drains by 5 only from a positive level. */
  predicate BatteryInRange(e: ElectricState)
  {
    -5 < e.battery <= 100
  }

  lemma BatteryStaysInRange(e: ElectricState)
    requires BatteryInRange(e)
    ensures BatteryInRange(ElectricAccelerated(e)) && BatteryInRange(ElectricBraked(e))
  {
  }

  /** The battery can go below zero: twenty accelerations empty it, one brake
      recharges two percent, and the next acceleration leaves -3. */
  lemma BatteryCanGoNegative(c: CarState)
    ensures var empty := ElectricAccelerateTimes(ElectricState(c, 100), 20);
      && empty.battery == 0
      && ElectricAccelerated(empty) == empty
      && ElectricAccelerated(ElectricBraked(empty)).battery == -3
  {
    ElectricDrains(ElectricState(c, 100), 20);
  }

  function ElectricAccelerateTimes(e: ElectricState, n: nat): ElectricState
  {
    if n == 0 then e else ElectricAccelerated(ElectricAccelerateTimes(e, n - 1))
  }

  /** Each accepted acceleration costs five percent, so `n` of them from a
      battery above `5 * (n - 1)` cost `5 * n`. */
  lemma {:induction false} ElectricDrains(e: ElectricState, n: nat)
    requires e.battery >= 5 * n
    ensures ElectricAccelerateTimes(e, n).battery == e.battery - 5 * n
  {
    if n > 0 {
      ElectricDrains(e, n - 1);
    }
  }

  class MyCar {
    const model: string
    const brand: string
    var engineOn: bool
    var speed: int

    function State(): CarState
      reads this
    {
      CarState(engineOn, speed)
    }

    constructor(model: string, brand: string)
      ensures this.model == model && this.brand == brand
      ensures State() == CarState(false, 0)
    {
      this.model := model;
      this.brand := brand;
      engineOn := false;
      speed := 0;
    }

    /** `startEngien`. */
    method StartEngine()
      modifies this
      ensures engineOn && speed == old(speed)
    {
      engineOn := true;
    }

    /** `accelerare`. */
    method Accelerate()
      modifies this
      ensures State() == Accelerated(old(State()))
    {
      if !engineOn {
        return;
      }
      speed := speed + AccelerationStep;
    }

    /** `applyBreak`. */
    method ApplyBrake()
      modifies this
      ensures State() == Braked(old(State()))
    {
      speed := if speed - BrakeStep > 0 then speed - BrakeStep else 0;
    }

    /** The `speed` setter; the error is the `ValueError` message. */
    method SetSpeed(value: int) returns (error: Option<string>)
      modifies this
      ensures SpeedSet(old(State()), value).Success? ==> error.None? && State() == SpeedSet(old(State()), value).value
      ensures SpeedSet(old(State()), value).Failure? ==>
        error == Some(SpeedSet(old(State()), value).error) && State() == old(State())
    {
      if value < 0 {
        return Some("Speed cannot be negative");
      }
      if value > SpeedLimit {
        return Some("Speed limit exceeded");
      }
      speed := value;
      return None;
    }
  }

  class ManualCar {
    const car: MyCar
    var gear: int

    constructor(model: string, brand: string)
      ensures fresh(car) && car.model == model && car.brand == brand
      ensures car.State() == CarState(false, 0) && gear == 0
    {
      car := new MyCar(model, brand);
      gear := 0;
    }

    /** `shiftGear`. */
    method ShiftGear(requested: int)
      modifies this
      ensures gear == Shifted(old(gear), requested)
    {
      if requested < 0 || requested > 6 {
        return;
      }
      gear := requested;
    }
  }

  class ElectricCar {
    const car: MyCar
    var battery: int

    function State(): ElectricState
      reads this, car
    {
      ElectricState(car.State(), battery)
    }

    constructor(model: string, brand: string)
      ensures fresh(car) && car.model == model && car.brand == brand
      ensures State() == ElectricState(CarState(false, 0), 100)
    {
      car := new MyCar(model, brand);
      battery := 100;
    }

    /** The overriding `accelerare`. */
    method Accelerate()
      modifies this, car
      ensures State() == ElectricAccelerated(old(State()))
    {
      if battery <= 0 {
        return;
      }
      car.Accelerate();
      battery := battery - 5;
    }

    /** The overriding `applyBreak`. */
    method ApplyBrake()
      modifies this, car
      ensures State() == ElectricBraked(old(State()))
    {
      car.ApplyBrake();
      battery := if battery + 2 < 100 then battery + 2 else 100;
    }
  }
}
