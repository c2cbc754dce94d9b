/** The vehicles of lesson_1/my_car.rb: a class-wide counter of the
    vehicles built, and a speed that `speed_up` and `brake` change. */
module Vehicles {
  import opened Util
  import opened RubyString

  const CREATED_PREFIX: string := "This program has created "
  const MILEAGE_PREFIX: string := "Mileage: "

  /** `self.number_of_vehicles` for a given count. */
  function VehiclesMessage(count: int): string {
    CREATED_PREFIX + IntToString(count) + " vehicles."
  }

  /** A number between a prefix and a suffix that cannot continue it
      reads back with `to_i`. */
  lemma {:induction false} NumberReadsBack(prefix: string, n: int, suffix: string)
    requires EndsNumberAfter(n, suffix)
    ensures ToI((prefix + IntToString(n) + suffix)[|prefix|..]) == n
  {
    assert (prefix + IntToString(n) + suffix)[|prefix|..] == IntToString(n) + suffix;
    ToIPrefix(n, suffix);
  }

  /** The count can be read back from the message. */
  lemma VehiclesMessageReadsBack(count: int)
    ensures ToI(VehiclesMessage(count)[|CREATED_PREFIX|..]) == count
  {
    assert EndsNumberAfter(count, " vehicles.");
    NumberReadsBack(CREATED_PREFIX, count, " vehicles.");
  }

  /** `self.calculate_mileage(miles, gallons)` for integers: Ruby's
      floored division, which raises ZeroDivisionError, None here, for
      zero gallons. */
  function CalculateMileage(miles: int, gallons: int): (r: Option<string>)
    ensures r.Some? <==> gallons != 0
  {
    if gallons == 0 then None
    else Some(MILEAGE_PREFIX + IntToString(FloorDiv(miles, gallons)) + " per gallon.")
  }

  /** The number in the mileage message is the floored quotient: the
      largest whole number of miles per gallon not above the true
      ratio. */
  lemma MileageReadsBack(miles: int, gallons: int)
    requires gallons != 0
    ensures var m := CalculateMileage(miles, gallons).value;
      var q := ToI(m[|MILEAGE_PREFIX|..]);
      && q == FloorDiv(miles, gallons)
      && (gallons > 0 ==> gallons * q <= miles < gallons * q + gallons)
  {
    assert CalculateMileage(miles, gallons).value
      == MILEAGE_PREFIX + IntToString(FloorDiv(miles, gallons)) + " per gallon.";
    assert EndsNumberAfter(FloorDiv(miles, gallons), " per gallon.");
    NumberReadsBack(MILEAGE_PREFIX, FloorDiv(miles, gallons), " per gallon.");
  }

  /** The file's own call: 13 miles on 351 gallons is 0 per gallon. */
  lemma SmallMileage()
    ensures CalculateMileage(13, 351) == Some("Mileage: 0 per gallon.")
  {
    assert FloorDiv(13, 351) == 0;
    assert IntToString(0) == "0";
    assert MILEAGE_PREFIX + "0" + " per gallon." == "Mileage: 0 per gallon.";
  }

  const CAR_PREFIX: string := "I'm a car. I'm a "

  /** `MyCar#to_s` for a car of the given year, model and color. */
  function CarDescription(year: int, model: string, color: string): string {
    CAR_PREFIX + IntToString(year) + " " + model + " and I'm currently painted " + color + "."
  }

  /** The year can be read back from the description, whatever the model
      and color. */
  lemma CarDescriptionReadsBack(year: int, model: string, color: string)
    ensures ToI(CarDescription(year, model, color)[|CAR_PREFIX|..]) == year
  {
    var suffix := " " + model + " and I'm currently painted " + color + ".";
    assert CarDescription(year, model, color) == CAR_PREFIX + IntToString(year) + suffix;
    assert EndsNumberAfter(year, suffix);
    NumberReadsBack(CAR_PREFIX, year, suffix);
  }

  /** `@@number_of_vehicles`, shared by every vehicle: the vehicles built
      so far and their number. */
  class VehicleRegistry {
    var numberOfVehicles: int
    ghost var built: set<object>

    ghost predicate Valid()
      reads this
    {
      numberOfVehicles == |built|
    }

    /** The counter starts at 0 when the class is loaded. */
    constructor ()
      ensures Valid() && numberOfVehicles == 0 && built == {}
    {
      numberOfVehicles := 0;
      built := {};
    }

    /** `self.number_of_vehicles` */
    function NumberOfVehicles(): string
      reads this
    {
      VehiclesMessage(numberOfVehicles)
    }
  }

  class Vehicle {
    const registry: VehicleRegistry
    const year: int
    const model: string
    var color: string
    var currentSpeed: int

    /** `initialize(year, color, model)`: speed 0, and one more vehicle
        counted. */
    constructor (registry: VehicleRegistry, year: int, color: string, model: string)
      requires registry.Valid()
      modifies registry
      ensures registry.Valid()
      ensures registry.built == old(registry.built) + {this}
      ensures registry.numberOfVehicles == old(registry.numberOfVehicles) + 1
      ensures this.registry == registry && this.year == year && this.color == color && this.model == model
      ensures currentSpeed == 0
    {
      this.registry := registry;
      this.year := year;
      this.color := color;
      this.model := model;
      currentSpeed := 0;
      new;
      registry.built := registry.built + {this};
      registry.numberOfVehicles := registry.numberOfVehicles + 1;
    }

    /** `speed_up(number)`: the speed goes up by `number`, without a
        bound. */
    method SpeedUp(number: int)
      modifies this`currentSpeed
      ensures currentSpeed == old(currentSpeed) + number
    {
      currentSpeed := currentSpeed + number;
    }

    /** `brake(number)`: the speed goes down by `number`, and may go below
        zero. */
    method Brake(number: int)
      modifies this`currentSpeed
      ensures currentSpeed == old(currentSpeed) - number
    {
      currentSpeed := currentSpeed - number;
    }

    /** `spray_paint(new_color)`: only the color changes. */
    method SprayPaint(newColor: string)
      modifies this`color
      ensures color == newColor
    {
      color := newColor;
    }

    /** `to_s` of a MyCar. */
    function ToS(): string
      reads this
    {
      CarDescription(year, model, color)
    }

    /** `calculate_age` with the current year, which `Time.new` supplies,
        as a parameter. */
    function CalculateAge(currentYear: int): int {
      currentYear - year
    }
  }

  /** The file's run: the speeds after each `speed_up` and `brake`, the
      mileage message, and the new color. Braking as much as was gained
      brings the car back to a standstill. */
  method Stella(registry: VehicleRegistry) returns (speeds: seq<int>, mileage: Option<string>, stella: Vehicle)
    requires registry.Valid()
    modifies registry
    ensures registry.Valid() && registry.numberOfVehicles == old(registry.numberOfVehicles) + 1
    ensures speeds == [20, 50, 30, 0] && stella.currentSpeed == 0
    ensures mileage == Some("Mileage: 0 per gallon.")
    ensures stella.year == 2002 && stella.model == "CR-V" && stella.color == "purple"
    ensures stella.ToS() == CarDescription(2002, "CR-V", "purple")
  {
    stella := new Vehicle(registry, 2002, "black", "CR-V");
    stella.SpeedUp(20);
    speeds := [stella.currentSpeed];
    stella.SpeedUp(30);
    speeds := speeds + [stella.currentSpeed];
    stella.Brake(20);
    speeds := speeds + [stella.currentSpeed];
    stella.Brake(30);
    speeds := speeds + [stella.currentSpeed];
    SmallMileage();
    mileage := CalculateMileage(13, 351);
    stella.SprayPaint("purple");
  }
}
