/** The Factory Method pattern: a car is created from the name of its make. */
module FactoryMethod {
  import opened Wrappers

  /** The two concrete products. */
  datatype Car = MazdaCar | AudiCar
  {
    /** Each car reports its own make, and no two makes coincide. */
    function GetMake(): (r: string)
      ensures r == "Mazda" <==> this == MazdaCar
      ensures r == "Audi" <==> this == AudiCar
    {
      match this
      case MazdaCar => "Mazda"
      case AudiCar => "Audi"
    }
  }

  /** An unknown make is out of range. */
  datatype FactoryError = MakeOutOfRange(make: string)

  /** Only "Mazda" and "Audi" are known makes; the created car reports the make it was asked for. */
  function CreateCar(make: string): (r: Result<Car, FactoryError>)
    ensures r.Ok? <==> make == "Mazda" || make == "Audi"
    ensures r.Ok? ==> r.value.GetMake() == make
    ensures r.Err? ==> r.error == MakeOutOfRange(make)
  {
    if make == "Mazda" then Ok(MazdaCar)
    else if make == "Audi" then Ok(AudiCar)
    else Err(MakeOutOfRange(make))
  }

  /** Creating a car from the make a car reports gives back that kind of car. */
  lemma CreateFromMake(car: Car)
    ensures CreateCar(car.GetMake()) == Ok(car)
  {
  }

  /** The example scenario: Mazda and Audi are made, Honda is refused. */
  lemma FactoryScenario()
    ensures CreateCar("Mazda").Ok? && CreateCar("Mazda").value.GetMake() == "Mazda"
    ensures CreateCar("Audi").Ok? && CreateCar("Audi").value.GetMake() == "Audi"
    ensures CreateCar("Honda") == Err(MakeOutOfRange("Honda"))
  {
  }
}
