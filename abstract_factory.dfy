/** The Abstract Factory pattern: a vehicle factory makes a matching family of products
    (a car and a truck of one make), and a dealer is stocked from one factory. */
module AbstractFactory {

  /** The two concrete factories. */
  datatype VehicleFactory = FordVehicleFactory | VolvoVehicleFactory

  datatype Car = FordCar | VolvoCar
  {
    /** Each car reports the make of the family it belongs to. */
    function GetMake(): (r: string)
      ensures r == "Ford" <==> this == FordCar
      ensures r == "Volvo" <==> this == VolvoCar
    {
      match this
      case FordCar => "Ford"
      case VolvoCar => "Volvo"
    }
  }

  datatype Truck = FordTruck | VolvoTruck
  {
    /** Each truck reports the make of the family it belongs to. */
    function GetMake(): (r: string)
      ensures r == "Ford" <==> this == FordTruck
      ensures r == "Volvo" <==> this == VolvoTruck
    {
      match this
      case FordTruck => "Ford"
      case VolvoTruck => "Volvo"
    }
  }

  function MakeOf(factory: VehicleFactory): string
  {
    match factory
    case FordVehicleFactory => "Ford"
    case VolvoVehicleFactory => "Volvo"
  }

  function CreateCar(factory: VehicleFactory): (car: Car)
    ensures car.GetMake() == MakeOf(factory)
  {
    match factory
    case FordVehicleFactory => FordCar
    case VolvoVehicleFactory => VolvoCar
  }

  function CreateTruck(factory: VehicleFactory): (truck: Truck)
    ensures truck.GetMake() == MakeOf(factory)
  {
    match factory
    case FordVehicleFactory => FordTruck
    case VolvoVehicleFactory => VolvoTruck
  }

  /** The client: a car and a truck, both from the factory it was given. */
  datatype CarDealer = CarDealer(car: Car, truck: Truck)

  function NewCarDealer(factory: VehicleFactory): (dealer: CarDealer)
    ensures dealer.car.GetMake() == dealer.truck.GetMake() == MakeOf(factory)
  {
    CarDealer(CreateCar(factory), CreateTruck(factory))
  }

  /** Different factories make different families: no product is shared. */
  lemma FamiliesDiffer(f1: VehicleFactory, f2: VehicleFactory)
    requires f1 != f2
    ensures CreateCar(f1) != CreateCar(f2) && CreateTruck(f1) != CreateTruck(f2)
  {
  }

  /** The example scenario: a Volvo dealer sells Volvos, a Ford dealer Fords. */
  lemma DealerScenario()
    ensures NewCarDealer(VolvoVehicleFactory).car.GetMake() == "Volvo"
    ensures NewCarDealer(VolvoVehicleFactory).truck.GetMake() == "Volvo"
    ensures NewCarDealer(FordVehicleFactory).car.GetMake() == "Ford"
    ensures NewCarDealer(FordVehicleFactory).truck.GetMake() == "Ford"
  {
  }
}
