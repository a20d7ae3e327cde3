/** The Visitor pattern: tradespeople visit every room of a residence and each prices the
    rooms by kind. Prices are decimals in the source; here they are whole tenths. */
module Visitor {

  /** The four concrete elements. */
  datatype Room = Bathroom | Bedroom | Kitchen | LivingRoom

  /** The two concrete visitors. */
  datatype Trade = Plumber | Maid

  /** The cost a visitor starts from: the plumber's call-out fee of 100.0; the maid has none. */
  function BasePrice(trade: Trade): (r: int)
    ensures r >= 0
    ensures r > 0 <==> trade == Plumber
  {
    match trade
    case Plumber => 1000
    case Maid => 0
  }

  /** The rooms a trade does work in: the plumber bathrooms and kitchens, the maid bathrooms
      and bedrooms. */
  function Serviced(trade: Trade): set<Room>
  {
    match trade
    case Plumber => {Bathroom, Kitchen}
    case Maid => {Bathroom, Bedroom}
  }

  /** What each visitor charges for one room: the plumber 12.7 per bathroom and 15.3 per
      kitchen, the maid 62.5 per bathroom and 54.8 per bedroom; other rooms cost nothing. */
  function Price(trade: Trade, room: Room): (r: int)
    ensures r >= 0
    ensures r > 0 <==> room in Serviced(trade)
  {
    match (trade, room)
    case (Plumber, Bathroom) => 127
    case (Plumber, Kitchen) => 153
    case (Maid, Bathroom) => 625
    case (Maid, Bedroom) => 548
    case _ => 0
  }

  /** The price of a list of rooms, room by room. */
  function TotalPrice(trade: Trade, rooms: seq<Room>): int
  {
    if rooms == [] then 0 else TotalPrice(trade, rooms[..|rooms| - 1]) + Price(trade, rooms[|rooms| - 1])
  }

  /** The same price counted by kind of room: the order of the rooms does not matter. */
  function PriceByCounts(trade: Trade, rooms: multiset<Room>): int
  {
    rooms[Bathroom] * Price(trade, Bathroom) + rooms[Bedroom] * Price(trade, Bedroom)
    + rooms[Kitchen] * Price(trade, Kitchen) + rooms[LivingRoom] * Price(trade, LivingRoom)
  }

  lemma {:induction false} TotalIsPriceByCounts(trade: Trade, rooms: seq<Room>)
    ensures TotalPrice(trade, rooms) == PriceByCounts(trade, multiset(rooms))
  {
    if rooms != [] {
      var init, last := rooms[..|rooms| - 1], rooms[|rooms| - 1];
      assert rooms == init + [last];
      TotalIsPriceByCounts(trade, init);
      assert multiset(rooms) == multiset(init) + multiset{last};
    }
  }

  /** Two residences with the same rooms, in any order, cost the same. */
  lemma TotalIndependentOfOrder(trade: Trade, a: seq<Room>, b: seq<Room>)
    requires multiset(a) == multiset(b)
    ensures TotalPrice(trade, a) == TotalPrice(trade, b)
  {
    TotalIsPriceByCounts(trade, a);
    TotalIsPriceByCounts(trade, b);
  }

  /** No room has a negative price, so a visitor's cost never goes down. */
  lemma {:induction false} TotalNonNegative(trade: Trade, rooms: seq<Room>)
    ensures TotalPrice(trade, rooms) >= 0
  {
    if rooms != [] {
      TotalNonNegative(trade, rooms[..|rooms| - 1]);
    }
  }

  /** A visitor accumulating its service cost; `visited` records the rooms it has been shown. */
  class ResidenceVisitor {
    const trade: Trade
    var serviceCost: int
    ghost var visited: seq<Room>

    constructor (trade: Trade)
      ensures this.trade == trade && serviceCost == BasePrice(trade) && visited == []
    {
      this.trade := trade;
      serviceCost := BasePrice(trade);
      visited := [];
    }

    /** Adds this visitor's price for the room. */
    method Visit(room: Room)
      modifies this
      ensures serviceCost == old(serviceCost) + Price(trade, room)
      ensures visited == old(visited) + [room]
    {
      serviceCost := serviceCost + Price(trade, room);
      visited := visited + [room];
    }
  }

  /** The object structure: a list of rooms. */
  class Residence {
    var rooms: seq<Room>

    constructor (rooms: seq<Room>)
      ensures this.rooms == rooms
    {
      this.rooms := rooms;
    }

    method Add(room: Room)
      modifies this
      ensures rooms == old(rooms) + [room]
    {
      rooms := rooms + [room];
    }

    /** Lets the visitor visit every room once, in order; it ends up charging the price of all
        the rooms on top of what it had, which is never less. */
    method Accept(visitor: ResidenceVisitor)
      modifies visitor
      ensures visitor.visited == old(visitor.visited) + rooms
      ensures visitor.serviceCost == old(visitor.serviceCost) + TotalPrice(visitor.trade, rooms)
      ensures visitor.serviceCost >= old(visitor.serviceCost)
    {
      for i := 0 to |rooms|
        invariant visitor.visited == old(visitor.visited) + rooms[..i]
        invariant visitor.serviceCost == old(visitor.serviceCost) + TotalPrice(visitor.trade, rooms[..i])
      {
        assert rooms[..i + 1][..i] == rooms[..i];
        visitor.Visit(rooms[i]);
      }
      assert rooms[..|rooms|] == rooms;
      TotalNonNegative(visitor.trade, rooms);
    }
  }

  const Apartment: seq<Room> := [Bathroom, Bedroom, Kitchen]
  const House: seq<Room> := [Bathroom, Bathroom, Bedroom, Bedroom, Bedroom, Kitchen, LivingRoom]

  /** The prices of the example: the apartment costs 117.3 with the maid and 128.0 with the
      plumber, the house 289.4 and 140.7. */
  lemma ExamplePrices()
    ensures BasePrice(Maid) + TotalPrice(Maid, Apartment) == 1173
    ensures BasePrice(Plumber) + TotalPrice(Plumber, Apartment) == 1280
    ensures BasePrice(Maid) + TotalPrice(Maid, House) == 2894
    ensures BasePrice(Plumber) + TotalPrice(Plumber, House) == 1407
  {
    ExampleRoomCounts();
    TotalIsPriceByCounts(Maid, Apartment);
    TotalIsPriceByCounts(Plumber, Apartment);
    TotalIsPriceByCounts(Maid, House);
    TotalIsPriceByCounts(Plumber, House);
  }

  /** The apartment has a bathroom, a bedroom and a kitchen; the house two bathrooms, three
      bedrooms, a kitchen and a living room. */
  lemma ExampleRoomCounts()
    ensures multiset(Apartment)[Bathroom] == 1 && multiset(Apartment)[Bedroom] == 1
    ensures multiset(Apartment)[Kitchen] == 1 && multiset(Apartment)[LivingRoom] == 0
    ensures multiset(House)[Bathroom] == 2 && multiset(House)[Bedroom] == 3
    ensures multiset(House)[Kitchen] == 1 && multiset(House)[LivingRoom] == 1
  {
    assert multiset(Apartment) == multiset{Bathroom, Bedroom, Kitchen};
    assert multiset(House) == multiset{Bathroom, Bathroom, Bedroom, Bedroom, Bedroom, Kitchen, LivingRoom};
  }

  /** The example scenario: an apartment and a house, each priced by a maid and a plumber. */
  method PricingScenario()
  {
    ExamplePrices();
    var apartment := new Residence(Apartment);
    var apartmentMaid := new ResidenceVisitor(Maid);
    apartment.Accept(apartmentMaid);
    assert apartmentMaid.serviceCost == 1173;
    var apartmentPlumber := new ResidenceVisitor(Plumber);
    apartment.Accept(apartmentPlumber);
    assert apartmentPlumber.serviceCost == 1280;

    var house := new Residence(House);
    var houseMaid := new ResidenceVisitor(Maid);
    house.Accept(houseMaid);
    assert houseMaid.serviceCost == 2894;
    var housePlumber := new ResidenceVisitor(Plumber);
    house.Accept(housePlumber);
    assert housePlumber.serviceCost == 1407;
  }
}
