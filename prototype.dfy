/** The Prototype pattern: a sheep clones itself into a new sheep of its own breed. */
module Prototype {

  /** The two concrete prototypes. */
  datatype Breed = BlackSheep | WhiteSheep

  function HairColorOf(breed: Breed): string
  {
    match breed
    case BlackSheep => "Black"
    case WhiteSheep => "White"
  }

  class Sheep {
    const breed: Breed
    var shaved: bool

    /** Each breed fixes its hair colour. */
    function HairColor(): (r: string)
      ensures r == "Black" <==> breed == BlackSheep
      ensures r == "White" <==> breed == WhiteSheep
    {
      HairColorOf(breed)
    }

    /** A new sheep has its breed's hair colour and is not shaved. */
    constructor (breed: Breed)
      ensures this.breed == breed && HairColor() == HairColorOf(breed) && !shaved
    {
      this.breed := breed;
      shaved := false;
    }

    method Shave()
      modifies this
      ensures shaved
    {
      shaved := true;
    }

    /** A new, unshaved sheep of the same breed; whether this one is shaved is not copied. */
    method Clone() returns (clone: Sheep)
      ensures fresh(clone) && clone.breed == breed && clone.HairColor() == HairColor() && !clone.shaved
    {
      clone := new Sheep(breed);
    }
  }

  /** The example scenario: shaving a clone leaves the original unshaved; the colours agree. */
  method CloningScenario()
  {
    var black := new Sheep(BlackSheep);
    var white := new Sheep(WhiteSheep);
    var sheepCollection := [black, white];
    for i := 0 to |sheepCollection|
    {
      var sheep := sheepCollection[i];
      var clone := sheep.Clone();
      var shavedBefore := sheep.shaved;
      clone.Shave();
      assert sheep.shaved == shavedBefore && clone.shaved;
      assert sheep.HairColor() == clone.HairColor();
    }
  }
}
