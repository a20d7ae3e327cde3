/** The Builder pattern: a chef (the director) runs a recipe (the builder) step by step
    to assemble a pizza, queues the result, and serves queued pizzas first in, first out. */
module Builder {
  import opened Wrappers

  datatype Sauce = Tomato | Spicy

  datatype Topping = Sausage | Pepperoni | Onion | Cheese | Bacon

  /** The flag value of each topping in the toppings bit set. */
  function Bit(t: Topping): bv32
  {
    match t
    case Sausage => 1
    case Pepperoni => 2
    case Onion => 4
    case Cheese => 8
    case Bacon => 16
  }

  /** The bit set holding the given toppings. */
  function Combine(ts: seq<Topping>): bv32
  {
    if ts == [] then 0 else Bit(ts[0]) | Combine(ts[1..])
  }

  predicate Has(toppings: bv32, t: Topping)
  {
    toppings & Bit(t) != 0
  }

  /** The flags are distinct single bits: a topping's flag only overlaps its own. */
  lemma BitsDistinct(t: Topping, u: Topping)
    ensures Bit(t) & Bit(u) != 0 <==> t == u
  {
  }

  /** A combined set holds exactly the toppings that were combined. */
  lemma {:induction false} CombineHolds(ts: seq<Topping>, t: Topping)
    ensures Has(Combine(ts), t) <==> t in ts
  {
    if ts != [] {
      CombineHolds(ts[1..], t);
      BitsDistinct(ts[0], t);
      MaskUnion(Bit(ts[0]), Combine(ts[1..]), Bit(t));
      assert t in ts <==> t == ts[0] || t in ts[1..];
    }
  }

  /** A mask meets a union of bits exactly when it meets one of them. */
  lemma MaskUnion(x: bv32, y: bv32, mask: bv32)
    ensures (x | y) & mask != 0 <==> x & mask != 0 || y & mask != 0
  {
  }

  /** The product: a sauce and a set of toppings; a new pizza has tomato sauce and none. */
  class Pizza {
    var sauce: Sauce
    var toppings: bv32

    constructor ()
      ensures sauce == Tomato && toppings == 0
    {
      sauce := Tomato;
      toppings := 0;
    }

    method SetSauce(s: Sauce)
      modifies this
      ensures sauce == s && toppings == old(toppings)
    {
      sauce := s;
    }

    method SetToppings(t: bv32)
      modifies this
      ensures toppings == t && sauce == old(sauce)
    {
      toppings := t;
    }
  }

  /** The two concrete builders. */
  datatype RecipeKind = PepperoniRecipe | SpecialRecipe

  function SauceOf(kind: RecipeKind): Sauce
  {
    match kind
    case PepperoniRecipe => Tomato
    case SpecialRecipe => Spicy
  }

  function ToppingsOf(kind: RecipeKind): bv32
  {
    match kind
    case PepperoniRecipe => Combine([Pepperoni, Cheese])
    case SpecialRecipe => Combine([Bacon, Cheese, Onion, Sausage])
  }

  /** The pepperoni pizza has pepperoni and cheese; the special one bacon, cheese, onion
      and sausage. */
  lemma RecipeToppings(t: Topping)
    ensures Has(ToppingsOf(PepperoniRecipe), t) <==> t == Pepperoni || t == Cheese
    ensures Has(ToppingsOf(SpecialRecipe), t) <==> t != Pepperoni
  {
    CombineHolds([Pepperoni, Cheese], t);
    CombineHolds([Bacon, Cheese, Onion, Sausage], t);
  }

  /** The flag values the two recipes store. */
  lemma RecipeFlags()
    ensures ToppingsOf(PepperoniRecipe) == Bit(Pepperoni) | Bit(Cheese) == 10
    ensures ToppingsOf(SpecialRecipe) == Bit(Bacon) | Bit(Cheese) | Bit(Onion) | Bit(Sausage) == 29
  {
    assert Combine([Cheese]) == 8;
    assert Combine([Sausage]) == 1;
    assert Combine([Onion, Sausage]) == 5 by { assert [Onion, Sausage][1..] == [Sausage]; }
    assert Combine([Cheese, Onion, Sausage]) == 13 by { assert [Cheese, Onion, Sausage][1..] == [Onion, Sausage]; }
    assert [Bacon, Cheese, Onion, Sausage][1..] == [Cheese, Onion, Sausage];
    assert [Pepperoni, Cheese][1..] == [Cheese];
  }

  /** A builder: it works on the pizza it last started, if any. */
  class PizzaRecipe {
    const kind: RecipeKind
    var pizza: Pizza?

    constructor (kind: RecipeKind)
      ensures this.kind == kind && pizza == null
    {
      this.kind := kind;
      pizza := null;
    }

    method PrepareNewPizza()
      modifies this
      ensures pizza != null && fresh(pizza) && pizza.sauce == Tomato && pizza.toppings == 0
    {
      pizza := new Pizza();
    }

    /** Without a started pizza this does nothing. */
    method AddSauce()
      modifies pizza
      ensures pizza != null ==> pizza.sauce == SauceOf(kind) && pizza.toppings == old(pizza.toppings)
    {
      if pizza != null {
        pizza.SetSauce(SauceOf(kind));
      }
    }

    /** Without a started pizza this does nothing. */
    method AddToppings()
      modifies pizza
      ensures pizza != null ==> pizza.toppings == ToppingsOf(kind) && pizza.sauce == old(pizza.sauce)
    {
      if pizza != null {
        pizza.SetToppings(ToppingsOf(kind));
      }
    }

    method ServePizza() returns (p: Pizza?)
      ensures p == pizza
    {
      p := pizza;
    }
  }

  /** Constructing without a recipe dereferences nothing; serving from an empty queue fails. */
  datatype ChefError = NoRecipe | EmptyQueue

  /** The director. */
  class PizzaChef {
    var createdPizzas: seq<Pizza>
    var recipe: PizzaRecipe?

    constructor ()
      ensures createdPizzas == [] && recipe == null
    {
      createdPizzas := [];
      recipe := null;
    }

    method SetPizzaRecipe(r: PizzaRecipe?)
      modifies this
      ensures recipe == r && createdPizzas == old(createdPizzas)
    {
      recipe := r;
    }

    /** Runs the recipe's steps in order and queues the new pizza, which carries the
        recipe's sauce and toppings; the pizzas already queued are not touched. */
    method ConstructPizza() returns (r: Outcome<ChefError>)
      modifies this, recipe
      ensures recipe == old(recipe)
      ensures old(recipe) == null ==> r == Fail(NoRecipe) && createdPizzas == old(createdPizzas)
      ensures old(recipe) != null ==>
                && r == Pass
                && |createdPizzas| == |old(createdPizzas)| + 1
                && createdPizzas[..|old(createdPizzas)|] == old(createdPizzas)
                && var p := createdPizzas[|old(createdPizzas)|];
                   fresh(p) && p == recipe.pizza && p.sauce == SauceOf(recipe.kind) && p.toppings == ToppingsOf(recipe.kind)
      ensures forall p | p in old(createdPizzas) :: p.sauce == old(p.sauce) && p.toppings == old(p.toppings)
    {
      if recipe == null {
        return Fail(NoRecipe);
      }
      recipe.PrepareNewPizza();
      recipe.AddSauce();
      recipe.AddToppings();
      var p := recipe.ServePizza();
      createdPizzas := createdPizzas + [p];
      r := Pass;
    }

    /** Hands out the pizza queued longest. */
    method ServePizza() returns (r: Result<Pizza, ChefError>)
      modifies this
      ensures recipe == old(recipe)
      ensures old(createdPizzas) == [] ==> r == Err(EmptyQueue) && createdPizzas == []
      ensures old(createdPizzas) != [] ==> r == Ok(old(createdPizzas)[0]) && createdPizzas == old(createdPizzas)[1..]
    {
      if createdPizzas == [] {
        return Err(EmptyQueue);
      }
      r := Ok(createdPizzas[0]);
      createdPizzas := createdPizzas[1..];
    }
  }

  /** The example scenario: a pepperoni pizza with tomato sauce, pepperoni and cheese, then a
      special pizza with spicy sauce and bacon, cheese, onion and sausage. */
  method KitchenScenario()
  {
    RecipeFlags();
    var chef := new PizzaChef();
    var pepperoni := new PizzaRecipe(PepperoniRecipe);
    chef.SetPizzaRecipe(pepperoni);
    var built := chef.ConstructPizza();
    var served := chef.ServePizza();
    assert served.Ok? && served.value.sauce == Tomato && served.value.toppings == 10;

    var special := new PizzaRecipe(SpecialRecipe);
    chef.SetPizzaRecipe(special);
    built := chef.ConstructPizza();
    served := chef.ServePizza();
    assert served.Ok? && served.value.sauce == Spicy && served.value.toppings == 29;
    served := chef.ServePizza();
    assert served == Err(EmptyQueue);
  }
}
