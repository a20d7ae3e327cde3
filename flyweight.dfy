/** The Flyweight pattern: an alias generator hands out one shared alias per name,
    creating it on first request. */
module Flyweight {

  /** An alias is a value carrying a unique identifier. */
  datatype Alias = Alias(id: nat)

  class AliasGenerator {
    var aliases: map<string, Alias>
    /** Fresh identifiers come from this counter; it stands for the random unique
        identifiers of the source, all of which differ. */
    var nextId: nat

    /** Every alias handed out has an identifier below the counter, and different names
        hold different aliases. */
    ghost predicate Valid()
      reads this
    {
      && (forall name :: name in aliases ==> aliases[name].id < nextId)
      && (forall n1, n2 :: n1 in aliases && n2 in aliases && n1 != n2 ==> aliases[n1] != aliases[n2])
    }

    constructor ()
      ensures Valid() && aliases == map[]
    {
      aliases := map[];
      nextId := 0;
    }

    /** The alias already held for `name`, or a new one with an identifier no alias has. */
    method GetAlias(name: string) returns (alias: Alias)
      requires Valid()
      modifies this
      ensures Valid()
      ensures name in old(aliases) ==> alias == old(aliases)[name] && aliases == old(aliases)
      ensures name !in old(aliases) ==>
                && aliases == old(aliases)[name := alias]
                && forall other :: other in old(aliases) ==> old(aliases)[other] != alias
    {
      if name in aliases {
        alias := aliases[name];
      } else {
        alias := Alias(nextId);
        aliases := aliases[name := alias];
        nextId := nextId + 1;
      }
    }
  }

  /** The example scenario: asking twice for one name gives the same alias, another name a
      different one. */
  method SharingScenario()
  {
    var aliasGenerator := new AliasGenerator();
    var firstAlias := aliasGenerator.GetAlias("John Doe");
    var sameAlias := aliasGenerator.GetAlias("John Doe");
    assert firstAlias == sameAlias;
    var anotherAlias := aliasGenerator.GetAlias("Jane Doe");
    assert "Jane Doe" != "John Doe";
    assert firstAlias != anotherAlias;
  }
}
