// The driver's adoption workflow and what callers may rely on when the same
// Animal objects are shared by the registry and by several adopters.
// `others` stands for every adopter alive in the program: the invariant that
// each of them holds only adopted animals survives every operation.

module ShelterMain {
  import opened AnimalRecord
  import opened CaseFold
  import opened AnimalShelter

  /** Registering an animal leaves every adopter's invariant intact. */
  method AddKeepsAdoptersValid(shelter: Shelter, animal: Animal, others: set<Adopter>)
    requires forall o | o in others :: o.Valid()
    modifies shelter`animals
    ensures shelter.animals == old(shelter.animals) + [animal]
    ensures forall o | o in others :: o.Valid()
  {
    shelter.AddAnimal(animal);
  }

  /** A health update through the registry leaves every adopter's list and
      invariant intact, and every adoption flag as it was. */
  method UpdateHealthKeepsAdoptersValid(shelter: Shelter, name: string, status: string, others: set<Adopter>)
    returns (found: bool)
    requires forall o | o in others :: o.Valid()
    modifies shelter.animals`healthStatus
    ensures found == (old(shelter.Lookup(name)) != null)
    ensures found ==> old(shelter.Lookup(name)).healthStatus == status
    ensures forall a | a in shelter.animals && a != old(shelter.Lookup(name)) ::
      a.healthStatus == old(a.healthStatus)
    ensures forall o | o in others :: o.Valid() && o.adoptedAnimals == old(o.adoptedAnimals)
    ensures forall a | a in shelter.animals :: a.adoptionStatus == old(a.adoptionStatus)
  {
    found := shelter.UpdateAnimalHealth(name, status);
  }

  /** An adoption by one adopter leaves every other adopter's list as it was
      and keeps every adopter's invariant. A successful adoption puts the
      animal in exactly one list: no other adopter holds it, and this adopter
      did not hold it before. */
  method AdoptKeepsAdoptersValid(adopter: Adopter, animal: Animal, others: set<Adopter>)
    returns (adopted: bool)
    requires adopter.Valid()
    requires forall o | o in others :: o.Valid()
    modifies adopter`adoptedAnimals, animal`adoptionStatus
    ensures adopted == !old(animal.adoptionStatus)
    ensures animal.adoptionStatus
    ensures adopter.adoptedAnimals ==
      if adopted then old(adopter.adoptedAnimals) + [animal] else old(adopter.adoptedAnimals)
    ensures adopter.Valid()
    ensures forall o | o in others :: o.Valid()
    ensures forall o | o in others && o != adopter :: o.adoptedAnimals == old(o.adoptedAnimals)
    ensures adopted ==> animal !in old(adopter.adoptedAnimals)
    ensures adopted ==> forall o | o in others && o != adopter :: animal !in o.adoptedAnimals
  {
    adopted := adopter.AdoptAnimal(animal);
    forall o | o in others
      ensures o.Valid()
    {
      if o != adopter {
        assert forall a | a in o.adoptedAnimals :: a == animal || a.adoptionStatus == old(a.adoptionStatus);
      }
    }
  }

  /** Two adoptions of the same available animal: the first succeeds, the
      second (by the same or another adopter) is rejected and changes nothing. */
  method SecondAdoptionIsRejected(first: Adopter, second: Adopter, animal: Animal)
    returns (ok1: bool, ok2: bool)
    requires !animal.adoptionStatus
    modifies first`adoptedAnimals, second`adoptedAnimals, animal`adoptionStatus
    ensures ok1 && !ok2
    ensures animal.adoptionStatus
    ensures first.adoptedAnimals == old(first.adoptedAnimals) + [animal]
    ensures first != second ==> second.adoptedAnimals == old(second.adoptedAnimals)
  {
    ok1 := first.AdoptAnimal(animal);
    ok2 := second.AdoptAnimal(animal);
  }

  /** The driver's adoption step: look the requested animal up and, if it
      was found, let the adopter adopt it. */
  method AdoptByName(shelter: Shelter, adopter: Adopter, animalToAdopt: string, others: set<Adopter>)
    returns (animal: Animal?, adopted: bool)
    requires adopter.Valid()
    requires forall o | o in others :: o.Valid()
    modifies adopter`adoptedAnimals, shelter.animals`adoptionStatus
    ensures animal == old(shelter.Lookup(animalToAdopt))
    ensures adopted <==> animal != null && !old(animal.adoptionStatus)
    ensures animal != null ==> animal.adoptionStatus
    ensures forall a | a in shelter.animals && a != animal :: a.adoptionStatus == old(a.adoptionStatus)
    ensures adopter.adoptedAnimals ==
      if adopted then old(adopter.adoptedAnimals) + [animal] else old(adopter.adoptedAnimals)
    ensures adopter.Valid()
    ensures forall o | o in others :: o.Valid()
    ensures forall o | o in others && o != adopter :: o.adoptedAnimals == old(o.adoptedAnimals)
    ensures adopted ==> forall o | o in others && o != adopter :: animal !in o.adoptedAnimals
  {
    animal := shelter.FindAnimalByName(animalToAdopt);
    adopted := false;
    if animal != null {
      adopted := AdoptKeepsAdoptersValid(adopter, animal, others);
    }
  }

  /** The driver's closing step: if the adopter holds an animal, set the
      health of the registry's match for that animal's name. */
  method UpdateFirstAdoptedHealth(shelter: Shelter, adopter: Adopter, newHealth: string, others: set<Adopter>)
    returns (updated: bool)
    requires adopter.Valid()
    requires forall o | o in others :: o.Valid()
    modifies shelter.animals`healthStatus
    ensures adopter.Valid()
    ensures forall o | o in others :: o.Valid()
    ensures updated ==> adopter.adoptedAnimals != []
    ensures adopter.adoptedAnimals != [] ==>
      var target := old(shelter.Lookup(adopter.adoptedAnimals[0].name));
      updated == (target != null) && (updated ==> target.healthStatus == newHealth)
    ensures forall a | a in shelter.animals &&
        (!updated || a != old(shelter.Lookup(adopter.adoptedAnimals[0].name))) ::
      a.healthStatus == old(a.healthStatus)
  {
    updated := false;
    var list := adopter.GetAdoptedAnimals();
    if |list| > 0 {
      var first := list[0];
      var firstName := first.GetName();
      updated := UpdateHealthKeepsAdoptersValid(shelter, firstName, newHealth, others + {adopter});
    }
  }

  /** The driver's closing steps, for a newly created adopter: adopt by name,
      then update the adopted animal's health through the registry by that
      animal's own name. The update reaches the very animal the adopter holds. */
  method AdoptThenUpdateHealth(shelter: Shelter, adopter: Adopter, animalToAdopt: string, newHealth: string, others: set<Adopter>)
    returns (adopted: bool)
    requires adopter.adoptedAnimals == []
    requires forall o | o in others :: o.Valid()
    modifies adopter`adoptedAnimals, shelter.animals`adoptionStatus, shelter.animals`healthStatus
    ensures adopter.Valid()
    ensures forall o | o in others :: o.Valid()
    ensures var t := old(shelter.Lookup(animalToAdopt));
      adopted <==> t != null && !old(t.adoptionStatus)
    ensures var t := old(shelter.Lookup(animalToAdopt));
      if adopted then
        adopter.adoptedAnimals == [t] && t.adoptionStatus && t.healthStatus == newHealth
      else
        adopter.adoptedAnimals == []
    ensures forall a | a in shelter.animals && (!adopted || a != old(shelter.Lookup(animalToAdopt))) ::
      a.adoptionStatus == old(a.adoptionStatus) && a.healthStatus == old(a.healthStatus)
    ensures forall o | o in others && o != adopter :: o.adoptedAnimals == old(o.adoptedAnimals)
    ensures adopted ==> forall o | o in others && o != adopter :: old(shelter.Lookup(animalToAdopt)) !in o.adoptedAnimals
  {
    ghost var names := shelter.Names();
    var animal;
    animal, adopted := AdoptByName(shelter, adopter, animalToAdopt, others);
    if adopted {
      assert adopter.adoptedAnimals == [animal];
      FirstMatchOfFoundName(names, animalToAdopt);
      assert shelter.Names() == names;
      assert shelter.Lookup(adopter.adoptedAnimals[0].name) == animal;
    } else {
      assert adopter.adoptedAnimals == [];
    }
    var updated := UpdateFirstAdoptedHealth(shelter, adopter, newHealth, others);
    assert adopted == updated;
  }

  /** With two animals whose names differ only in case, the lookup returns
      the one registered first. */
  method FirstRegisteredMatchWins() returns (rex: Animal, found: Animal?)
    ensures found == rex && rex.kind.Dog?
  {
    var shelter := new Shelter();
    rex := new Animal.Dog("Rex", 3, "Unknown", "Labrador", true);
    var cat := new Animal.Cat("rex", 2, "Unknown", "Black", true);
    shelter.AddAnimal(rex);
    shelter.AddAnimal(cat);
    assert EqualsIgnoreCase("Rex", "REX");
    found := shelter.FindAnimalByName("REX");
  }
}
