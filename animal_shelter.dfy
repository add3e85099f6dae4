// The shelter's domain model: animals of three closed kinds, staff with task
// lists, adopters holding references to the animals they adopted, and the
// shelter registry with its case-insensitive name lookup.
//
// Animals are objects: the registry and every adopter hold references to the
// same Animal, so a health update made through the registry is seen through
// the adopter, and the adoption flag set by one adopter is seen by all others.

module AnimalShelter {
  import opened AnimalRecord
  import opened CaseFold

  datatype Option<T> = None | Some(value: T)

  /** The kind-specific attributes; the set of kinds is closed. */
  datatype Kind =
    | Dog(breed: string, trained: bool)
    | Cat(color: string, indoor: bool)
    | Bird(canFly: bool)

  /** The species tag each kind's constructor passes to the base constructor. */
  function SpeciesTag(k: Kind): string
  {
    match k
    case Dog(_, _) => "Dog"
    case Cat(_, _) => "Cat"
    case Bird(_) => "Bird"
  }

  /** The tag tells the kinds apart. */
  lemma SpeciesTagIdentifiesKind(k1: Kind, k2: Kind)
    ensures SpeciesTag(k1) == SpeciesTag(k2) <==>
      (k1.Dog? && k2.Dog?) || (k1.Cat? && k2.Cat?) || (k1.Bird? && k2.Bird?)
  {
  }

  class Animal {
    var name: string
    var species: string
    var age: int32
    var healthStatus: string
    var adoptionStatus: bool
    var kind: Kind

    ghost function State(): AnimalState
      reads this
    {
      AnimalState(name, species, age, healthStatus, adoptionStatus)
    }

    constructor Dog(name: string, age: int32, healthStatus: string, breed: string, trained: bool)
      ensures State() == NewAnimal(name, "Dog", age, healthStatus)
      ensures kind == Kind.Dog(breed, trained) && species == SpeciesTag(kind)
    {
      this.name, this.species, this.age := name, "Dog", age;
      this.healthStatus, this.adoptionStatus := healthStatus, false;
      this.kind := Kind.Dog(breed, trained);
    }

    constructor Cat(name: string, age: int32, healthStatus: string, color: string, indoor: bool)
      ensures State() == NewAnimal(name, "Cat", age, healthStatus)
      ensures kind == Kind.Cat(color, indoor) && species == SpeciesTag(kind)
    {
      this.name, this.species, this.age := name, "Cat", age;
      this.healthStatus, this.adoptionStatus := healthStatus, false;
      this.kind := Kind.Cat(color, indoor);
    }

    constructor Bird(name: string, age: int32, healthStatus: string, canFly: bool)
      ensures State() == NewAnimal(name, "Bird", age, healthStatus)
      ensures kind == Kind.Bird(canFly) && species == SpeciesTag(kind)
    {
      this.name, this.species, this.age := name, "Bird", age;
      this.healthStatus, this.adoptionStatus := healthStatus, false;
      this.kind := Kind.Bird(canFly);
    }

    method UpdateHealthStatus(status: string)
      modifies `healthStatus
      ensures State() == Apply(old(State()), Op.UpdateHealthStatus(status))
    {
      healthStatus := status;
    }

    method MarkAdopted()
      modifies `adoptionStatus
      ensures State() == Apply(old(State()), Op.MarkAdopted)
    {
      adoptionStatus := true;
    }

    method IsAdopted() returns (r: bool)
      ensures r == adoptionStatus
    {
      r := adoptionStatus;
    }

    method GetName() returns (r: string)
      ensures r == name
    {
      r := name;
    }

    method GetSpecies() returns (r: string)
      ensures r == species
    {
      r := species;
    }
  }

  class Staff {
    var staffId: int32
    var name: string
    var role: string
    var tasks: seq<string>

    constructor (staffId: int32, name: string, role: string)
      ensures this.staffId == staffId && this.name == name && this.role == role
      ensures tasks == []
    {
      this.staffId, this.name, this.role := staffId, name, role;
      tasks := [];
    }

    method AssignTask(task: string)
      modifies `tasks
      ensures tasks == old(tasks) + [task]
    {
      tasks := tasks + [task];
    }
  }

  class Adopter {
    var adopterId: int32
    var name: string
    var contactInfo: string
    var adoptedAnimals: seq<Animal>

    /** Every animal this adopter holds is marked adopted. */
    ghost predicate Valid()
      reads this, adoptedAnimals
    {
      forall a | a in adoptedAnimals :: a.adoptionStatus
    }

    constructor (adopterId: int32, name: string, contactInfo: string)
      ensures this.adopterId == adopterId && this.name == name && this.contactInfo == contactInfo
      ensures adoptedAnimals == [] && Valid()
    {
      this.adopterId, this.name, this.contactInfo := adopterId, name, contactInfo;
      adoptedAnimals := [];
    }

    /** Adopts the animal if nobody has; `adopted` says which of the two
        messages the operation prints. */
    method AdoptAnimal(animal: Animal) returns (adopted: bool)
      modifies `adoptedAnimals, animal`adoptionStatus
      ensures adopted == !old(animal.adoptionStatus)
      ensures animal.adoptionStatus
      ensures animal.State() ==
        if adopted then Apply(old(animal.State()), Op.MarkAdopted) else old(animal.State())
      ensures adoptedAnimals ==
        if adopted then old(adoptedAnimals) + [animal] else old(adoptedAnimals)
      ensures old(Valid()) ==> Valid()
    {
      var already := animal.IsAdopted();
      if !already {
        animal.MarkAdopted();
        adoptedAnimals := adoptedAnimals + [animal];
        adopted := true;
      } else {
        adopted := false;
      }
    }

    method GetAdoptedAnimals() returns (r: seq<Animal>)
      ensures r == adoptedAnimals
    {
      r := adoptedAnimals;
    }
  }

  /** The index of the first name equal to `key` ignoring case. */
  function FirstMatch(names: seq<string>, key: string): (r: Option<nat>)
    ensures r.Some? ==>
      r.value < |names| && EqualsIgnoreCase(names[r.value], key) &&
      forall j :: 0 <= j < r.value ==> !EqualsIgnoreCase(names[j], key)
    ensures r.None? <==> forall j :: 0 <= j < |names| ==> !EqualsIgnoreCase(names[j], key)
  {
    if names == [] then None
    else if EqualsIgnoreCase(names[0], key) then Some(0)
    else match FirstMatch(names[1..], key)
      case None => None
      case Some(k) => Some(k + 1)
  }

  /** Any matching position is at or after the first match. */
  lemma FirstMatchIsEarliest(names: seq<string>, key: string, i: nat)
    requires i < |names| && EqualsIgnoreCase(names[i], key)
    ensures FirstMatch(names, key).Some? && FirstMatch(names, key).value <= i
  {
  }

  /** Looking up the name found at the first match finds that same position:
      nothing earlier matches it either, because the comparison is an equivalence. */
  lemma FirstMatchOfFoundName(names: seq<string>, key: string)
    requires FirstMatch(names, key).Some?
    ensures var i := FirstMatch(names, key).value;
      FirstMatch(names, names[i]) == Some(i)
  {
    var i := FirstMatch(names, key).value;
    forall j | 0 <= j < i
      ensures !EqualsIgnoreCase(names[j], names[i])
    {
      EqualsIgnoreCaseIsEquivalence(names[j], names[i], key);
    }
    EqualsIgnoreCaseIsEquivalence(names[i], names[i], key);
    var r := FirstMatch(names, names[i]);
    assert r.Some? && r.value == i;
  }

  /** The names of the animals, in order. */
  ghost function NamesOf(animals: seq<Animal>): (ns: seq<string>)
    reads animals`name
    ensures |ns| == |animals|
    ensures forall i :: 0 <= i < |animals| ==> ns[i] == animals[i].name
  {
    if animals == [] then [] else [animals[0].name] + NamesOf(animals[1..])
  }

  class Shelter {
    var animals: seq<Animal>

    constructor ()
      ensures animals == []
    {
      animals := [];
    }

    /** The names of the registered animals, in registration order. */
    ghost function Names(): (ns: seq<string>)
      reads `animals, animals`name
      ensures |ns| == |animals|
      ensures forall i :: 0 <= i < |animals| ==> ns[i] == animals[i].name
    {
      NamesOf(animals)
    }

    /** The animal findAnimalByName returns: the first registered one whose
        name equals `name` ignoring case, or null. */
    ghost function Lookup(name: string): (a: Animal?)
      reads `animals, animals`name
      ensures a != null ==> a in animals && EqualsIgnoreCase(a.name, name)
      ensures a == null <==> forall i :: 0 <= i < |animals| ==> !EqualsIgnoreCase(animals[i].name, name)
    {
      match FirstMatch(Names(), name)
      case None => null
      case Some(i) => animals[i]
    }

    method AddAnimal(animal: Animal)
      modifies `animals
      ensures animals == old(animals) + [animal]
    {
      animals := animals + [animal];
    }

    method FindAnimalByName(name: string) returns (found: Animal?)
      ensures found == Lookup(name)
      ensures found == null <==> forall i :: 0 <= i < |animals| ==> !EqualsIgnoreCase(animals[i].name, name)
      ensures found != null ==>
        exists i :: 0 <= i < |animals| && found == animals[i] &&
          EqualsIgnoreCase(animals[i].name, name) &&
          forall j :: 0 <= j < i ==> !EqualsIgnoreCase(animals[j].name, name)
    {
      var i := 0;
      while i < |animals|
        invariant 0 <= i <= |animals|
        invariant forall j :: 0 <= j < i ==> !EqualsIgnoreCase(animals[j].name, name)
      {
        var a := animals[i];
        var n := a.GetName();
        if EqualsIgnoreCase(n, name) {
          assert Names()[i] == n;
          FirstMatchIsEarliest(Names(), name, i);
          return a;
        }
        i := i + 1;
      }
      return null;
    }

    /** Sets the health of the animal findAnimalByName returns; `found` says
        which of the two messages the operation prints. */
    method UpdateAnimalHealth(name: string, newStatus: string) returns (found: bool)
      modifies animals`healthStatus
      ensures Names() == old(Names())
      ensures found == (old(Lookup(name)) != null)
      ensures found ==>
        old(Lookup(name)).State() == Apply(old(Lookup(name).State()), Op.UpdateHealthStatus(newStatus))
      ensures forall a | a in animals && a != old(Lookup(name)) :: a.healthStatus == old(a.healthStatus)
    {
      var a := FindAnimalByName(name);
      if a != null {
        a.UpdateHealthStatus(newStatus);
        found := true;
      } else {
        found := false;
      }
    }
  }
}
