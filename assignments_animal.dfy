// The standalone Animal base class of the `assignments` package: the same
// record of name, species, age, health and adoption flag, with the species
// given by the caller rather than fixed by a subclass.

module Assignments {
  import opened AnimalRecord

  class Animal {
    var name: string
    var species: string
    var age: int32
    var healthStatus: string
    var adoptionStatus: bool

    ghost function State(): AnimalState
      reads this
    {
      AnimalState(name, species, age, healthStatus, adoptionStatus)
    }

    constructor (name: string, species: string, age: int32, healthStatus: string)
      ensures State() == NewAnimal(name, species, age, healthStatus)
    {
      this.name, this.species, this.age := name, species, age;
      this.healthStatus, this.adoptionStatus := healthStatus, false;
    }

    method UpdateHealthStatus(status: string)
      modifies `healthStatus
      ensures State() == Apply(old(State()), Op.UpdateHealthStatus(status))
    {
      healthStatus := status;
    }

    method MarkAdopted()
      modifies `adoptionStatus
      ensures State() == Apply(old(State()), Op.MarkAdopted)
    {
      adoptionStatus := true;
    }

    method IsAdopted() returns (r: bool)
      ensures r == adoptionStatus
    {
      r := adoptionStatus;
    }

    method GetName() returns (r: string)
      ensures r == name
    {
      r := name;
    }

    method GetSpecies() returns (r: string)
      ensures r == species
    {
      r := species;
    }
  }

  /** Marking twice leaves the animal as marking once does, and the record
      only ever moves along Run: the adoption flag, once set, stays set. */
  method MarkAdoptedTwice(a: Animal)
    modifies a`adoptionStatus
    ensures a.State() == Run(old(a.State()), [Op.MarkAdopted])
    ensures a.State() == Run(old(a.State()), [Op.MarkAdopted, Op.MarkAdopted])
  {
    a.MarkAdopted();
    a.MarkAdopted();
  }
}
