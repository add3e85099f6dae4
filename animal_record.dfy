// The state every shelter animal carries, and the two operations that change
// it (updateHealthStatus and markAdopted), as values. Both Animal classes of
// the model expose their fields through this record, so what is proved here
// about sequences of operations holds for any sequence of calls on an object.

module AnimalRecord {

  /** Java's 32-bit `int`, used for ages and identifiers. */
  newtype int32 = x: int | -0x8000_0000 <= x < 0x8000_0000

  datatype AnimalState = AnimalState(
    name: string,
    species: string,
    age: int32,
    healthStatus: string,
    adoptionStatus: bool)

  /** The state a constructor leaves: the arguments as given, not adopted. */
  function NewAnimal(name: string, species: string, age: int32, healthStatus: string): (s: AnimalState)
  {
    AnimalState(name, species, age, healthStatus, false)
  }

  /** The state-changing operations of an animal. */
  datatype Op = UpdateHealthStatus(status: string) | MarkAdopted

  function Apply(s: AnimalState, op: Op): AnimalState
  {
    match op
    case UpdateHealthStatus(status) => s.(healthStatus := status)
    case MarkAdopted => s.(adoptionStatus := true)
  }

  /** The state after the operations, first to last. */
  function Run(s: AnimalState, ops: seq<Op>): AnimalState
    decreases |ops|
  {
    if ops == [] then s else Run(Apply(s, ops[0]), ops[1..])
  }

  /** A fresh animal is not adopted and holds exactly the constructor arguments. */
  lemma NewAnimalIsAvailable(name: string, species: string, age: int32, healthStatus: string)
    ensures var s := NewAnimal(name, species, age, healthStatus);
      !s.adoptionStatus && s.name == name && s.species == species &&
      s.age == age && s.healthStatus == healthStatus
  {
  }

  /** updateHealthStatus replaces the health and nothing else. */
  lemma UpdateHealthStatusReplacesOnlyHealth(s: AnimalState, status: string)
    ensures var t := Apply(s, UpdateHealthStatus(status));
      t.healthStatus == status && t.name == s.name && t.species == s.species &&
      t.age == s.age && t.adoptionStatus == s.adoptionStatus
  {
  }

  /** markAdopted sets the flag whatever it was, so doing it twice is doing it once. */
  lemma MarkAdoptedIsIdempotent(s: AnimalState)
    ensures Apply(s, MarkAdopted).adoptionStatus
    ensures Apply(Apply(s, MarkAdopted), MarkAdopted) == Apply(s, MarkAdopted)
    ensures Apply(s, MarkAdopted) == s.(adoptionStatus := true)
  {
  }

  /** Running two sequences one after the other is running their concatenation. */
  lemma {:induction false} RunAppend(s: AnimalState, ops1: seq<Op>, ops2: seq<Op>)
    ensures Run(s, ops1 + ops2) == Run(Run(s, ops1), ops2)
    decreases |ops1|
  {
    if ops1 == [] {
      assert ops1 + ops2 == ops2;
    } else {
      assert (ops1 + ops2)[1..] == ops1[1..] + ops2;
      RunAppend(Apply(s, ops1[0]), ops1[1..], ops2);
    }
  }

  /** No operation touches the name, the species or the age. */
  lemma {:induction false} RunKeepsIdentity(s: AnimalState, ops: seq<Op>)
    ensures Run(s, ops).name == s.name
    ensures Run(s, ops).species == s.species
    ensures Run(s, ops).age == s.age
    decreases |ops|
  {
    if ops != [] {
      RunKeepsIdentity(Apply(s, ops[0]), ops[1..]);
    }
  }

  /** After any operations the animal is adopted exactly when it was adopted
      before or one of them was markAdopted: nothing ever clears the flag. */
  lemma {:induction false} RunAdoptionFlag(s: AnimalState, ops: seq<Op>)
    ensures Run(s, ops).adoptionStatus <==> s.adoptionStatus || MarkAdopted in ops
    decreases |ops|
  {
    if ops != [] {
      RunAdoptionFlag(Apply(s, ops[0]), ops[1..]);
      assert ops == [ops[0]] + ops[1..];
    }
  }

  /** Once adopted, adopted after whatever comes next. */
  lemma AdoptionIsMonotone(s: AnimalState, before: seq<Op>, after: seq<Op>)
    requires Run(s, before).adoptionStatus
    ensures Run(s, before + after).adoptionStatus
  {
    RunAppend(s, before, after);
    RunAdoptionFlag(Run(s, before), after);
  }

  /** The health is the status of the last update, or the original one if there was none. */
  function LastHealth(health: string, ops: seq<Op>): string
    decreases |ops|
  {
    if ops == [] then health
    else if ops[|ops| - 1].UpdateHealthStatus? then ops[|ops| - 1].status
    else LastHealth(health, ops[..|ops| - 1])
  }

  lemma {:induction false} RunHealthIsLastUpdate(s: AnimalState, ops: seq<Op>)
    ensures Run(s, ops).healthStatus == LastHealth(s.healthStatus, ops)
    decreases |ops|
  {
    if ops != [] {
      var init, last := ops[..|ops| - 1], ops[|ops| - 1];
      assert ops == init + [last];
      RunAppend(s, init, [last]);
      RunHealthIsLastUpdate(s, init);
    }
  }
}
