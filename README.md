# Animal shelter domain model in Dafny

This project models the bookkeeping core of a small animal-shelter program written in Java. The core has these parts:

- **Animals** of three closed kinds: Dog, Cat and Bird. Each animal has a name, a species tag, an age, a free-text health status and an adoption flag that starts false.
- **The shelter registry**: an insertion-ordered list of animal references. It supports appending an animal, a first-match case-insensitive lookup by name, and a health update by name.
- **Adopters**: each one keeps its own list of references to the animals it adopted. Adoption is guarded by the adoption flag.
- **Staff**: each member has an append-only list of task descriptions.

Animals are Dafny objects. The registry's `animals` and each adopter's `adoptedAnimals` are `seq<Animal>` fields that hold references to the same objects. Every mutator's frame names fields, not whole objects: for example ``modifies animals`healthStatus`` for a registry health update, or `` modifies `adoptedAnimals, animal`adoptionStatus `` for an adoption. Because of these frames, a caller knows that a health update never touches an adoption flag, and that an adoption touches only the adopter's list and the adopted animal's flag. The driver steps in `ShelterMain`, whose frames cover every registry animal, also state that every animal other than the target keeps its flag and its health. Each `Adopter` has a `Valid()` predicate saying that every animal in its list is marked adopted. The client methods in `ShelterMain` show that this predicate holds for every adopter after registrations, health updates and further adoptions by any adopter.

Both Animal classes expose their fields as a value, `State(): AnimalState`. Each mutator is specified as one step `Apply(old(State()), op)` of the record machine in `AnimalRecord`. So the lemmas about `Run` (any sequence of operations) apply to any sequence of calls of these two mutators on an animal object; the registry and adopter operations change an animal only through them. They show that the name, species and age never change, that the adoption flag is set exactly when it was already set or some call was `markAdopted` (so nothing clears it), and that the health is the status of the last update.

The string comparison `equalsIgnoreCase` is modelled as equality after an ASCII case fold, applied character by character (`CaseFold`). It is proved to be an equivalence relation. That fact is what makes the driver's flow correct: it looks an animal up by the typed name, adopts it, and then updates health by the adopted animal's own name. The lemma `FirstMatchOfFoundName` and the method `AdoptThenUpdateHealth` show that this second lookup reaches the very animal the adopter holds.

Files:
- `case_fold.dfy`: module `CaseFold`.
- `animal_record.dfy`: module `AnimalRecord`, which holds the value-level animal state, the `int32` type and the operation sequences.
- `animal_shelter.dfy`: module `AnimalShelter`, which models `AnimalShelter.java`.
- `assignments_animal.dfy`: module `Assignments`, which models `Assignment1/src/assignments/Animal.java`.
- `shelter_main.dfy`: module `ShelterMain`, which holds the driver's adopt-and-update steps and the clients that show the invariant survives each operation.

Java's `int` fields (age, staff and adopter ids) are the newtype `int32`. No arithmetic is ever done on them.

## Model

| member | source | states |
|---|---|---|
| CaseFold.FoldString | AnimalShelter.java:187 | the folded string has the same length, and each character is the fold of the character at the same position |
| CaseFold.EqualsIgnoreCaseIsFoldedEquality | AnimalShelter.java:187 | two names are equal ignoring case exactly when their folded forms are equal (both directions) |
| CaseFold.EqualsIgnoreCaseIsEquivalence | AnimalShelter.java:187 | the case-insensitive comparison is reflexive, symmetric and transitive |
| CaseFold.MatchesOwnFolding | AnimalShelter.java:187 | a name matches its own case-folded form |
| AnimalRecord.NewAnimalIsAvailable | AnimalShelter.java:15-21 | a new animal's state holds exactly the constructor arguments, with the adoption flag false |
| AnimalRecord.UpdateHealthStatusReplacesOnlyHealth | AnimalShelter.java:29-31 | a health update sets the health to the argument and leaves the name, species, age and adoption flag unchanged |
| AnimalRecord.MarkAdoptedIsIdempotent | AnimalShelter.java:33-35 | marking sets the flag whatever it was, changes nothing else, and marking twice equals marking once |
| AnimalRecord.RunKeepsIdentity | AnimalShelter.java:6-48 | after any sequence of animal operations, the name, species and age are the original ones |
| AnimalRecord.RunAdoptionFlag | AnimalShelter.java:33-39 | after any sequence of operations, the animal is adopted exactly when it was adopted before or some operation was markAdopted |
| AnimalRecord.AdoptionIsMonotone | AnimalShelter.java:33-39 | once the flag is set, it stays set whatever operations follow |
| AnimalRecord.RunHealthIsLastUpdate | AnimalShelter.java:29-31 | after any sequence of operations, the health is the status of the last update, or the original health if there was no update |
| AnimalShelter.SpeciesTagIdentifiesKind | AnimalShelter.java:56-92 | the three kinds' species tags "Dog", "Cat" and "Bird" are pairwise different, so the tag identifies the kind |
| AnimalShelter.Animal.Dog | AnimalShelter.java:56-60 | a new dog holds the arguments, has species "Dog" and breed/trained as given, and is not adopted |
| AnimalShelter.Animal.Cat | AnimalShelter.java:72-76 | a new cat holds the arguments, has species "Cat" and color/indoor as given, and is not adopted |
| AnimalShelter.Animal.Bird | AnimalShelter.java:88-92 | a new bird holds the arguments, has species "Bird" and canFly as given, and is not adopted |
| AnimalShelter.Animal.UpdateHealthStatus | AnimalShelter.java:29-31 | the new state is one health-update step from the old one; only the healthStatus field is in the frame |
| AnimalShelter.Animal.MarkAdopted | AnimalShelter.java:33-35 | the new state is one markAdopted step from the old one; only the adoptionStatus field is in the frame |
| AnimalShelter.Animal.IsAdopted | AnimalShelter.java:37-39 | returns the current adoption flag and changes nothing |
| AnimalShelter.Animal.GetName | AnimalShelter.java:41-43 | returns the current name and changes nothing |
| AnimalShelter.Animal.GetSpecies | AnimalShelter.java:45-47 | returns the current species and changes nothing |
| AnimalShelter.Staff.constructor | AnimalShelter.java:104-110 | new staff hold the given id, name and role, and an empty task list |
| AnimalShelter.Staff.AssignTask | AnimalShelter.java:112-115 | the task list becomes the old list with the task appended at the end; nothing else changes |
| AnimalShelter.Adopter.constructor | AnimalShelter.java:133-139 | a new adopter holds the given id, name and contact, has an empty list, and satisfies the invariant |
| AnimalShelter.Adopter.AdoptAnimal | AnimalShelter.java:141-149 | adopts exactly when the animal was not adopted: then the animal is marked and appended at the end of the list; otherwise neither the animal nor the list changes; afterwards the animal is adopted, and the invariant is kept |
| AnimalShelter.Adopter.GetAdoptedAnimals | AnimalShelter.java:162-164 | returns the current adopted list, in adoption order |
| AnimalShelter.FirstMatch | AnimalShelter.java:185-192 | returns the lowest index whose name equals the key ignoring case; returns nothing exactly when no name matches |
| AnimalShelter.FirstMatchIsEarliest | AnimalShelter.java:185-192 | whenever some position matches, a match is found, and it is at or before that position |
| AnimalShelter.FirstMatchOfFoundName | AnimalShelter.java:291-295 | looking up the name stored at the first match of a key finds that same position again |
| AnimalShelter.Shelter.constructor | AnimalShelter.java:168 | a new registry is empty |
| AnimalShelter.Shelter.Lookup | AnimalShelter.java:185-192 | the lookup result is a registered animal whose name matches, or null exactly when no registered animal matches |
| AnimalShelter.Shelter.AddAnimal | AnimalShelter.java:170-172 | the registry becomes the old list with the animal appended at the end |
| AnimalShelter.Shelter.FindAnimalByName | AnimalShelter.java:185-192 | returns the lowest-index animal whose name matches ignoring case, or null exactly when none matches; changes nothing |
| AnimalShelter.Shelter.UpdateAnimalHealth | AnimalShelter.java:194-202 | reports whether a match exists; the first match's state is one health-update step from its old state; every other registered animal keeps its health; only health fields are in the frame; the registry's names are unchanged |
| Assignments.Animal.constructor | Assignment1/src/assignments/Animal.java:10-16 | a new animal holds exactly the arguments (any species string) and is not adopted |
| Assignments.Animal.UpdateHealthStatus | Assignment1/src/assignments/Animal.java:20-22 | the new state is one health-update step from the old one; only healthStatus is in the frame |
| Assignments.Animal.MarkAdopted | Assignment1/src/assignments/Animal.java:24-26 | the new state is one markAdopted step from the old one; only adoptionStatus is in the frame |
| Assignments.Animal.IsAdopted | Assignment1/src/assignments/Animal.java:28-30 | returns the current adoption flag and changes nothing |
| Assignments.Animal.GetName | Assignment1/src/assignments/Animal.java:32-34 | returns the current name and changes nothing |
| Assignments.Animal.GetSpecies | Assignment1/src/assignments/Animal.java:36-38 | returns the current species and changes nothing |
| Assignments.MarkAdoptedTwice | Assignment1/src/assignments/Animal.java:24-26 | two markAdopted calls leave the same state as one |
| ShelterMain.AddKeepsAdoptersValid | AnimalShelter.java:170-172 | registering an animal keeps every adopter's invariant |
| ShelterMain.UpdateHealthKeepsAdoptersValid | AnimalShelter.java:194-202 | a registry health update sets the first match's health, every other registry animal keeps its health (so a missing name changes no animal), every adopter's list and invariant is kept, and no adoption flag changes |
| ShelterMain.AdoptKeepsAdoptersValid | AnimalShelter.java:141-149 | an adoption by one adopter leaves every other adopter's list unchanged and keeps every adopter's invariant, even though the animal is shared; the animal is adopted afterwards; after a successful adoption it is in no other adopter's list and was not in this adopter's list before |
| ShelterMain.SecondAdoptionIsRejected | AnimalShelter.java:141-149 | of two adoptions of the same available animal, by the same or different adopters, the first succeeds and the second is rejected without changing the second adopter's list |
| ShelterMain.AdoptByName | AnimalShelter.java:279-287 | the driver adopts the registry's first match for the typed name exactly when one exists and is not yet adopted; a found animal is adopted afterwards; every other registry animal keeps its flag; other adopters' lists are unchanged and do not hold the newly adopted animal; every adopter's invariant is kept |
| ShelterMain.UpdateFirstAdoptedHealth | AnimalShelter.java:291-296 | if the adopter holds an animal, the registry's match for that animal's name gets the new health and every other registry animal keeps its health; if the adopter holds none, no health changes; invariants are kept |
| ShelterMain.AdoptThenUpdateHealth | AnimalShelter.java:279-296 | for a new adopter, the adoption succeeds exactly when the looked-up animal was available; the health update then lands on the very animal the adopter holds; every other registry animal keeps its flag and health, and when the adoption fails no animal changes; other adopters' lists are unchanged and do not hold the adopted animal |
| ShelterMain.FirstRegisteredMatchWins | AnimalShelter.java:185-192 | with Dog "Rex" registered before Cat "rex", looking up "REX" returns the dog |

## Left out

- Console output is left out: `displayInfo` (all three kinds), `viewAnimals`, `displayTasks`, `displayAdoptedAnimals`, and the messages printed by `assignTask`, `adoptAnimal` and `updateAnimalHealth`. These only print and have no effect on state. Java's `adoptAnimal` and `updateAnimalHealth` return `void`. In the model they return a `bool` that says which of their two messages would be printed.
- `Main.main`'s console input and number/boolean parsing are left out. So are its first steps: creating one dog, cat and bird, registering them, and creating staff and assigning a task. Its adopt-then-update steps are modelled in `ShelterMain`. The `Scanner` becomes plain parameters.
- The bird's `wingSpan` (a `double`) is not modelled. It is floating point and no rule uses it.
- Case folding is ASCII only. Java's `equalsIgnoreCase` also folds non-ASCII letters through `Character.toUpperCase`/`toLowerCase`; the model does not.
- `getAdoptedAnimals` returns Java's live `ArrayList`, so a caller could append to it directly and bypass the adoption guard. The model returns the list's value. Whether the invariant survives such a bypass is therefore not modelled.
- Null arguments (for example `adoptAnimal(null)`, which throws in Java) are not modelled. Parameters have non-null reference types.
- The stray text in the first two lines of `AnimalShelter.java` and the mismatch between its file name and its public class are build issues, not behaviour.
- Adopters hold references to the shared animal objects, as the Java does. The base `Animal` constructor of the `assignments` package accepts any species string. `findAnimalByName` returns `null` when nothing matches; `updateAnimalHealth` returns nothing and only prints which case happened, which the model's `bool` result stands for.
