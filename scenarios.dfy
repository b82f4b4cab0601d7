/**
 * Request sequences against an empty store, each with the replies and the
 * resulting rows it leads to, derived from the handlers' contracts alone.
 */
module Scenarios {
  import opened Outcomes
  import opened Models
  import opened CageController
  import opened SpeciesController
  import opened Handlers

  /** An occupied cage is powered down by a body that gives only the status:
      a group of 4 is moved in, which sets the capacity to 4, and the omitted
      capacity is then reset to 0 before the guard reads it. The group still
      names the cage. */
  method PowerDownWithCapacityOmitted() returns (created: Reply, poweredDown: Reply, capacity: int, status: string,
                                                 occupants: int)
    ensures created == Created(1) && poweredDown == Done
    ensures capacity == 0 && status == Down && occupants == 1
  {
    var db := new Store();
    created := db.CreateCage(CreateCageInput(0, 4, [], Active));
    var group := db.CreateSpecies(CreateSpeciesInput("Brachiosaurus", 0, "Herbivore", 4));
    var moved := db.UpdateSpecies(1, UpdateSpeciesInput("", 1, "", 4));
    assert db.cages[1].capacity == 4;
    poweredDown := db.UpdateCage(1, UpdateCageInput(0, 0, 0, Down));
    capacity, status := db.cages[1].capacity, db.cages[1].status;
    assert Occupants(db.species, 1).Keys == {1};
    occupants := |Occupants(db.species, 1).Keys|;
  }

  /** The same request with the capacity given is refused, and the cage keeps
      its capacity and status. */
  method PowerDownWithCapacityGiven() returns (poweredDown: Reply, capacity: int, status: string)
    ensures poweredDown == Rejected(PowerDownOccupied)
    ensures capacity == 4 && status == Active
  {
    var db := new Store();
    var created := db.CreateCage(CreateCageInput(4, 4, [], Active));
    poweredDown := db.UpdateCage(1, UpdateCageInput(0, 4, 0, Down));
    capacity, status := db.cages[1].capacity, db.cages[1].status;
  }

  /** A create whose status breaks the check constraint answers success with
      id 0 and stores nothing. */
  method CreateCageWithUnknownStatus() returns (created: Reply, stored: int)
    ensures created == Created(0) && stored == 0
  {
    var db := new Store();
    created := db.CreateCage(CreateCageInput(0, 0, [], "OFFLINE"));
    stored := |db.cages|;
  }

  /** Two herbivore groups moved into one cage, 3 then 2 animals: the cage's
      capacity ends up as the last group's quantity, 2, not 5. */
  method RelocationWriteBack() returns (capacity: int, occupants: int)
    ensures capacity == 2 && occupants == 2
  {
    var db := new Store();
    var cage := db.CreateCage(CreateCageInput(0, 16, [], Active));
    var first := db.CreateSpecies(CreateSpeciesInput("Triceratops", 0, "Herbivore", 3));
    var moved := db.UpdateSpecies(1, UpdateSpeciesInput("", 1, "", 3));
    assert db.cages[1].capacity == 3;
    var second := db.CreateSpecies(CreateSpeciesInput("Stegosaurus", 0, "Herbivore", 2));
    moved := db.UpdateSpecies(2, UpdateSpeciesInput("", 1, "", 2));
    capacity := db.cages[1].capacity;
    occupants := |Occupants(db.species, 1).Keys|;
    assert Occupants(db.species, 1).Keys == {1, 2};
  }

  /** A move into a DOWN cage is refused and the species stays unassigned; a
      move into a cage id that does not exist goes through. */
  method MoveIntoDownOrMissingCage() returns (intoDown: Reply, intoMissing: Reply, cageId: int)
    ensures intoDown == Rejected(CageDown) && intoMissing == Done && cageId == 7
  {
    var db := new Store();
    var cage := db.CreateCage(CreateCageInput(0, 0, [], Down));
    var created := db.CreateSpecies(CreateSpeciesInput("Velociraptor", 1, "Carnivore", 0));
    intoDown := db.UpdateSpecies(1, UpdateSpeciesInput("", 1, "", 0));
    assert db.species[1].cageId == 0;
    intoMissing := db.UpdateSpecies(1, UpdateSpeciesInput("", 7, "", 0));
    cageId := db.species[1].cageId;
  }

  /** A group of 2 in cage 1 updated with quantity -3: no guard refuses it, and
      the cage's capacity becomes -3. */
  method NegativeQuantityWriteBack() returns (updated: Reply, capacity: int)
    ensures updated == Done && capacity == -3
  {
    var db := new Store();
    var cage := db.CreateCage(CreateCageInput(0, 0, [], Active));
    var group := db.CreateSpecies(CreateSpeciesInput("Dilophosaurus", 0, "Carnivore", 2));
    var moved := db.UpdateSpecies(1, UpdateSpeciesInput("", 1, "", 2));
    updated := db.UpdateSpecies(1, UpdateSpeciesInput("", 1, "", -3));
    capacity := db.cages[1].capacity;
  }
}
