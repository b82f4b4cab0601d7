/**
 * The park's database as one object holding the cages table and the species
 * table, and the six mutating handlers of controllers/cage.go and
 * controllers/species.go as methods on it. Each handler either rejects the
 * request and leaves both tables as they were, or performs the writes the
 * controller performs, in the same order.
 *
 * Ids are handed out by an auto-increment counter per table that starts at 1,
 * so the id 0 names no row and a species with cageId 0 is in no cage.
 */
module Handlers {
  import opened Outcomes
  import opened Models
  import opened CageController
  import opened SpeciesController

  class Store {
    var cages: map<int, Cage>
    var species: map<int, Species>
    var nextCageId: int
    var nextSpeciesId: int

    /** Ids below the counters; the status check constraint; and the two
        columns that no insert or partial update can leave at zero. */
    ghost predicate Valid()
      reads this
      ensures Valid() ==> 0 !in cages && 0 !in species
    {
      && 1 <= nextCageId && 1 <= nextSpeciesId
      && (forall id :: id in cages ==> 1 <= id < nextCageId)
      && (forall id :: id in species ==> 1 <= id < nextSpeciesId)
      && (forall id :: id in cages ==> StatusAllowed(cages[id].status) && cages[id].maxCapacity != 0)
      && (forall id :: id in species ==> species[id].quantity != 0)
    }

    constructor ()
      ensures Valid()
      ensures cages == map[] && species == map[]
      ensures nextCageId == 1 && nextSpeciesId == 1
    {
      cages, species := map[], map[];
      nextCageId, nextSpeciesId := 1, 1;
    }

    /** POST /cages. On success the new row gets the next id; a status outside
        the check constraint makes the insert fail, which the handler ignores:
        it still answers success, with id 0, and nothing is stored. */
    method CreateCage(input: CreateCageInput) returns (r: Reply)
      requires Valid()
      modifies this
      ensures Valid()
      ensures species == old(species) && nextSpeciesId == old(nextSpeciesId)
      ensures r.Rejected? <==> CreateCageRejection(input).Some?
      ensures r.Rejected? ==> r.error == CreateCageRejection(input).value
      ensures !r.Rejected? ==> r.Created?
      ensures r.Created? && StatusAllowed(input.status) ==>
                && r.id == old(nextCageId) && r.id !in old(cages)
                && cages == old(cages)[r.id := NewCage(input.capacity, input.maxCapacity, input.status)]
                && nextCageId == old(nextCageId) + 1
      ensures r.Rejected? || !StatusAllowed(input.status) ==>
                cages == old(cages) && nextCageId == old(nextCageId)
      ensures r.Created? && !StatusAllowed(input.status) ==> r.id == 0
    {
      if input.status == "" {
        return Rejected(MissingField);
      }
      if input.capacity < 0 {
        return Rejected(NegativeCapacity);
      }
      if input.maxCapacity < input.capacity {
        return Rejected(MaxBelowCapacity);
      }
      var cage := NewCage(input.capacity, input.maxCapacity, input.status);
      if !StatusAllowed(cage.status) {
        return Created(0);
      }
      var id := nextCageId;
      cages := cages[id := cage];
      nextCageId := nextCageId + 1;
      r := Created(id);
    }

    /** PATCH /cage/:id. After the guards, an omitted capacity is first written
        as 0; the power-down guard reads the capacity after that write; then the
        nonzero input fields are written, unless the check constraint refuses
        the new status (an error the handler ignores). */
    method UpdateCage(id: int, input: UpdateCageInput) returns (r: Reply)
      requires Valid()
      modifies this
      ensures Valid()
      ensures species == old(species)
      ensures nextCageId == old(nextCageId) && nextSpeciesId == old(nextSpeciesId)
      ensures r.Done? || r.Rejected?
      ensures id !in old(cages) ==> r == Rejected(NotFound)
      ensures id in old(cages) && UpdateCageRejection(old(cages)[id], input).Some? ==>
                r == Rejected(UpdateCageRejection(old(cages)[id], input).value)
      ensures id in old(cages) && UpdateCageRejection(old(cages)[id], input).None? ==> r == Done
      ensures r.Rejected? ==> cages == old(cages)
      ensures r.Done? ==> cages == old(cages)[id := UpdatedCage(old(cages)[id], input)]
    {
      if id !in cages {
        return Rejected(NotFound);
      }
      if input.capacity < 0 {
        return Rejected(NegativeCapacity);
      }
      if input.capacity != 0 && input.maxCapacity != 0 {
        if input.capacity > input.maxCapacity {
          return Rejected(CapacityExceedsMax);
        }
      }
      if input.capacity == 0 {
        cages := cages[id := cages[id].(capacity := 0)];
      }
      var capacityRead := cages[id].capacity;
      if input.status == Down && capacityRead > 0 {
        return Rejected(PowerDownOccupied);
      }
      var merged := MergeCage(cages[id], input);
      if StatusAllowed(merged.status) {
        cages := cages[id := merged];
      }
      r := Done;
    }

    /** DELETE /cage/:id. The species rows that name the cage keep their cageId. */
    method DeleteCage(id: int) returns (r: Reply)
      requires Valid()
      modifies this
      ensures Valid()
      ensures species == old(species)
      ensures nextCageId == old(nextCageId) && nextSpeciesId == old(nextSpeciesId)
      ensures r == (if id in old(cages) then Done else Rejected(NotFound))
      ensures cages == old(cages) - {id}
    {
      if id !in cages {
        return Rejected(NotFound);
      }
      cages := cages - {id};
      r := Done;
    }

    /** POST /species. Name and diet are required; the input cageId is never
        stored, so the new species is in no cage. */
    method CreateSpecies(input: CreateSpeciesInput) returns (r: Reply)
      requires Valid()
      modifies this
      ensures Valid()
      ensures cages == old(cages) && nextCageId == old(nextCageId)
      ensures r.Rejected? <==> input.name == "" || input.diet == ""
      ensures r.Rejected? ==> r.error == MissingField
      ensures !r.Rejected? ==> r.Created?
      ensures r.Rejected? ==> species == old(species) && nextSpeciesId == old(nextSpeciesId)
      ensures r.Created? ==>
                && r.id == old(nextSpeciesId) && r.id !in old(species)
                && species == old(species)[r.id := NewSpecies(input.name, input.diet, input.quantity)]
                && species[r.id].cageId == 0
                && nextSpeciesId == old(nextSpeciesId) + 1
    {
      if input.name == "" || input.diet == "" {
        return Rejected(MissingField);
      }
      var id := nextSpeciesId;
      species := species[id := NewSpecies(input.name, input.diet, input.quantity)];
      nextSpeciesId := nextSpeciesId + 1;
      r := Created(id);
    }

    /** PATCH /species/:id. Rejects an unknown species and a move into a DOWN
        cage; otherwise writes the nonzero input fields and, when a quantity is
        given, writes SUM(quantity) over the rows with THIS SPECIES' id onto
        the cage the species now names, if that cage exists. */
    method UpdateSpecies(id: int, input: UpdateSpeciesInput) returns (r: Reply)
      requires Valid()
      modifies this
      ensures Valid()
      ensures nextCageId == old(nextCageId) && nextSpeciesId == old(nextSpeciesId)
      ensures r.Done? || r.Rejected?
      ensures id !in old(species) ==> r == Rejected(NotFound)
      ensures id in old(species) ==>
                r == (if MovesIntoDownCage(old(cages), input) then Rejected(CageDown) else Done)
      ensures r.Rejected? ==> species == old(species) && cages == old(cages)
      ensures r.Done? ==> species == old(species)[id := MergeSpecies(old(species)[id], input)]
      ensures r.Done? && input.quantity == 0 ==> cages == old(cages)
      ensures r.Done? && input.quantity != 0 ==>
                var target := species[id].cageId;
                cages == if target in old(cages)
                         then old(cages)[target := old(cages)[target].(capacity := RowQuantitySum(species, id))]
                         else old(cages)
      ensures r.Done? && input.quantity != 0 && species[id].cageId in cages ==>
                cages[species[id].cageId].capacity == species[id].quantity
    {
      if id !in species {
        return Rejected(NotFound);
      }
      if input.cageId != 0 {
        var status := StatusOf(cages, input.cageId);
        if status == Down {
          return Rejected(CageDown);
        }
      }
      species := species[id := MergeSpecies(species[id], input)];
      if input.quantity != 0 {
        var row := species[id];
        var capacity := row.quantity;
        if row.cageId in cages {
          cages := cages[row.cageId := cages[row.cageId].(capacity := capacity)];
        }
      }
      r := Done;
    }

    /** DELETE /species/:id. No cage capacity is recomputed. */
    method DeleteSpecies(id: int) returns (r: Reply)
      requires Valid()
      modifies this
      ensures Valid()
      ensures cages == old(cages)
      ensures nextCageId == old(nextCageId) && nextSpeciesId == old(nextSpeciesId)
      ensures r == (if id in old(species) then Done else Rejected(NotFound))
      ensures species == old(species) - {id}
    {
      if id !in species {
        return Rejected(NotFound);
      }
      species := species - {id};
      r := Done;
    }
  }
}
