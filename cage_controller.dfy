/**
 * The pure part of controllers/cage.go: the request bodies, the order in which
 * the create and update handlers reject a request, the partial update of a
 * cage row, and the two read handlers that filter the cages table.
 *
 * The handlers themselves, which write to the store, are `Store.CreateCage`,
 * `Store.UpdateCage` and `Store.DeleteCage` in module Handlers.
 */
module CageController {
  import opened Outcomes
  import opened Models

  /** Body of POST /cages. `species` is accepted and never stored. */
  datatype CreateCageInput = CreateCageInput(capacity: int, maxCapacity: int, species: seq<Species>, status: string)

  /** Body of PATCH /cage/:id; a zero or empty field stands for "not given". */
  datatype UpdateCageInput = UpdateCageInput(cageId: int, capacity: int, maxCapacity: int, status: string)

  /** Why CreateCage rejects `input`, in the order the handler checks: the
      required status, then a negative capacity, then a maxCapacity below it. */
  function CreateCageRejection(input: CreateCageInput): (e: Option<Error>)
    ensures e == None <==> input.status != "" && 0 <= input.capacity <= input.maxCapacity
    ensures e == Some(MissingField) <==> input.status == ""
    ensures e == Some(NegativeCapacity) <==> input.status != "" && input.capacity < 0
    ensures e == Some(MaxBelowCapacity) <==>
              input.status != "" && 0 <= input.capacity && input.maxCapacity < input.capacity
  {
    if input.status == "" then Some(MissingField)
    else if input.capacity < 0 then Some(NegativeCapacity)
    else if input.maxCapacity < input.capacity then Some(MaxBelowCapacity)
    else None
  }

  /** The capacity the update handler reads back before its power-down check:
      an omitted (zero) capacity has just been written to the row as 0. */
  function CapacityAfterReset(stored: Cage, input: UpdateCageInput): (c: int)
    ensures input.capacity == 0 ==> c == 0
    ensures input.capacity != 0 ==> c == stored.capacity
  {
    if input.capacity == 0 then 0 else stored.capacity
  }

  /** Why UpdateCage rejects `input` for an existing cage `stored`, in the order
      the handler checks. The max check compares the two INPUT values, and only
      when both are given; the power-down check reads the capacity after the
      reset, so it can only fire when a positive capacity is also given. */
  function UpdateCageRejection(stored: Cage, input: UpdateCageInput): (e: Option<Error>)
    ensures e == Some(NegativeCapacity) <==> input.capacity < 0
    ensures e == Some(CapacityExceedsMax) <==>
              0 < input.capacity && 0 != input.maxCapacity && input.maxCapacity < input.capacity
    ensures e == Some(PowerDownOccupied) <==>
              input.status == Down && 0 < input.capacity && 0 < stored.capacity
              && !(input.maxCapacity != 0 && input.maxCapacity < input.capacity)
    ensures e == None || e == Some(NegativeCapacity) || e == Some(CapacityExceedsMax) || e == Some(PowerDownOccupied)
  {
    if input.capacity < 0 then Some(NegativeCapacity)
    else if input.capacity != 0 && input.maxCapacity != 0 && input.capacity > input.maxCapacity then
      Some(CapacityExceedsMax)
    else if input.status == Down && CapacityAfterReset(stored, input) > 0 then Some(PowerDownOccupied)
    else None
  }

  /** A power-down request with the capacity omitted always passes the guard,
      whatever the stored capacity. */
  lemma OmittedCapacityPowersDown(stored: Cage, input: UpdateCageInput)
    requires input.status == Down && input.capacity == 0
    ensures UpdateCageRejection(stored, input) == None
  {
  }

  /** The corrected update guard: the power-down check reads the capacity the
      cage holds BEFORE the omitted capacity is reset, so an occupied cage is
      never powered down. */
  function CorrectedUpdateCageRejection(stored: Cage, input: UpdateCageInput): (e: Option<Error>)
    ensures input.status == Down && 0 < stored.capacity ==> e != None
    ensures e == Some(PowerDownOccupied) <==>
              input.status == Down && 0 <= input.capacity && 0 < stored.capacity
              && !(input.capacity != 0 && input.maxCapacity != 0 && input.maxCapacity < input.capacity)
    ensures e != Some(PowerDownOccupied) ==> e == UpdateCageRejection(stored, input)
  {
    if input.capacity < 0 then Some(NegativeCapacity)
    else if input.capacity != 0 && input.maxCapacity != 0 && input.capacity > input.maxCapacity then
      Some(CapacityExceedsMax)
    else if input.status == Down && stored.capacity > 0 then Some(PowerDownOccupied)
    else None
  }

  /** The two guards disagree exactly on a power-down of an occupied cage whose
      body omits the capacity: the code lets it through, the corrected guard
      refuses it. */
  lemma PowerDownGuardsDiffer(stored: Cage, input: UpdateCageInput)
    ensures CorrectedUpdateCageRejection(stored, input) != UpdateCageRejection(stored, input) <==>
              input.status == Down && input.capacity == 0 && 0 < stored.capacity
  {
  }

  /** `Updates(input)` with a struct: every nonzero or non-empty input field is
      written, every other column keeps its stored value. */
  function MergeCage(stored: Cage, input: UpdateCageInput): (c: Cage)
    ensures c.cageId == (if input.cageId != 0 then input.cageId else stored.cageId)
    ensures c.capacity == (if input.capacity != 0 then input.capacity else stored.capacity)
    ensures c.maxCapacity == (if input.maxCapacity != 0 then input.maxCapacity else stored.maxCapacity)
    ensures c.status == (if input.status != "" then input.status else stored.status)
  {
    Cage(if input.cageId != 0 then input.cageId else stored.cageId,
         if input.capacity != 0 then input.capacity else stored.capacity,
         if input.maxCapacity != 0 then input.maxCapacity else stored.maxCapacity,
         if input.status != "" then input.status else stored.status)
  }

  /** Writing the same partial update twice has the effect of writing it once. */
  lemma MergeCageIdempotent(stored: Cage, input: UpdateCageInput)
    ensures MergeCage(MergeCage(stored, input), input) == MergeCage(stored, input)
  {
  }

  /** A body that gives no field leaves the row as it is. */
  lemma MergeCageEmpty(stored: Cage)
    ensures MergeCage(stored, UpdateCageInput(0, 0, 0, "")) == stored
  {
  }

  /** The row UpdateCage leaves behind once its guards passed: the capacity reset
      of an omitted capacity always persists, the partial update follows it, and
      the database refuses the partial update as a whole when it would store a
      status outside the check constraint (an error the handler ignores). */
  function UpdatedCage(stored: Cage, input: UpdateCageInput): (c: Cage)
    ensures input.capacity == 0 ==> c.capacity == 0
    ensures StatusAllowed(stored.status) ==> StatusAllowed(c.status)
    ensures StatusAllowed(stored.status) && (input.status == "" || StatusAllowed(input.status)) ==>
              c == MergeCage(stored.(capacity := CapacityAfterReset(stored, input)), input)
    ensures !StatusAllowed(MergeCage(stored, input).status) ==>
              c == stored.(capacity := CapacityAfterReset(stored, input))
  {
    var reset := stored.(capacity := CapacityAfterReset(stored, input));
    var merged := MergeCage(reset, input);
    if StatusAllowed(merged.status) then merged else reset
  }

  /** capacity <= maxCapacity is not kept by updates: a cage created with the
      defaults accepts a capacity of 5 when maxCapacity is omitted. */
  lemma UpdateCanExceedMaxCapacity()
    ensures var stored := NewCage(0, 0, Active);
            var input := UpdateCageInput(0, 5, 0, "");
            UpdateCageRejection(stored, input) == None
            && UpdatedCage(stored, input).capacity > UpdatedCage(stored, input).maxCapacity
  {
  }

  /** capacity >= 0 is kept by updates: a negative input is refused, and an
      omitted one is reset to 0. */
  lemma UpdateKeepsCapacityNonNegative(stored: Cage, input: UpdateCageInput)
    requires stored.capacity >= 0 && StatusAllowed(stored.status)
    requires UpdateCageRejection(stored, input) == None
    ensures UpdatedCage(stored, input).capacity >= 0
  {
  }

  /** GET /cages/:status: the cages whose status equals the path parameter. */
  function CagesWithStatus(cages: map<int, Cage>, status: string): (r: map<int, Cage>)
    ensures forall id :: id in r <==> id in cages && cages[id].status == status
    ensures forall id :: id in r ==> r[id] == cages[id]
  {
    map id | id in cages && cages[id].status == status :: cages[id]
  }

  /** Under the check constraint the two status filters split the table: every
      cage is in exactly one of them, and any other status finds nothing. */
  lemma {:induction false} StatusFiltersPartition(cages: map<int, Cage>, other: string)
    requires forall id :: id in cages ==> StatusAllowed(cages[id].status)
    requires !StatusAllowed(other)
    ensures CagesWithStatus(cages, Active) + CagesWithStatus(cages, Down) == cages
    ensures CagesWithStatus(cages, Active).Keys !! CagesWithStatus(cages, Down).Keys
    ensures CagesWithStatus(cages, other) == map[]
  {
    var both := CagesWithStatus(cages, Active) + CagesWithStatus(cages, Down);
    forall id | id in cages ensures id in both {
      assert cages[id].status == Active || cages[id].status == Down;
    }
    assert both.Keys == cages.Keys;
    assert CagesWithStatus(cages, other).Keys == {};
  }

  /** A cage together with its preloaded `Species` list, as GET /cage/:id returns it. */
  datatype CageView = CageView(cage: Cage, species: map<int, Species>)

  /** GET /cage/:id: the cage with that id and the species rows that name it;
      None stands for the empty list `Find` returns for an unknown id. */
  function FindCage(cages: map<int, Cage>, rows: map<int, Species>, id: int): (r: Option<CageView>)
    ensures r.Some? <==> id in cages
    ensures r.Some? ==> r.value.cage == cages[id]
    ensures r.Some? ==> forall sid :: sid in r.value.species <==> sid in rows && rows[sid].cageId == id
    ensures r.Some? ==> forall sid :: sid in r.value.species ==> r.value.species[sid] == rows[sid]
  {
    if id in cages then Some(CageView(cages[id], Occupants(rows, id))) else None
  }
}
