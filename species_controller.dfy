/**
 * The pure part of controllers/species.go: the request bodies, the lookup of a
 * destination cage's status, the partial update of a species row, the read
 * handler that filters by name, and the SUM(quantity) aggregate the update
 * handler writes back onto a cage.
 *
 * The handlers themselves are `Store.CreateSpecies`, `Store.UpdateSpecies` and
 * `Store.DeleteSpecies` in module Handlers.
 */
module SpeciesController {
  import opened Outcomes
  import opened Models

  /** Body of POST /species. `cageId` is accepted and never stored. */
  datatype CreateSpeciesInput = CreateSpeciesInput(name: string, cageId: int, diet: string, quantity: int)

  /** Body of PATCH /species/:id; a zero or empty field stands for "not given". */
  datatype UpdateSpeciesInput = UpdateSpeciesInput(name: string, cageId: int, diet: string, quantity: int)

  /** The status `Find` loads for a cage id: the empty string when no cage has it. */
  function StatusOf(cages: map<int, Cage>, cageId: int): (s: string)
    ensures cageId in cages ==> s == cages[cageId].status
    ensures cageId !in cages ==> s == ""
  {
    if cageId in cages then cages[cageId].status else ""
  }

  /** The update handler's only guard on the destination: a nonzero cageId whose
      cage is DOWN. A cageId naming no cage passes. */
  predicate MovesIntoDownCage(cages: map<int, Cage>, input: UpdateSpeciesInput)
    ensures MovesIntoDownCage(cages, input) <==>
              input.cageId != 0 && input.cageId in cages && cages[input.cageId].status == Down
  {
    input.cageId != 0 && StatusOf(cages, input.cageId) == Down
  }

  /** `Updates(input)` with a struct: every nonzero or non-empty input field is
      written, every other column keeps its stored value. */
  function MergeSpecies(stored: Species, input: UpdateSpeciesInput): (s: Species)
    ensures s.name == (if input.name != "" then input.name else stored.name)
    ensures s.cageId == (if input.cageId != 0 then input.cageId else stored.cageId)
    ensures s.diet == (if input.diet != "" then input.diet else stored.diet)
    ensures s.quantity == (if input.quantity != 0 then input.quantity else stored.quantity)
  {
    Species(if input.name != "" then input.name else stored.name,
            if input.cageId != 0 then input.cageId else stored.cageId,
            if input.diet != "" then input.diet else stored.diet,
            if input.quantity != 0 then input.quantity else stored.quantity)
  }

  /** Writing the same partial update twice has the effect of writing it once. */
  lemma MergeSpeciesIdempotent(stored: Species, input: UpdateSpeciesInput)
    ensures MergeSpecies(MergeSpecies(stored, input), input) == MergeSpecies(stored, input)
  {
  }

  /** No update can store a zero quantity or move a species out of every cage:
      a zero in the body means "keep". */
  lemma MergeKeepsNonZero(stored: Species, input: UpdateSpeciesInput)
    ensures stored.quantity != 0 ==> MergeSpecies(stored, input).quantity != 0
    ensures stored.cageId != 0 ==> MergeSpecies(stored, input).cageId != 0
  {
  }

  /** GET /species/:name: the species rows whose name equals the path parameter. */
  function SpeciesNamed(rows: map<int, Species>, name: string): (r: map<int, Species>)
    ensures forall sid :: sid in r <==> sid in rows && rows[sid].name == name
    ensures forall sid :: sid in r ==> r[sid] == rows[sid]
  {
    map sid | sid in rows && rows[sid].name == name :: rows[sid]
  }

  /** Every row is found by the filter for its own name. */
  lemma SpeciesNamedOwnName(rows: map<int, Species>, sid: int)
    requires sid in rows
    ensures sid in SpeciesNamed(rows, rows[sid].name)
  {
  }

  /** The lists for two different names are disjoint, so no row is found by
      any name but its own. */
  lemma SpeciesNamedDisjoint(rows: map<int, Species>, a: string, b: string)
    requires a != b
    ensures SpeciesNamed(rows, a).Keys !! SpeciesNamed(rows, b).Keys
  {
  }

  /** SUM(quantity) over the rows with the given ids. */
  ghost function SumQuantity(rows: map<int, Species>, ids: set<int>): (sum: int)
    requires ids <= rows.Keys
    ensures ids == {} ==> sum == 0
    ensures (forall k :: k in ids ==> rows[k].quantity >= 0) ==> sum >= 0
    decreases ids
  {
    if exists k :: k in ids then
      var k :| k in ids;
      rows[k].quantity + SumQuantity(rows, ids - {k})
    else 0
  }

  /** The sum does not depend on the order in which rows are added: any one row
      can be taken out first. */
  lemma {:induction false} SumQuantityRemove(rows: map<int, Species>, ids: set<int>, j: int)
    requires ids <= rows.Keys && j in ids
    ensures SumQuantity(rows, ids) == rows[j].quantity + SumQuantity(rows, ids - {j})
    decreases ids
  {
    var k :| k in ids && SumQuantity(rows, ids) == rows[k].quantity + SumQuantity(rows, ids - {k});
    if k != j {
      SumQuantityRemove(rows, ids - {k}, j);
      SumQuantityRemove(rows, ids - {j}, k);
      assert ids - {k} - {j} == ids - {j} - {k};
    }
  }

  /** The aggregate species.go:111 computes: `SUM(quantity)` over the species rows
      WHERE id = the updated species' id. Ids are unique, so it is the updated row's own quantity. */
  ghost function RowQuantitySum(rows: map<int, Species>, sid: int): (sum: int)
    ensures sum == if sid in rows then rows[sid].quantity else 0
  {
    var ids := set k | k in rows && k == sid;
    if sid in rows then
      assert ids == {sid};
      SumQuantityRemove(rows, ids, sid);
      assert ids - {sid} == {};
      SumQuantity(rows, ids)
    else
      assert ids == {};
      SumQuantity(rows, ids)
  }

  /** The number of animals a cage holds: SUM(quantity) over its occupants. */
  ghost function Occupancy(rows: map<int, Species>, cageId: int): (sum: int)
    ensures (forall sid :: sid in rows ==> rows[sid].cageId != cageId) ==> sum == 0
    ensures (forall sid :: sid in rows && rows[sid].cageId == cageId ==> rows[sid].quantity >= 0) ==> sum >= 0
  {
    assert (forall sid :: sid in rows ==> rows[sid].cageId != cageId) ==> Occupants(rows, cageId).Keys == {};
    SumQuantity(rows, Occupants(rows, cageId).Keys)
  }

  /** The ids of the other rows in the same cage as `sid`. */
  function Cagemates(rows: map<int, Species>, sid: int): (ids: set<int>)
    requires sid in rows
    ensures sid !in ids && ids <= rows.Keys
    ensures forall k :: k in ids <==> k in rows && k != sid && rows[k].cageId == rows[sid].cageId
  {
    Occupants(rows, rows[sid].cageId).Keys - {sid}
  }

  /** A cage's occupancy is one occupant's quantity plus its cagemates'. */
  lemma OccupancySplit(rows: map<int, Species>, sid: int)
    requires sid in rows
    ensures Occupancy(rows, rows[sid].cageId) == rows[sid].quantity + SumQuantity(rows, Cagemates(rows, sid))
  {
    SumQuantityRemove(rows, Occupants(rows, rows[sid].cageId).Keys, sid);
  }

  /** The capacity species.go writes back equals the cage's occupancy exactly
      when the updated row's cagemates add up to zero. */
  lemma WriteBackIsOccupancyIff(rows: map<int, Species>, sid: int)
    requires sid in rows
    ensures (RowQuantitySum(rows, sid) == Occupancy(rows, rows[sid].cageId))
            <==> (SumQuantity(rows, Cagemates(rows, sid)) == 0)
  {
    OccupancySplit(rows, sid);
  }

  /** Two herbivore groups in cage 5 (3 and 2 animals): the aggregate written
      back after updating the second is 2, while the cage holds 5. */
  lemma WriteBackMissesCagemates()
    ensures var rows := map[1 := Species("Triceratops", 5, "Herbivore", 3),
                            2 := Species("Stegosaurus", 5, "Herbivore", 2)];
            RowQuantitySum(rows, 2) == 2 && Occupancy(rows, 5) == 5
  {
    var rows := map[1 := Species("Triceratops", 5, "Herbivore", 3),
                     2 := Species("Stegosaurus", 5, "Herbivore", 2)];
    OccupancySplit(rows, 2);
    assert Cagemates(rows, 2) == {1};
    SumQuantityRemove(rows, {1}, 1);
    assert {1} - {1} == {};
  }

  /** A quantity below zero passes the update handler's guards, and the
      aggregate then writes it onto the cage: a cage that holds one group of 2
      gets capacity -3. */
  lemma WriteBackCanGoNegative()
    ensures var cages := map[1 := NewCage(0, 0, Active)];
            var rows := map[1 := Species("Dilophosaurus", 1, "Carnivore", 2)];
            var input := UpdateSpeciesInput("", 1, "", -3);
            !MovesIntoDownCage(cages, input)
            && RowQuantitySum(rows[1 := MergeSpecies(rows[1], input)], 1) == -3
  {
  }

  /** The corrected guard of the species update: it also refuses a negative
      quantity, as the cage update refuses a negative capacity, and then the
      DOWN destination as the handler does. */
  function CorrectedSpeciesRejection(cages: map<int, Cage>, input: UpdateSpeciesInput): (e: Option<Error>)
    ensures e == Some(NegativeQuantity) <==> input.quantity < 0
    ensures e == Some(CageDown) <==> 0 <= input.quantity && MovesIntoDownCage(cages, input)
    ensures e == None <==> 0 <= input.quantity && !MovesIntoDownCage(cages, input)
  {
    if input.quantity < 0 then Some(NegativeQuantity)
    else if MovesIntoDownCage(cages, input) then Some(CageDown)
    else None
  }

  /** Under the corrected guard no quantity in the table becomes negative, so
      neither the value written back nor any cage's occupancy can be negative:
      the `capacity >= 0` of every cage is kept. */
  lemma CorrectedWriteBackNonNegative(cages: map<int, Cage>, rows: map<int, Species>,
                                      sid: int, input: UpdateSpeciesInput)
    requires sid in rows
    requires forall k :: k in rows ==> rows[k].quantity >= 0
    requires CorrectedSpeciesRejection(cages, input) == None
    ensures var after := rows[sid := MergeSpecies(rows[sid], input)];
            RowQuantitySum(after, sid) >= 0 && forall c :: Occupancy(after, c) >= 0
  {
  }
}
