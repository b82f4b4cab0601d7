# Jurassic Park cages and species: a Dafny model

The park service keeps two tables: cages (capacity, maxCapacity, a status of
`ACTIVE` or `DOWN`) and species groups (name, diet, quantity, and the id of
the cage they live in). Six handlers change them: create, update and delete
a cage, and create, update and delete a species. This project models those
handlers over an in-memory store and proves what each one does. Each handler
either rejects the request and leaves both tables untouched, or performs the
controller's writes in the controller's order. The model also covers the
record types with their column defaults and status check constraint, and the
read handlers that filter the tables.

Files:

- `outcomes.dfy`: error kinds and replies (`Done`, `Created(id)`, `Rejected(error)`).
- `models.dfy`: the `Cage` and `Species` rows, the column defaults applied on
  insert, the status check constraint, and a cage's has-many species list.
- `cage_controller.dfy`: request bodies of the cage handlers. It also holds
  their rejection order, the partial update of a cage row, and the
  status-filter and find-by-id reads.
- `species_controller.dfy`: request bodies of the species handlers, the
  destination-status lookup and the partial update of a species row. It also
  holds the name filter and the `SUM(quantity)` aggregate.
- `handlers.dfy`: class `Store`, which holds both tables and an auto-increment
  counter per table. The six mutating handlers are its methods.
- `scenarios.dfy`: concrete request sequences and what they lead to.

Behaviour that follows the code, not the design one might expect:

- A species can be moved into a cage id that names no cage. The lookup uses
  `Find`, so the status comes back empty and the `DOWN` guard does not fire.
- No diet or carnivore-compatibility check exists. None is modelled.
- After a species update that gives a quantity, the capacity written to the
  cage is `SUM(quantity)` over the rows whose id is that species' id. That is
  the species' own quantity, not the cage's total (see Findings).
- The update handler writes capacity 0 whenever the body omits the capacity.
  This happens before the power-down guard reads the capacity. So a body that
  only asks for `DOWN` always passes, even for an occupied cage. The guard
  fires only when the body also gives a positive capacity and the stored
  capacity is positive.
- The create-species handler never stores the body's `cageId`, so a new
  species is in no cage. A zero quantity becomes the column default 1.
- A zero maxCapacity on a new cage becomes the column default 4.
- A status outside `ACTIVE`/`DOWN` is refused by the database's check
  constraint. The handlers ignore that error: create answers success with id 0
  and stores nothing, and update keeps only its earlier capacity reset.
- Deleting a cage leaves the species that name it in place. Deleting a
  species recomputes no cage capacity.
- The stored pair `capacity <= maxCapacity` is checked only on create. The
  update compares only the two input values, and only when both are given
  (controllers/cage.go:114-119), so an update that omits maxCapacity can break
  it (`UpdateCanExceedMaxCapacity`).
- `capacity >= 0` (the comment at models/cage.go:5) is kept by both cage
  handlers (`NewCageWithinBounds`, `UpdateKeepsCapacityNonNegative`), but not
  by the species update: a species quantity has no constraint, and a negative
  quantity given to `PATCH /species/:id` is written onto the cage as its
  capacity (see Findings).

Derived store invariants, kept by every handler (`Store.Valid`): every cage
status is `ACTIVE` or `DOWN`, and no stored quantity or maxCapacity is 0. An
insert replaces a zero by its default, and a partial update never writes a
zero.

## Model

| member | source | states |
|---|---|---|
| `Models.StatusAllowed` | models/cage.go:14 | The check constraint admits exactly `ACTIVE` and `DOWN`; an admitted status is never the empty string. |
| `Models.ColumnValue` | models/cage.go:10-11 | A column with a default keeps a nonzero given value and takes the default for a zero one; a nonzero default never leaves the column at 0. |
| `Models.NewCage` | models/cage.go:9-14 | The inserted cage has the given capacity and status, CageID 0, and maxCapacity 4 when none was given, so maxCapacity is never 0. |
| `Models.NewSpecies` | models/species.go:9-12 | The inserted species has the given name and diet, no cage, and quantity 1 when none was given, so quantity is never 0. |
| `Models.Occupants` | models/cage.go:13 | A cage's species list holds exactly the species rows whose CageID is the cage's id, unchanged. |
| `Models.OccupantsDisjoint` | models/species.go:10 | The species lists of two different cage ids share no row. |
| `Models.RowListedUnderItsCage` | models/species.go:10 | Each species row is in the list of the cage id it carries and in no other. |
| `Models.NewCageWithinBounds` | controllers/cage.go:66-77 | A cage that passed the create checks is stored with 0 <= capacity <= maxCapacity and a positive maxCapacity. |
| `CageController.CreateCageRejection` | controllers/cage.go:52-73 | Create is accepted iff the status is non-empty and 0 <= capacity <= maxCapacity. It is rejected for the empty status first, then a negative capacity, then a maxCapacity below the capacity. |
| `CageController.CapacityAfterReset` | controllers/cage.go:121-127 | The capacity read back before the power-down check is 0 when the body omits it and the stored capacity otherwise. |
| `CageController.UpdateCageRejection` | controllers/cage.go:109-132 | Update is rejected for a negative input capacity. It is rejected for capacity > maxCapacity only when both inputs are nonzero. It is rejected for DOWN only when a positive capacity is given and the stored capacity is positive. Nothing else is rejected. |
| `CageController.OmittedCapacityPowersDown` | controllers/cage.go:121-132 | A DOWN request that omits the capacity is never refused, whatever the cage holds. |
| `CageController.CorrectedUpdateCageRejection` | controllers/cage.go:125-132 | The corrected guard reads the capacity before the reset: a DOWN request for a cage with positive capacity is always refused, and every other outcome equals the code's. |
| `CageController.PowerDownGuardsDiffer` | controllers/cage.go:121-132 | The code's guard and the corrected one differ exactly on `DOWN` with the capacity omitted for a cage with positive capacity. |
| `CageController.MergeCage` | controllers/cage.go:134 | The partial update writes each nonzero or non-empty input field and keeps every other column. |
| `CageController.MergeCageIdempotent` | controllers/cage.go:134 | Applying the same cage update twice equals applying it once. |
| `CageController.MergeCageEmpty` | controllers/cage.go:134 | An update body with every field zero or empty leaves the row unchanged. |
| `CageController.UpdatedCage` | controllers/cage.go:121-134 | After an accepted update an omitted capacity is 0 and the status stays within the check constraint. The row is the partial update applied after the reset, or just the reset when the database refuses the new status. |
| `CageController.UpdateCanExceedMaxCapacity` | controllers/cage.go:114-134 | An accepted update can leave capacity above maxCapacity: capacity 5 with maxCapacity omitted on a default cage. |
| `CageController.UpdateKeepsCapacityNonNegative` | controllers/cage.go:109-134 | An accepted update of a cage with non-negative capacity leaves its capacity non-negative (models/cage.go:5). |
| `CageController.CagesWithStatus` | controllers/cage.go:38-46 | The status filter returns exactly the cages whose status equals the parameter, unchanged. |
| `CageController.StatusFiltersPartition` | models/cage.go:14 | Under the check constraint the ACTIVE and DOWN filters are disjoint and together give the whole table; any other status finds nothing. |
| `CageController.FindCage` | controllers/cage.go:26-34 | Find-by-id returns a cage iff the id is stored, together with exactly the species rows naming it. |
| `SpeciesController.StatusOf` | controllers/species.go:93-101 | The destination status is the cage's status, or empty when no cage has that id. |
| `SpeciesController.MovesIntoDownCage` | controllers/species.go:94-104 | The update's cage guard fires iff the input cageId is nonzero, names an existing cage, and that cage is DOWN. |
| `SpeciesController.MergeSpecies` | controllers/species.go:107 | The partial update writes each nonzero or non-empty input field and keeps every other column. |
| `SpeciesController.MergeSpeciesIdempotent` | controllers/species.go:107 | Applying the same species update twice equals applying it once. |
| `SpeciesController.MergeKeepsNonZero` | controllers/species.go:107 | An update cannot bring a nonzero quantity or a nonzero cageId back to 0. |
| `SpeciesController.SpeciesNamed` | controllers/species.go:33-41 | The name filter returns exactly the species whose name equals the parameter, unchanged. |
| `SpeciesController.SpeciesNamedOwnName` | controllers/species.go:33-41 | Every species row is found by the filter for its own name. |
| `SpeciesController.SpeciesNamedDisjoint` | controllers/species.go:33-41 | The filters for two different names share no row, for every table. |
| `SpeciesController.SumQuantity` | controllers/species.go:111 | `SUM(quantity)` over a set of species rows: 0 over no rows (the model's convention; SQL gives NULL there, and `Store.UpdateSpecies` never sums an empty set, because an unknown species is rejected first), and never negative when no summed quantity is negative. |
| `SpeciesController.SumQuantityRemove` | controllers/species.go:111 | `SUM(quantity)` over a set of rows equals any one row's quantity plus the sum over the rest. |
| `SpeciesController.RowQuantitySum` | controllers/species.go:111 | The aggregate `SUM(quantity) ... WHERE id = ?` for a stored species is that species' own quantity, because ids are unique; for an unknown id it is 0, a case the model fixes by convention and `Store.UpdateSpecies` never reaches, since it rejects an unknown species first. |
| `SpeciesController.Occupancy` | controllers/species.go:110 | The corrected aggregate: the sum over the rows that name the cage. It is 0 for a cage no row names, and never negative when no occupant's quantity is negative. |
| `SpeciesController.OccupancySplit` | controllers/species.go:109-118 | A cage's occupancy (the sum over the rows naming it) is one occupant's quantity plus the sum over its cagemates. |
| `SpeciesController.WriteBackIsOccupancyIff` | controllers/species.go:109-118 | The capacity written back equals the cage's occupancy iff the updated species' cagemates sum to zero. |
| `SpeciesController.WriteBackMissesCagemates` | controllers/species.go:111-118 | With groups of 3 and 2 in one cage, the written capacity is 2 while the cage holds 5. |
| `SpeciesController.WriteBackCanGoNegative` | controllers/species.go:94-118 | A body with quantity -3 passes the guard and the value written onto the cage is -3, breaking `capacity >= 0` (models/cage.go:5). |
| `SpeciesController.CorrectedSpeciesRejection` | controllers/species.go:94-104 | The corrected guard refuses a negative quantity first, then a move into a DOWN cage, and accepts everything else. |
| `SpeciesController.CorrectedWriteBackNonNegative` | models/cage.go:5 | Under the corrected guard, starting from non-negative quantities, the value written back and every cage's occupancy are non-negative. |
| `Handlers.Store.Valid` | models/cage.go:10-14 | The store invariant every handler keeps: ids lie between 1 and the table's counter, so id 0 names no row; every status satisfies the check constraint; no maxCapacity and no species quantity is 0 (defaults 4 and 1, models/species.go:12). |
| `Handlers.Store.CreateCage` | controllers/cage.go:57-80 | A rejection leaves both tables unchanged. On acceptance exactly one cage with the input capacity, defaulted maxCapacity and status is added under a fresh id, and the input species are ignored. A status the check constraint refuses stores nothing and replies id 0. |
| `Handlers.Store.UpdateCage` | controllers/cage.go:94-137 | An unknown id or a rejected body leaves both tables unchanged. Otherwise only that cage changes, to `UpdatedCage` of its old row. Species are never touched. |
| `Handlers.Store.DeleteCage` | controllers/cage.go:141-151 | An unknown id is rejected. Otherwise exactly that cage is removed, and species naming it are untouched. |
| `Handlers.Store.CreateSpecies` | controllers/species.go:45-59 | Rejected iff the name or diet is empty, with nothing stored. Otherwise one species with the input name, diet and defaulted quantity and cageId 0 is added under a fresh id. Cages are untouched. |
| `Handlers.Store.UpdateSpecies` | controllers/species.go:77-125 | An unknown id or a move into a DOWN cage is rejected with no change; a missing destination cage is accepted. On acceptance the species row gets the partial update. With a nonzero input quantity, the cage the row now names, if stored, gets capacity equal to `SUM(quantity)` over this species' rows, which is its own quantity; no other cage changes. |
| `Handlers.Store.DeleteSpecies` | controllers/species.go:129-139 | An unknown id is rejected. Otherwise exactly that species is removed, and no cage changes. |
| `Scenarios.PowerDownWithCapacityOmitted` | controllers/cage.go:121-134 | A cage holding a group of 4 (capacity 4) is powered down by `{status: DOWN}` and ends with capacity 0 while the group still names it. |
| `Scenarios.PowerDownWithCapacityGiven` | controllers/cage.go:126-132 | `{capacity: 4, status: DOWN}` on that cage is refused and the cage is unchanged. |
| `Scenarios.CreateCageWithUnknownStatus` | models/cage.go:14 | A create with a status outside the constraint replies id 0 and stores no cage. |
| `Scenarios.RelocationWriteBack` | controllers/species.go:107-122 | Moving groups of 3 and then 2 into one cage leaves its capacity at 2 while it lists both groups. |
| `Scenarios.NegativeQuantityWriteBack` | controllers/species.go:107-118 | A group of 2 in cage 1 updated with quantity -3 is accepted and the cage's capacity becomes -3. |
| `Scenarios.MoveIntoDownOrMissingCage` | controllers/species.go:94-107 | A move into a DOWN cage is refused and the species stays unassigned; a move into a nonexistent cage id is stored. |

## Left out

- HTTP plumbing: routing (main.go), response envelopes and status codes. A reply is only `Done`, `Created(id)` or `Rejected(error)`. What the handlers echo back in a reply's data is not modelled.
- JSON binding is modelled only as the `required` check on non-empty strings. Malformed JSON, type mismatches and integers outside Go's 64-bit `int` are binding errors that are not modelled. Integers are unbounded.
- The `:id` path parameter is a string in the source; the model takes an integer id, and a non-numeric id behaves like an unknown one.
- The `Species` field of the cage update body (controllers/cage.go:88): GORM may upsert association rows from it. Not modelled.
- The `gorm.Model` fields of the update bodies (ID, timestamps) and all timestamps. A soft delete is modelled as removing the row, because every query in the handlers skips soft-deleted rows.
- Store failures, other than the check-constraint refusal, are left out. This includes the error branches at controllers/species.go:111-121.
- `FindCages` and `FindSpecies` return a whole table: the `cages` or `species` map itself, not a separate member. No read handler's row order is modelled.
- Database connection, logger and seed data (models/setup.go) are I/O; `Store` starts empty. main_test.go runs against a live database.
- Debug printing and concurrency: each handler is one atomic method.
- Diet and carnivore compatibility rules are not modelled, because no code enforces them.

## Findings

| source | as written | input that shows it | evidently intended | confidence | as-written member | corrected member |
|---|---|---|---|---|---|---|
| controllers/species.go:111 | After a species update, the cage capacity is set to `SUM(quantity)` over rows `WHERE id = <species id>`, which is that one group's quantity. | Cage 5 holds Triceratops (3); `PATCH /species/2 {cageId: 5, quantity: 2}` moves Stegosaurus (2) in, and cage 5's capacity becomes 2. | The capacity becomes the sum over all rows whose `cage_id` is the cage (5 here), as the comment at controllers/species.go:110 says. | high; not executed | `SpeciesController.WriteBackMissesCagemates` | `SpeciesController.OccupancySplit` |
| controllers/cage.go:121-129 | An omitted capacity is written as 0 before the guard reads the capacity, so the guard sees 0. | Cage 1 holds a group of 4 (capacity 4); `PATCH /cage/1 {status: DOWN}` passes and the cage is DOWN with capacity 0 while the group still names it. | An occupied cage cannot be powered down, as the comment at controllers/cage.go:125 says: the guard reads the capacity stored before the reset. | high; not executed | `Scenarios.PowerDownWithCapacityOmitted` | `CageController.CorrectedUpdateCageRejection` |
| controllers/species.go:94-118 | No guard checks the quantity, and the quantity is written onto the cage as its capacity. | Cage 1 holds a group of 2; `PATCH /species/1 {cageId: 1, quantity: -3}` is accepted and cage 1's capacity becomes -3. | Every cage keeps `capacity >= 0` (models/cage.go:5): a negative quantity is refused, as the cage update refuses a negative capacity. | medium; not executed | `Scenarios.NegativeQuantityWriteBack` | `SpeciesController.CorrectedWriteBackNonNegative` |

`SpeciesController.Occupancy` is the corrected aggregate. `OccupancySplit` and
`WriteBackIsOccupancyIff` relate it to the aggregate the code writes. The
handler `Store.UpdateSpecies` keeps the behaviour as written, because the model
follows the code.

For the power-down row, `CorrectedUpdateCageRejection` is the corrected guard
and `PowerDownGuardsDiffer` names the requests on which it and the code's
`UpdateCageRejection` disagree. For the negative-quantity row,
`CorrectedSpeciesRejection` is the corrected guard and
`WriteBackCanGoNegative` is the as-written case at the level of the pure
functions. In both cases `Store.UpdateCage` and `Store.UpdateSpecies` keep the
guards as written.
