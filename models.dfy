/**
 * The two record types of the park (models/cage.go, models/species.go).
 *
 * The `gorm.Model` part (ID and timestamps) is not a field here: the id is the
 * key under which a row is stored in a table (`map<int, _>`), and a deleted row
 * is simply absent from its table.
 */
module Models {

  /** A row of the cages table. `cageId` is the record's own `CageID` column,
      distinct from the row id. */
  datatype Cage = Cage(cageId: int, capacity: int, maxCapacity: int, status: string)

  /** A row of the species table; `cageId` 0 means not in any cage. */
  datatype Species = Species(name: string, cageId: int, diet: string, quantity: int)

  const Active: string := "ACTIVE"
  const Down: string := "DOWN"

  /** Column defaults, applied by an insert to a field left at its zero value. */
  const DefaultCapacity: int := 0
  const DefaultMaxCapacity: int := 4
  const DefaultQuantity: int := 1

  /** The check constraint on the status column. Species has no such constraint:
      its name and diet are any strings and its quantity any integer. */
  predicate StatusAllowed(status: string)
    ensures StatusAllowed(status) ==> status != ""
  {
    status == Active || status == Down
  }

  /** The value an insert stores for a column with a default: a zero value counts
      as "not supplied" and is replaced by the default. */
  function ColumnValue(given: int, default: int): (stored: int)
    ensures given != 0 ==> stored == given
    ensures given == 0 ==> stored == default
    ensures default != 0 ==> stored != 0
  {
    if given == 0 then default else given
  }

  /** The cage row an insert of `Cage{Capacity, MaxCapacity, Status}` stores. */
  function NewCage(capacity: int, maxCapacity: int, status: string): (c: Cage)
    ensures c.cageId == 0 && c.status == status
    ensures c.capacity == capacity
    ensures c.maxCapacity == if maxCapacity == 0 then DefaultMaxCapacity else maxCapacity
    ensures c.maxCapacity != 0
  {
    Cage(0, ColumnValue(capacity, DefaultCapacity), ColumnValue(maxCapacity, DefaultMaxCapacity), status)
  }

  /** The species row an insert of `Species{Name, Diet, Quantity}` stores. */
  function NewSpecies(name: string, diet: string, quantity: int): (s: Species)
    ensures s.name == name && s.diet == diet && s.cageId == 0
    ensures s.quantity == if quantity == 0 then DefaultQuantity else quantity
    ensures s.quantity != 0
  {
    Species(name, 0, diet, ColumnValue(quantity, DefaultQuantity))
  }

  /** The cage's has-many `Species` association: the species rows whose `CageID`
      is the cage's id. */
  function Occupants(rows: map<int, Species>, cageId: int): (r: map<int, Species>)
    ensures forall sid :: sid in r <==> sid in rows && rows[sid].cageId == cageId
    ensures forall sid :: sid in r ==> r[sid] == rows[sid]
  {
    map sid | sid in rows && rows[sid].cageId == cageId :: rows[sid]
  }

  /** A species row carries one `CageID`, so it is listed by exactly one cage id:
      the lists of any two different cage ids are disjoint. */
  lemma OccupantsDisjoint(rows: map<int, Species>, a: int, b: int)
    requires a != b
    ensures Occupants(rows, a).Keys !! Occupants(rows, b).Keys
  {
  }

  /** Every species row appears in the list of the cage id it carries. */
  lemma RowListedUnderItsCage(rows: map<int, Species>, sid: int)
    requires sid in rows
    ensures sid in Occupants(rows, rows[sid].cageId)
    ensures forall c :: c != rows[sid].cageId ==> sid !in Occupants(rows, c)
  {
  }

  /** An insert that passed the create handler's bounds check stores a cage
      with 0 <= capacity <= maxCapacity, the zero maxCapacity replaced by 4. */
  lemma NewCageWithinBounds(capacity: int, maxCapacity: int, status: string)
    requires 0 <= capacity <= maxCapacity
    ensures var c := NewCage(capacity, maxCapacity, status);
      0 <= c.capacity <= c.maxCapacity && 0 < c.maxCapacity
  {
  }
}
