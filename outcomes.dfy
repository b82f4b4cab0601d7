/**
 * What a handler answers: the error kinds the controllers report, and the
 * three shapes of reply (an update or delete that went through, a create
 * that went through with the id of the new row, or a rejection).
 */
module Outcomes {

  datatype Option<+T> = None | Some(value: T)

  /** The rejections the cage and species handlers issue. */
  datatype Error =
    | MissingField        // a `binding:"required"` string field is empty
    | NotFound            // `First` found no row with the requested id
    | NegativeCapacity    // "capacity is less than zero"
    | MaxBelowCapacity    // create: "max capacity is less than capacity"
    | CapacityExceedsMax  // update: "capacity exceeds max capacity"
    | PowerDownOccupied   // "cannot power down cage with capacity > 0"
    | CageDown            // "cannot move to cage with DOWN status"
    | NegativeQuantity    // issued only by the corrected species guard (see Findings)

  datatype Reply =
    | Done
    | Created(id: int)
    | Rejected(error: Error)
}
