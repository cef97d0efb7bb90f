// Failure values shared by the whole model. Every `throw` of the source becomes
// a `Fail` carrying one of the `Error` values below; the run stops at the first one.
module Results {

  datatype Option<+T> = None | Some(value: T)

  /** Why an operation threw. */
  datatype Error =
    | ProductNotFound       // Store.getProduct: no entry with that product id
    | InsufficientAvailable // Store.reserve: available < quantity
    | InsufficientReserved  // Store.checkoutReservation: reserved < quantity
    | WrongDrone            // Drone.enqueueCommand: command for another drone
    | CapacityExceeded      // Drone.reserve: totalWeight + load weight > capacity
    | NothingReserved       // Drone.load: no payload entry, or reserved < quantity
    | NothingLoaded         // Drone.unload: no payload entry, or available < quantity
    | NoWarehouseWithStock  // planner: `first()` on an empty candidate list

  datatype Outcome = Pass | Fail(error: Error)

  datatype Result<+T> = Ok(value: T) | Err(error: Error)
}
