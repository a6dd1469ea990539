/** Shared vocabulary: optional values, transactional outcomes and a symbolic digest. */
module Base {

  datatype Option<+T> = None | Some(value: T) {
    function GetOr(default: T): T {
      if Some? then value else default
    }
  }

  /** The exceptions a control-plane transaction can leave with. */
  datatype Error =
    | BadValue          // ValueError: a setting that does not parse, or an invalid network prefix
    | Exhausted         // RuntimeError: the address pool has no free host
    | NotFound          // LookupError / RouterCredentialError: the row does not exist
    | AlreadyAssigned   // RouterCredentialError: the client already belongs to a router
    | DifferentContent  // RuntimeError: one revision with two contents
    | KeyCollision      // sqlite3.IntegrityError on vpn_snapshots.revision
    | ConfigChanged     // the desired revision moved during an operation
    | Busy              // OperationBusyError: somebody else holds the lease
    | SafetyHold        // IpChangeSafetyHoldError
    | StaleDecision     // ValueError: a decision that was submitted before or no longer matches
    | NotReconcilable   // ValueError: no terminal hold to reconcile

  /** One `with get_db()` block: it commits a value, or raises and is rolled back. */
  datatype Tx<+T> = Commit(value: T) | Raise(error: Error) {
    predicate IsFailure() {
      Raise?
    }

    function PropagateFailure<U>(): Tx<U>
      requires Raise?
    {
      Raise(error)
    }

    function Extract(): T
      requires Commit?
    {
      value
    }

    /** What the table holds afterwards, given what it held before. */
    function Or(before: T): T {
      if Commit? then value else before
    }
  }

  /** SHA-256, kept symbolic: equal digests mean equal contents. */
  datatype Digest<+T> = Digest(of: T)
}
