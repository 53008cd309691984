/** The life of a home-service booking, and who may move it where. */
module BookingStatus {

  datatype Status = AwaitingPayment | Pending | Confirmed | InProgress | Completed | Cancelled

  /** The statuses an admin's move can lead to; Confirmed is in none of them, since only an assignment leads there. */
  function AdminTransitions(from: Status): set<Status> {
    match from
    case AwaitingPayment => {}
    case Pending => {Cancelled}
    case Confirmed => {InProgress, Cancelled}
    case InProgress => {Completed}
    case Completed => {}
    case Cancelled => {}
  }

  /** The statuses a customer's cancel is allowed in. */
  const CUSTOMER_CANCELLABLE: set<Status> := {Pending, Confirmed}

  /** The statuses an assignment is allowed in. */
  const ASSIGNABLE: set<Status> := {Pending, Confirmed}
}
