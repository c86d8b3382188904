/** The states of a service and the moves allowed between them. */
module State {
  datatype ServiceState = Disconnected | Starting | Connected | Reconnecting | Failed | Stopping

  /** Whether `Transition` accepts the move: the table of allowed moves, row by row. */
  predicate Allowed(from: ServiceState, to: ServiceState) {
    match from
    case Disconnected => to.Starting?
    case Starting => to.Connected? || to.Reconnecting? || to.Failed? || to.Stopping?
    case Connected => to.Reconnecting? || to.Stopping?
    case Reconnecting => to.Starting? || to.Failed? || to.Stopping?
    case Failed => to.Starting? || to.Stopping?
    case Stopping => to.Disconnected?
  }
}
