/** Result shapes shared by the models. Text identifiers (user, conversation, turn, run, ...) are opaque in the
    source: only equality and, in two places, the total order of the text matter. Natural numbers stand for them. */
module Common {
  datatype Option<+T> = None | Some(value: T)

  /** What one repository call does: it commits a new state and returns a value, or raises and commits nothing. */
  datatype Outcome<+S, +T, +E> = Done(state: S, value: T) | Raised(error: E)

  /** What the caller of a repository method sees. */
  datatype Attempt<+T, +E> = Returned(value: T) | Refused(error: E)

  function AttemptOf<S, T, E>(r: Outcome<S, T, E>): Attempt<T, E> {
    if r.Done? then Returned(r.value) else Refused(r.error)
  }

  type UserId = nat
  type ConversationId = nat
  type RunId = nat
  type WorkerId = nat
  type Time = int
}
