/**
 Values shared by every component: optional values, results, and the fixed transition
 tables that the services consult before they save a new state.
 */
module Domain {

  datatype Option<+T> = None | Some(value: T)

  /** An identifier: a subscriber, mail, request, batch, session token, and so on. */
  datatype Id = Id(text: string)

  datatype Result<+T, +E> = Ok(value: T) | Err(error: E)

  /** The accept/reject part of a state machine: a state may always "move" to itself. */
  predicate Validate<S(==)>(edges: set<(S, S)>, current: S, target: S) {
    current == target || (current, target) in edges
  }

  // ---------------------------------------------------------------- mail

  datatype MailState = Registered | Loaded | InTransit | Arrived | DualSigned
                     | MailCompleted | Intercepted | Redirected | ReturnedToSender

  datatype Mail = Mail(mailNo: string, state: MailState, receiverAddr: string,
                       dispositionId: string, version: int)

  // ---------------------------------------------------------------- batches

  datatype BatchState = BatchPending | Processing | BatchSucceeded | BatchRolledBack | BatchCompleted

  const BATCH_EDGES: set<(BatchState, BatchState)> :=
    { (BatchPending, Processing), (Processing, BatchSucceeded), (Processing, BatchRolledBack),
      (BatchRolledBack, Processing), (BatchSucceeded, BatchCompleted) }

  // ---------------------------------------------------------------- dispositions

  datatype DispositionState = Pending | UnderReview | Issued | Executing | Completed | Rejected | Withdrawn | Lost

  const DISPOSITION_EDGES: set<(DispositionState, DispositionState)> :=
    { (Pending, UnderReview), (Pending, Issued), (Pending, Rejected),
      (UnderReview, Issued), (UnderReview, Rejected),
      (Issued, Executing), (Executing, Completed),
      (Issued, Withdrawn), (Executing, Withdrawn), (Pending, Withdrawn),
      (Pending, Lost), (UnderReview, Lost), (Withdrawn, Pending) }

  predicate IsDispositionActive(state: DispositionState) {
    state.Pending? || state.UnderReview? || state.Issued? || state.Executing?
  }

  function Max(a: int, b: int): int { if a < b then b else a }

  function Min(a: int, b: int): int { if a < b then a else b }
}
