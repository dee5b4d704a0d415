/**
 * The session statuses and directions a USSD session uses. The status
 * constants and the DONE group belong to the session base class of the
 * channels module, which is not part of this model; only the statuses the
 * USSD code names are declared here.
 */
module Statuses {

  datatype Status = Initiated | Triggered | InProgress | Interrupted | Ending | Completed

  /** Pull is subscriber initiated ('I'), Push is server initiated ('O'). */
  datatype Direction = Pull | Push

  /**
   * The terminal statuses. Assumption: the base class's DONE group contains
   * at least COMPLETED and INTERRUPTED; of the statuses declared here, those
   * two are the only terminal ones.
   */
  const Done: set<Status> := {Completed, Interrupted}

  predicate IsDone(s: Status) {
    s in Done
  }
}
