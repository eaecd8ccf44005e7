/** Identifiers and lifecycle states shared by the embedded engine and the server (`timer.rs`). */
module Timers {
  type TimerId = string
  type RunId = string

  datatype TimerState = Scheduled | Running | Retrying | Dead | Orphaned | Paused | Cancelled
}
