// The error log that stands for compiler/line_map.rs: every
// `display_error(NotificationInfo)` call of the core appends one entry.

module Diagnostics {
  /** The title and message of a `NotificationInfo`; the code excerpts it
      carries for printing are not part of the model. */
  datatype Notification = Notification(title: string, message: string)
}
