/** The enumerations the daemon's components exchange: queue events and group messages. */
module ColodTypes {

  datatype Option<+T> = None | Some(value: T)

  datatype ColodEvent =
    | EventFailed
    | EventPeerFailover
    | EventQuit
    | EventAutoquit
    | EventFailoverSync
    | EventFailoverWin
    | EventYellow
    | EventUnyellow
    | EventStartMigration

  datatype ColodMessage =
    | MessageNone
    | MessageFailover
    | MessageFailed
    | MessageHello
    | MessageYellow
    | MessageUnyellow

  /** The events no state may postpone. */
  const AlwaysInterrupting: set<ColodEvent> := {EventFailed, EventPeerFailover, EventQuit, EventAutoquit}
}
