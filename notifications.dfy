/** What the core asks the notification layer to show. Presentation (channels, intents,
    icons) belongs to the Android notification manager and is not modelled. */
module Notifications {
  import LogEntries

  datatype Notification =
    | AccessLog(entry: LogEntries.LogEntry)   // `showAccessLogNotification(context, entry)`
    | AccessLogText(body: string)             // `showAccessLogNotification(context, body)`
    | LoggedOut                               // `showLogoutNotification`

  /** The notifications shown so far, oldest first. */
  class Notifier {
    var shown: seq<Notification>

    constructor()
      ensures shown == []
    {
      shown := [];
    }

    method Show(n: Notification)
      modifies this
      ensures shown == old(shown) + [n]
    {
      shown := shown + [n];
    }
  }
}
