/** The connection-update decision of main.js (handleConnectionUpdate):
    reconnect after a close unless the session was logged out, schedule
    the daily jobs once the connection opens. */
module Connection {
  import opened Outbound

  /** `DisconnectReason.loggedOut` of the WhatsApp Web client library. */
  const LoggedOut: int := 401

  datatype ConnectionState = Close | Open | Connecting

  /** The fields of a connection update the decision reads: the new state
      (absent in updates that only carry a QR code) and the status code of
      the disconnect error, when there is one. */
  datatype Update = Update(connection: Option<ConnectionState>, statusCode: Option<int>)

  datatype Decision = Reconnect | ScheduleJobs | Nothing

  /** `shouldReconnect = lastDisconnect?.error?.output?.statusCode !== DisconnectReason.loggedOut`. */
  predicate ShouldReconnect(statusCode: Option<int>) {
    statusCode != Some(LoggedOut)
  }

  /** handleConnectionUpdate for one update (`update || {}` when the update is missing). */
  function OnUpdate(update: Option<Update>): (d: Decision)
    ensures d == Reconnect <==>
              update.Some? && update.value.connection == Some(Close) && ShouldReconnect(update.value.statusCode)
    ensures d == ScheduleJobs <==> update.Some? && update.value.connection == Some(Open)
  {
    if update.None? then Nothing
    else
      match update.value.connection
      case Some(Close) => if ShouldReconnect(update.value.statusCode) then Reconnect else Nothing
      case Some(Open) => ScheduleJobs
      case _ => Nothing
  }

  /** A close reconnects unless the status code is exactly the logout code;
      a close without any disconnect error also reconnects. */
  lemma OnlyLogoutEndsSession(code: Option<int>)
    ensures OnUpdate(Some(Update(Some(Close), code))) == Nothing <==> code == Some(LoggedOut)
    ensures OnUpdate(Some(Update(Some(Close), None))) == Reconnect
  {
  }
}
