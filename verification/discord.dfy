/** The values the bots hand to the chat client's presence call: a status and
    an optional activity text ("Game" name). The client itself is not modelled. */
module Discord {
  import opened Base

  datatype PresenceStatus = OnlineStatus | IdleStatus | DndStatus | OfflineStatus | InvisibleStatus

  /** `change_presence(status=..., activity=...)` with an activity of `None` when absent. */
  datatype Presence = Presence(status: PresenceStatus, activity: Option<string>)

  /** `change_presence(**kwargs)` where each keyword may be left out: `None`
      for a keyword not passed, `Some(None)` for `activity=None`. */
  datatype PresenceUpdate = PresenceUpdate(status: Option<PresenceStatus>, activity: Option<Option<string>>)
}
