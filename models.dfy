/** The backend's value types: the two string unions and the two records behind them. */
module Models {
  import opened Wrappers

  /** A delivery medium, the union `'email' | 'sms' | 'in-app'`. */
  datatype Channel = Email | Sms | InApp

  /**
   * A notification's severity, the union `'low' | 'normal' | 'high'`. A request body is not
   * type-checked at run time, so it can carry any other string; `Unrecognized` keeps it.
   */
  datatype Importance = Low | Normal | High | Unrecognized(raw: UnknownTag)

  /** A string that is none of the three importance tags. */
  type UnknownTag = s: string | s != "low" && s != "normal" && s != "high" witness ""

  /** The context tag that unlocks email and SMS for low-importance notifications. */
  const OptIn: string := "opt-in"

  /** The wall-clock value `new Date()` yields; supplied from outside the model. */
  type Timestamp = nat

  /** A user's allow-list of channels; the list may repeat a channel or leave some out. */
  datatype UserPreference = UserPreference(userId: string, preferredChannels: seq<Channel>)

  /** The record built for one request; `context` is absent when the request omitted it. */
  datatype Notification = Notification(
    userId: string,
    message: string,
    importance: Importance,
    context: Option<string>,
    createdAt: Timestamp)

  /** The placeholder preference lookup: every user allows every channel. */
  function DefaultPreference(userId: string): (p: UserPreference)
    ensures p.userId == userId
    ensures Email in p.preferredChannels && Sms in p.preferredChannels && InApp in p.preferredChannels
    ensures |p.preferredChannels| == 3
  {
    UserPreference(userId, [Email, Sms, InApp])
  }
}
