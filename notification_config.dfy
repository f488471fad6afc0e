/** Notification settings (src/config/notification.config.ts): the de-duplication
    windows, the reminder schedule, the cache clean-up interval and the validator
    for notification payloads. */
module NotificationConfig {
  import opened Common

  /** `DEDUPLICATION_WINDOWS`, in minutes. */
  const TournamentReminderWindow: int := 60
  const SystemNotificationWindow: int := 60
  const TournamentCreatedWindow: int := 30
  const AdminNotificationWindow: int := 60
  const DefaultWindow: int := 60

  /** `CACHE_CLEANUP.INTERVAL_HOURS`. */
  const CacheCleanupIntervalHours: int := 24

  /** `DISPLAY.MAX_NOTIFICATION_LENGTH`, in characters. */
  const MaxNotificationLength: nat := 200

  /** `getDeduplicationWindow`: 30 minutes for a tournament creation notice, an hour
      for every other type, known or not. */
  function GetDeduplicationWindow(kind: string): (w: int)
    ensures w == 30 <==> kind == "tournament_created"
    ensures w != 30 ==> w == 60
  {
    if kind == "tournament_reminder" then TournamentReminderWindow
    else if kind == "system" then SystemNotificationWindow
    else if kind == "tournament_created" then TournamentCreatedWindow
    else if kind == "admin" then AdminNotificationWindow
    else DefaultWindow
  }

  /** Every window is between a minute and an hour. */
  lemma WindowBounds(kind: string)
    ensures 1 <= GetDeduplicationWindow(kind) <= 60
  {
  }

  /** One entry of `TOURNAMENT_REMINDER_INTERVALS`: how long before the start it is
      sent, its label (`name`) and its reminder type. */
  datatype ReminderInterval = ReminderInterval(leadMinutes: nat, name: string, kind: string)

  /** The schedule, hours written as minutes. */
  const ReminderIntervals: seq<ReminderInterval> := [
    ReminderInterval(24 * 60, "1 day", "1day"),
    ReminderInterval(60, "1 hour", "1hour"),
    ReminderInterval(15, "15 minutes", "15min"),
    ReminderInterval(5, "5 minutes", "5min"),
    ReminderInterval(0, "now", "start")
  ]

  /** The reminders come by strictly decreasing lead time, ending at the start
      itself, and no two share a reminder type. */
  lemma ReminderScheduleOrdered()
    ensures forall i, j :: 0 <= i < j < |ReminderIntervals| ==>
      ReminderIntervals[i].leadMinutes > ReminderIntervals[j].leadMinutes &&
      ReminderIntervals[i].kind != ReminderIntervals[j].kind
    ensures ReminderIntervals[|ReminderIntervals| - 1].leadMinutes == 0
  {
  }

  /** A payload as the validator sees it: each field may be missing (`None`). */
  datatype NotificationData = NotificationData(kind: Option<string>, title: Option<string>, body: Option<string>)

  /** JavaScript truthiness of an optional string: present and not empty. */
  predicate Truthy(s: Option<string>)
  {
    s.Some? && s.value != ""
  }

  /** `validateNotificationData`: a payload with a type, and a title and body that
      are both non-empty and at most 200 characters. */
  function ValidateNotificationData(n: Option<NotificationData>): (ok: bool)
    ensures ok <==>
      (n.Some? && Truthy(n.value.kind) &&
       n.value.title.Some? && 0 < |n.value.title.value| <= MaxNotificationLength &&
       n.value.body.Some? && 0 < |n.value.body.value| <= MaxNotificationLength)
  {
    if n.None? then false
    else if !Truthy(n.value.kind) then false
    else if !Truthy(n.value.title) || |n.value.title.value| == 0 then false
    else if !Truthy(n.value.body) || |n.value.body.value| == 0 then false
    else if |n.value.title.value| > MaxNotificationLength then false
    else if |n.value.body.value| > MaxNotificationLength then false
    else true
  }

  /** The limit is inclusive: 200 characters pass, 201 do not, for title and body. */
  lemma LengthLimitBoundary(title: string, body: string)
    requires |title| == 200 && |body| == 200
    ensures ValidateNotificationData(Some(NotificationData(Some("system"), Some(title), Some(body))))
    ensures !ValidateNotificationData(Some(NotificationData(Some("system"), Some(title + "x"), Some(body))))
    ensures !ValidateNotificationData(Some(NotificationData(Some("system"), Some(title), Some(body + "x"))))
  {
  }
}
