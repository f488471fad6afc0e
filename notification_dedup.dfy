/** The notification de-duplication service
    (src/services/notification-deduplication.service.ts): an in-memory map from a
    notification key to the time (ms) it was last marked as sent, consulted before
    the database when deciding whether a notification would be a duplicate, and
    cleared of entries older than a day. The database lookup is an oracle: a
    boolean parameter saying whether it found a recent sent notification. The clock
    is a parameter too. */
module NotificationDedup {
  import opened Common
  import opened NotificationConfig

  const MinuteMs: int := 60 * 1000

  /** `CACHE_CLEANUP_INTERVAL`: 24 hours in milliseconds. */
  const CacheCleanupIntervalMs: int := CacheCleanupIntervalHours * 60 * 60 * 1000

  /** JavaScript truthiness of an optional id or count: present and not zero. */
  predicate TruthyInt(n: Option<int>)
  {
    n.Some? && n.value != 0
  }

  /** Both the tournament id and the reminder type are given (truthy). */
  predicate NamesReminder(tournamentId: Option<nat>, reminderType: Option<string>)
  {
    tournamentId.Some? && tournamentId.value != 0 && Truthy(reminderType)
  }

  /** `generateNotificationKey`: user and type, followed by the tournament and the
      reminder type when both are given. */
  function NotificationKey(userId: nat, kind: string, tournamentId: Option<nat>, reminderType: Option<string>): (k: string)
    ensures NatToString(userId) + "_" + kind <= k
    ensures |k| > |NatToString(userId) + "_" + kind| <==> NamesReminder(tournamentId, reminderType)
  {
    if NamesReminder(tournamentId, reminderType) then
      NatToString(userId) + "_" + kind + "_" + NatToString(tournamentId.value) + "_" + reminderType.value
    else
      NatToString(userId) + "_" + kind
  }

  /** What follows the type in a key. */
  function KeyTail(tournamentId: Option<nat>, reminderType: Option<string>): string
  {
    if NamesReminder(tournamentId, reminderType) then
      "_" + (NatToString(tournamentId.value) + "_" + reminderType.value)
    else ""
  }

  lemma KeyParts(userId: nat, kind: string, tournamentId: Option<nat>, reminderType: Option<string>)
    ensures NotificationKey(userId, kind, tournamentId, reminderType) ==
      NatToString(userId) + "_" + (kind + KeyTail(tournamentId, reminderType))
  {
    var head := NatToString(userId) + "_";
    if NamesReminder(tournamentId, reminderType) {
      var t, m := NatToString(tournamentId.value), reminderType.value;
      calc {
        NotificationKey(userId, kind, tournamentId, reminderType);
        head + kind + "_" + t + "_" + m;
        { SeqAssoc5(head, kind, "_", t, "_", m); }
        head + (kind + ("_" + (t + "_" + m)));
      }
    }
  }

  lemma SeqAssoc5(a: string, b: string, c: string, d: string, e: string, f: string)
    ensures a + b + c + d + e + f == a + (b + (c + (d + e + f)))
  {
  }

  /** Two digit strings followed by an underscore can only be split one way. */
  lemma DigitsThenUnderscore(a: string, b: string, x: string, y: string)
    requires forall i :: 0 <= i < |a| ==> '0' <= a[i] <= '9'
    requires forall i :: 0 <= i < |b| ==> '0' <= b[i] <= '9'
    requires a + "_" + x == b + "_" + y
    ensures a == b && x == y
  {
    var l := a + "_" + x;
    var r := b + "_" + y;
    assert forall k :: 0 <= k < |a| ==> l[k] != l[|a|];
    assert forall k :: 0 <= k < |b| ==> r[k] != r[|b|];
    FirstIndexOfUnique(l, |a|);
    FirstIndexOfUnique(r, |b|);
    assert |a| == |b|;
    assert a == l[..|a|] && b == r[..|b|];
    assert x == l[|a| + 1..] && y == r[|b| + 1..];
  }

  /** For one notification type, the key tells apart the user, whether a
      tournament reminder is meant, and which tournament and reminder. */
  lemma KeyIdentifiesNotification(kind: string, u1: nat, t1: Option<nat>, r1: Option<string>,
                                  u2: nat, t2: Option<nat>, r2: Option<string>)
    requires NotificationKey(u1, kind, t1, r1) == NotificationKey(u2, kind, t2, r2)
    ensures u1 == u2
    ensures NamesReminder(t1, r1) == NamesReminder(t2, r2)
    ensures NamesReminder(t1, r1) ==> t1 == t2 && r1 == r2
  {
    var tail1, tail2 := KeyTail(t1, r1), KeyTail(t2, r2);
    KeyParts(u1, kind, t1, r1);
    KeyParts(u2, kind, t2, r2);
    DigitsThenUnderscore(NatToString(u1), NatToString(u2), kind + tail1, kind + tail2);
    NatToStringInjective(u1, u2);
    assert tail1 == (kind + tail1)[|kind|..];
    assert tail2 == (kind + tail2)[|kind|..];
    if NamesReminder(t1, r1) && NamesReminder(t2, r2) {
      assert tail1[1..] == NatToString(t1.value) + "_" + r1.value;
      assert tail2[1..] == NatToString(t2.value) + "_" + r2.value;
      DigitsThenUnderscore(NatToString(t1.value), NatToString(t2.value), r1.value, r2.value);
      NatToStringInjective(t1.value, t2.value);
    }
  }

  /** The cache's answer: an entry for the key stamped less than the window ago
      (strictly). */
  predicate SentWithin(cache: map<string, int>, key: string, now: int, windowMinutes: int)
  {
    key in cache && now - cache[key] < windowMinutes * MinuteMs
  }

  /** What `cleanupCache` leaves: every entry at most a day old, untouched. */
  function Cleaned(cache: map<string, int>, now: int): (r: map<string, int>)
    ensures forall k :: k in r <==> k in cache && now - cache[k] <= CacheCleanupIntervalMs
    ensures forall k :: k in r ==> r[k] == cache[k]
  {
    map k | k in cache && now - cache[k] <= CacheCleanupIntervalMs :: cache[k]
  }

  /** Cleaning twice at the same instant is cleaning once, and an entry stamped now
      is never cleaned away. */
  lemma CleanedProperties(cache: map<string, int>, now: int, key: string)
    ensures Cleaned(Cleaned(cache, now), now) == Cleaned(cache, now)
    ensures key in Cleaned(cache[key := now], now) && Cleaned(cache[key := now], now)[key] == now
  {
  }

  /** A notification record as created: `data` carries the reminder's tournament. */
  datatype ReminderData = ReminderData(tournamentId: nat, tournamentName: string, reminderType: string)

  datatype Notification = Notification(
    userId: nat, kind: string, title: string, body: string,
    sendAt: int, isSent: bool, data: Option<ReminderData>)

  /** The reminder `createTournamentNotificationWithDeduplication` creates. */
  function TournamentReminder(tournamentId: nat, name: string, userId: nat, reminderType: string, now: int): Notification
  {
    Notification(userId, "tournament_reminder", "Tournament Reminder: " + name,
      "Your tournament \"" + name + "\" starts in " + reminderType + ". Get ready!",
      now, false, Some(ReminderData(tournamentId, name, reminderType)))
  }

  /** `timeWindowMinutes || getDeduplicationWindow(kind)`. */
  function WindowOrDefault(timeWindowMinutes: Option<int>, kind: string): (w: int)
    ensures TruthyInt(timeWindowMinutes) ==> w == timeWindowMinutes.value
    ensures !TruthyInt(timeWindowMinutes) ==> w == GetDeduplicationWindow(kind)
  {
    if TruthyInt(timeWindowMinutes) then timeWindowMinutes.value else GetDeduplicationWindow(kind)
  }

  /** The service's static cache. */
  class DedupCache {
    var sentNotifications: map<string, int>

    constructor ()
      ensures sentNotifications == map[]
    {
      sentNotifications := map[];
    }

    /** `hasNotificationBeenSent`: the cache, then the database. */
    method HasNotificationBeenSent(userId: nat, kind: string, tournamentId: Option<nat>,
                                   reminderType: Option<string>, windowMinutes: int, now: int,
                                   recentInDatabase: bool) returns (already: bool)
      ensures already <==>
        SentWithin(sentNotifications, NotificationKey(userId, kind, tournamentId, reminderType), now, windowMinutes) ||
        recentInDatabase
    {
      var key := NotificationKey(userId, kind, tournamentId, reminderType);
      var timeWindow := windowMinutes * 60 * 1000;
      if key in sentNotifications && now - sentNotifications[key] < timeWindow {
        return true;
      }
      return recentInDatabase;
    }

    /** `markNotificationAsSent`: stamp the key with the clock, then clean up. */
    method MarkNotificationAsSent(userId: nat, kind: string, tournamentId: Option<nat>,
                                  reminderType: Option<string>, now: int)
      modifies this`sentNotifications
      ensures sentNotifications ==
        Cleaned(old(sentNotifications)[NotificationKey(userId, kind, tournamentId, reminderType) := now], now)
    {
      var key := NotificationKey(userId, kind, tournamentId, reminderType);
      sentNotifications := sentNotifications[key := now];
      CleanupCache(now);
    }

    /** `cleanupCache`: collect the entries older than the interval, then delete
        them. */
    method CleanupCache(now: int)
      modifies this`sentNotifications
      ensures sentNotifications == Cleaned(old(sentNotifications), now)
    {
      ghost var before := sentNotifications;
      var entriesToDelete: seq<string> := [];
      var unseen := sentNotifications.Keys;
      while |unseen| > 0
        invariant unseen <= before.Keys && sentNotifications == before
        invariant forall k :: k in entriesToDelete <==>
          k in before && k !in unseen && now - before[k] > CacheCleanupIntervalMs
        decreases unseen
      {
        ghost var some := PickElement(unseen);
        var key :| key in unseen;
        if now - sentNotifications[key] > CacheCleanupIntervalMs {
          entriesToDelete := entriesToDelete + [key];
        }
        unseen := unseen - {key};
      }
      for i := 0 to |entriesToDelete|
        invariant forall k :: k in sentNotifications <==> k in before && k !in entriesToDelete[..i]
        invariant forall k :: k in sentNotifications ==> sentNotifications[k] == before[k]
      {
        assert entriesToDelete[..i + 1] == entriesToDelete[..i] + [entriesToDelete[i]];
        sentNotifications := sentNotifications - {entriesToDelete[i]};
      }
      assert entriesToDelete[..|entriesToDelete|] == entriesToDelete;
    }

    /** `createTournamentNotificationWithDeduplication`: nothing is created or
        marked when the reminder counts as already sent; otherwise one unsent
        reminder is created and its key marked. */
    method CreateTournamentNotificationWithDeduplication(tournamentId: nat, tournamentName: string,
                                                         userId: nat, reminderType: string,
                                                         timeWindowMinutes: Option<int>, now: int,
                                                         recentInDatabase: bool)
      returns (created: bool, notification: Option<Notification>)
      modifies this`sentNotifications
      ensures created <==>
        !(SentWithin(old(sentNotifications),
                     NotificationKey(userId, "tournament_reminder", Some(tournamentId), Some(reminderType)),
                     now, WindowOrDefault(timeWindowMinutes, "tournament_reminder")) ||
          recentInDatabase)
      ensures !created ==> notification == None && sentNotifications == old(sentNotifications)
      ensures created ==>
        notification == Some(TournamentReminder(tournamentId, tournamentName, userId, reminderType, now)) &&
        sentNotifications == Cleaned(old(sentNotifications)[
          NotificationKey(userId, "tournament_reminder", Some(tournamentId), Some(reminderType)) := now], now)
    {
      var window := WindowOrDefault(timeWindowMinutes, "tournament_reminder");
      var alreadySent := HasNotificationBeenSent(userId, "tournament_reminder", Some(tournamentId),
                                                 Some(reminderType), window, now, recentInDatabase);
      if alreadySent {
        return false, None;
      }
      notification := Some(TournamentReminder(tournamentId, tournamentName, userId, reminderType, now));
      MarkNotificationAsSent(userId, "tournament_reminder", Some(tournamentId), Some(reminderType), now);
      created := true;
    }

    /** `createSystemNotificationWithDeduplication`: the same rule on the two-part
        key of type `system`. */
    method CreateSystemNotificationWithDeduplication(userId: nat, title: string, body: string,
                                                     timeWindowMinutes: Option<int>, now: int,
                                                     recentInDatabase: bool)
      returns (created: bool, notification: Option<Notification>)
      modifies this`sentNotifications
      ensures created <==>
        !(SentWithin(old(sentNotifications), NotificationKey(userId, "system", None, None),
                     now, WindowOrDefault(timeWindowMinutes, "system")) ||
          recentInDatabase)
      ensures !created ==> notification == None && sentNotifications == old(sentNotifications)
      ensures created ==>
        notification == Some(Notification(userId, "system", title, body, now, false, None)) &&
        sentNotifications == Cleaned(old(sentNotifications)[NotificationKey(userId, "system", None, None) := now], now)
    {
      var window := WindowOrDefault(timeWindowMinutes, "system");
      var alreadySent := HasNotificationBeenSent(userId, "system", None, None, window, now, recentInDatabase);
      if alreadySent {
        return false, None;
      }
      notification := Some(Notification(userId, "system", title, body, now, false, None));
      MarkNotificationAsSent(userId, "system", None, None, now);
      created := true;
    }
  }

  /** Client of the service: a reminder created once is not created again for the
      same user, tournament and reminder type within the default hour, whatever the
      database says the second time. */
  method ReminderCreatedOnce(tournamentId: nat, name: string, userId: nat, reminderType: string,
                             now1: int, now2: int, inDatabase1: bool, inDatabase2: bool)
    returns (first: bool, second: bool)
    requires now2 - now1 < 60 * MinuteMs
    ensures first == !inDatabase1
    ensures first ==> !second
  {
    var service := new DedupCache();
    var n1, n2;
    first, n1 := service.CreateTournamentNotificationWithDeduplication(
      tournamentId, name, userId, reminderType, None, now1, inDatabase1);
    second, n2 := service.CreateTournamentNotificationWithDeduplication(
      tournamentId, name, userId, reminderType, None, now2, inDatabase2);
  }
}
