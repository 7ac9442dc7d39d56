/**
 * ScheduledNotificationReceiver: what happens when a scheduled alarm fires.
 *
 * A null or empty NOTIFICATION_DETAILS extra selects the legacy path: read
 * the id (default 0) and the parcelled notification; a missing notification
 * is evicted from the cache and nothing is posted; otherwise its `when` is
 * set to the current time, it is posted with `notify`, and, unless the
 * `repeat` extra is true, evicted from the cache. A non-empty extra selects
 * the structured path: the decoded details are shown and then their next
 * occurrence is scheduled.
 */
module ScheduledReceiver {
  import opened Common

  /** The decoded `NotificationDetails`, identified by the JSON they came from. */
  datatype NotificationDetails = NotificationDetails(json: string)

  /** The legacy parcelled `android.app.Notification`; `content` stands for everything but `when`. */
  class Notification {
    const content: nat
    var when: int

    constructor (content: nat, when: int)
      ensures this.content == content && this.when == when
    {
      this.content := content;
      this.when := when;
    }
  }

  /** The extras of a scheduled-fire intent (the notification parcel is passed separately). */
  datatype ScheduledIntent = ScheduledIntent(detailsJson: Option<string>, notificationId: Option<int32>, repeat: Option<bool>)

  /** A call made into Android or the plugin, in the order made. */
  datatype Effect =
    | RemoveFromCache(id: int32)
    | Notify(id: int32, content: nat, when: int)
    | ShowNotification(details: NotificationDetails)
    | ScheduleNextNotification(details: NotificationDetails)

  /** `StringUtils.isNullOrEmpty`. */
  predicate IsNullOrEmpty(s: Option<string>) {
    s.None? || s.value == ""
  }

  /** `getIntExtra("notification_id", 0)`. */
  function LegacyId(intent: ScheduledIntent): int32 {
    if intent.notificationId.Some? then intent.notificationId.value else 0
  }

  /** `getBooleanExtra("repeat", false)`. */
  predicate Repeats(intent: ScheduledIntent) {
    intent.repeat == Some(true)
  }

  /**
   * The calls `onReceive` makes, given the content of the parcelled
   * notification (None when it is missing) and the current time.
   */
  function FireEffects(intent: ScheduledIntent, notification: Option<nat>, now: int): seq<Effect> {
    if IsNullOrEmpty(intent.detailsJson) then
      var id := LegacyId(intent);
      if notification.None? then [RemoveFromCache(id)]
      else [Notify(id, notification.value, now)] + (if Repeats(intent) then [] else [RemoveFromCache(id)])
    else
      var details := NotificationDetails(intent.detailsJson.value);
      [ShowNotification(details), ScheduleNextNotification(details)]
  }

  method OnReceive(intent: ScheduledIntent, notification: Notification?, now: int) returns (effects: seq<Effect>)
    modifies notification
    ensures effects == FireEffects(intent, if notification == null then None else Some(notification.content), now)
    ensures notification != null ==>
      notification.when == if IsNullOrEmpty(intent.detailsJson) then now else old(notification.when)
  {
    if intent.detailsJson.None? || intent.detailsJson.value == "" {
      var notificationId := if intent.notificationId.Some? then intent.notificationId.value else 0;
      if notification == null {
        // A corrupt legacy notification.
        return [RemoveFromCache(notificationId)];
      }
      notification.when := now;
      effects := [Notify(notificationId, notification.content, notification.when)];
      var repeat := intent.repeat.Some? && intent.repeat.value;
      if !repeat {
        effects := effects + [RemoveFromCache(notificationId)];
      }
    } else {
      var details := NotificationDetails(intent.detailsJson.value);
      effects := [ShowNotification(details)];
      effects := effects + [ScheduleNextNotification(details)];
    }
  }

  predicate IsEviction(e: Effect) { e.RemoveFromCache? }
  predicate IsPost(e: Effect) { e.Notify? || e.ShowNotification? }

  /** How many of `es` are evictions. */
  function Evictions(es: seq<Effect>): nat
    decreases |es|
  {
    if es == [] then 0 else (if IsEviction(es[0]) then 1 else 0) + Evictions(es[1..])
  }

  /** A null or empty details extra selects the legacy path, anything else the structured one. */
  lemma PathSelection(intent: ScheduledIntent, notification: Option<nat>, now: int)
    ensures var es := FireEffects(intent, notification, now);
      (forall e | e in es :: !e.ShowNotification? && !e.ScheduleNextNotification?) <==> IsNullOrEmpty(intent.detailsJson)
  {
    var es := FireEffects(intent, notification, now);
    if !IsNullOrEmpty(intent.detailsJson) {
      assert es[0] in es;
    }
  }

  /** A corrupt legacy notification is evicted once, under the id or 0, and nothing is posted. */
  lemma MissingLegacyNotification(intent: ScheduledIntent, now: int)
    requires IsNullOrEmpty(intent.detailsJson)
    ensures var es := FireEffects(intent, None, now);
      es == [RemoveFromCache(if intent.notificationId.Some? then intent.notificationId.value else 0)]
      && Evictions(es) == 1
      && forall e | e in es :: !IsPost(e)
  {
    var es := FireEffects(intent, None, now);
    assert es[1..] == [];
  }

  /**
   * A present legacy notification is posted first, stamped with the current
   * time, and then evicted exactly once unless it repeats.
   */
  lemma PresentLegacyNotification(intent: ScheduledIntent, content: nat, now: int)
    requires IsNullOrEmpty(intent.detailsJson)
    ensures var es := FireEffects(intent, Some(content), now);
      && es[0] == Notify(LegacyId(intent), content, now)
      && Evictions(es) == (if Repeats(intent) then 0 else 1)
      && forall i | 0 < i < |es| :: es[i] == RemoveFromCache(LegacyId(intent))
  {
    var es := FireEffects(intent, Some(content), now);
    var tail: seq<Effect> := if Repeats(intent) then [] else [RemoveFromCache(LegacyId(intent))];
    assert es == [Notify(LegacyId(intent), content, now)] + tail;
    assert es[1..] == tail;
    if tail != [] {
      assert tail[1..] == [];
      assert Evictions(tail) == 1 + Evictions([]);
    }
    assert Evictions(es) == 0 + Evictions(tail);
  }

  /** The structured path shows and then schedules the same details, and never evicts. */
  lemma StructuredPath(intent: ScheduledIntent, notification: Option<nat>, now: int)
    requires !IsNullOrEmpty(intent.detailsJson)
    ensures var es := FireEffects(intent, notification, now);
      && |es| == 2
      && es[0].ShowNotification? && es[1].ScheduleNextNotification?
      && es[0].details == es[1].details
      && Evictions(es) == 0
  {
    var es := FireEffects(intent, notification, now);
    assert es[1..] == [es[1]];
    assert es[1..][1..] == [];
    assert Evictions(es[1..]) == 0 + Evictions([]);
    assert Evictions(es) == 0 + Evictions(es[1..]);
  }

  /**
   * Without an id extra the legacy path uses id 0: a corrupt notification is
   * evicted as 0, and a present one is posted and evicted as 0.
   */
  lemma LegacyIdDefaultsToZero(intent: ScheduledIntent, notification: Option<nat>, now: int)
    requires IsNullOrEmpty(intent.detailsJson) && intent.notificationId.None?
    ensures notification.None? ==> FireEffects(intent, notification, now) == [RemoveFromCache(0)]
    ensures forall e | e in FireEffects(intent, notification, now) ::
      (e.RemoveFromCache? ==> e.id == 0) && (e.Notify? ==> e.id == 0)
  {
  }
}
