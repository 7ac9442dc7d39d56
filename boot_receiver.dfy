/**
 * ScheduledNotificationBootReceiver: after a boot or an app update, ask the
 * plugin to reschedule every stored notification. The action string is
 * matched exactly (`String.equals`) against four constants; a null action
 * or any other string does nothing.
 */
module BootReceiver {
  import opened Common

  /** `Intent.ACTION_BOOT_COMPLETED`. */
  const ActionBootCompleted: string := "android.intent.action.BOOT_COMPLETED"
  /** `Intent.ACTION_MY_PACKAGE_REPLACED`. */
  const ActionMyPackageReplaced: string := "android.intent.action.MY_PACKAGE_REPLACED"
  const QuickbootPoweron: string := "android.intent.action.QUICKBOOT_POWERON"
  const HtcQuickbootPoweron: string := "com.htc.intent.action.QUICKBOOT_POWERON"

  /** The actions that trigger rescheduling, as a set. */
  const AllowList: set<string> := {ActionBootCompleted, ActionMyPackageReplaced, QuickbootPoweron, HtcQuickbootPoweron}

  /** The one call this receiver can make. */
  datatype Effect = RescheduleNotifications

  /** The guard of `onReceive`: non-null and equal to one of the four actions. */
  predicate ShouldReschedule(action: Option<string>) {
    action.Some? &&
      (action.value == ActionBootCompleted
       || action.value == ActionMyPackageReplaced
       || action.value == QuickbootPoweron
       || action.value == HtcQuickbootPoweron)
  }

  /** `onReceive`: the calls made for an intent with this action. */
  function OnReceive(action: Option<string>): (r: seq<Effect>)
    ensures r == [] || r == [RescheduleNotifications]
    ensures r == [RescheduleNotifications] <==> action.Some? && action.value in AllowList
  {
    if ShouldReschedule(action) then [RescheduleNotifications] else []
  }

  /** A null action never reschedules. */
  lemma NullActionIgnored()
    ensures OnReceive(None) == []
  {
  }

  /** Each of the four actions reschedules exactly once. */
  lemma AllowedActionsRescheduleOnce()
    ensures OnReceive(Some(ActionBootCompleted)) == [RescheduleNotifications]
    ensures OnReceive(Some(ActionMyPackageReplaced)) == [RescheduleNotifications]
    ensures OnReceive(Some(QuickbootPoweron)) == [RescheduleNotifications]
    ensures OnReceive(Some(HtcQuickbootPoweron)) == [RescheduleNotifications]
  {
  }

  /** Matching is case-sensitive: a lower-cased boot action is not recognised. */
  lemma MatchIsCaseSensitive()
    ensures OnReceive(Some("android.intent.action.boot_completed")) == []
  {
    assert "android.intent.action.boot_completed"[22] != ActionBootCompleted[22];
  }
}
