/**
 * The notification record that the heads-up path reads, reduced to the parts it
 * looks at: category, flag bits, presence of extras, the intents, the custom
 * big content view and the action list.  Platform constants keep the values
 * the Android framework gives them.
 */
module Notifications {

  datatype Option<+T> = None | Some(value: T)

  /** An opaque PendingIntent handle; only its presence and identity matter here. */
  type PendingIntent = nat

  /** An opaque RemoteViews handle (a custom content view supplied by the app). */
  type RemoteViews = nat

  // Notification.flags bits
  const FLAG_ONGOING_EVENT: bv32 := 0x02
  const FLAG_AUTO_CANCEL: bv32 := 0x10
  const FLAG_FOREGROUND_SERVICE: bv32 := 0x40

  // Notification.category values
  const CATEGORY_CAR_EMERGENCY: string := "car_emergency"
  const CATEGORY_CAR_WARNING: string := "car_warning"
  const CATEGORY_MESSAGE: string := "msg"
  const CATEGORY_TRANSPORT: string := "transport"

  // NotificationManager.IMPORTANCE_HIGH
  const IMPORTANCE_HIGH: int := 4

  // CarUxRestrictions.UX_RESTRICTIONS_NO_TEXT_MESSAGE
  const UX_RESTRICTIONS_NO_TEXT_MESSAGE: bv32 := 0x80

  /** View.VISIBLE and View.GONE, the two visibilities this code uses. */
  datatype Visibility = Visible | Gone

  /** Notification.Action: a title and an optional intent. */
  datatype Action = Action(title: string, actionIntent: Option<PendingIntent>)

  /**
   * The notification's extras bundle: the two char sequences the emergency
   * template reads and whether the big-text and summary-text keys are present.
   */
  datatype Extras = Extras(
    title: Option<string>,
    text: Option<string>,
    hasBigText: bool,
    hasSummaryText: bool)

  datatype Notification = Notification(
    category: Option<string>,
    flags: bv32,
    extras: Extras,
    contentIntent: Option<PendingIntent>,
    fullScreenIntent: Option<PendingIntent>,
    bigContentView: Option<RemoteViews>,
    actions: Option<seq<Action>>,
    suppressAlertingDueToGrouping: bool)

  /** The identity of a posted notification: user, package, id and tag. */
  datatype NotificationKey = NotificationKey(userId: int, pkg: string, id: int, tag: Option<string>)

  datatype StatusBarNotification = StatusBarNotification(
    pkg: string,
    tag: Option<string>,
    id: int,
    userId: int,
    notification: Notification)
  {
    function Key(): NotificationKey {
      NotificationKey(userId, pkg, id, tag)
    }

    predicate IsOngoing() {
      notification.flags & FLAG_ONGOING_EVENT != 0
    }
  }

  /** A ranking snapshot: the importance recorded for each key it knows. */
  type RankingMap = map<NotificationKey, int>

  /** Whether a category string equals a given constant; a null category equals nothing. */
  predicate CategoryIs(category: Option<string>, name: string) {
    category == Some(name)
  }

  /** TextUtils.isEmpty: null or of length zero. */
  predicate IsEmpty(s: Option<string>) {
    s.None? || |s.value| == 0
  }
}
