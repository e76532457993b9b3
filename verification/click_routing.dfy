/**
 * NotificationClickHandlerFactory: the click handlers that fire a
 * notification's intent and report the click to the status bar service.
 *
 * A handler is a method that returns the outbound calls it makes, in order.
 * What the PendingIntent send and the service answer are inputs: a send either
 * delivers a launch result or throws CanceledException, and a service call may
 * throw RemoteException.
 */
module ClickRouting {
  import opened Notifications

  // ActivityManager.START_ABORTED
  const START_ABORTED: int := 102
  // NotificationStats.DISMISSAL_SHADE and NotificationStats.DISMISS_SENTIMENT_NEUTRAL
  const DISMISSAL_SHADE: int := 3
  const DISMISS_SENTIMENT_NEUTRAL: int := 1

  /** NotificationVisibility.obtain(key, rank, count, visible). */
  datatype NotificationVisibility = NotificationVisibility(key: NotificationKey, rank: int, count: int, visible: bool)

  /** The client callback; a null one is replaced by a callback that does nothing. */
  datatype Callback = NoOpCallback | ClientCallback(id: nat)

  /** What sendAndReturnResult does: return a launch result or throw CanceledException. */
  datatype SendOutcome = Delivered(launchResult: int) | Canceled

  /** An outbound call made by a handler. */
  datatype Event =
    | IntentSent(intent: PendingIntent)
    | NotificationClicked(key: NotificationKey, visibility: NotificationVisibility)
    | NotificationCleared(pkg: string, tag: Option<string>, id: int, userId: int, key: NotificationKey,
                          dismissalSurface: int, dismissalSentiment: int, visibility: NotificationVisibility)
    | NotificationActionClicked(key: NotificationKey, index: nat, action: Action,
                                visibility: NotificationVisibility, generatedByAssistant: bool)
    | CallbackInvoked(callback: Callback, launchResult: int)

  datatype EventKind = SendKind | ClickKind | ClearKind | ActionClickKind | CallbackKind

  function KindOf(e: Event): EventKind {
    match e
    case IntentSent(_) => SendKind
    case NotificationClicked(_, _) => ClickKind
    case NotificationCleared(_, _, _, _, _, _, _, _) => ClearKind
    case NotificationActionClicked(_, _, _, _, _) => ActionClickKind
    case CallbackInvoked(_, _) => CallbackKind
  }

  /** How many calls of one kind a trace holds. */
  function Count(calls: seq<Event>, kind: EventKind): nat
    decreases |calls|
  {
    if calls == [] then 0
    else (if KindOf(calls[0]) == kind then 1 else 0) + Count(calls[1..], kind)
  }

  lemma {:induction false} CountAppend(a: seq<Event>, b: seq<Event>, kind: EventKind)
    ensures Count(a + b, kind) == Count(a, kind) + Count(b, kind)
    decreases |a|
  {
    if a == [] {
      assert a + b == b;
    } else {
      assert (a + b)[1..] == a[1..] + b;
      CountAppend(a[1..], b, kind);
    }
  }

  lemma CountSingle(e: Event, kind: EventKind)
    ensures Count([e], kind) == if KindOf(e) == kind then 1 else 0
  {
    assert [e][1..] == [];
  }

  /** The token reported with every click: rank -1, count -1, visible. */
  function ClickVisibility(sbn: StatusBarNotification): (v: NotificationVisibility)
    ensures v.key == sbn.Key() && v.rank == -1 && v.count == -1 && v.visible
  {
    NotificationVisibility(sbn.Key(), -1, -1, true)
  }

  /** The clear request a content click issues for an auto-cancel notification. */
  function ClearFromShade(sbn: StatusBarNotification): Event {
    NotificationCleared(sbn.pkg, sbn.tag, sbn.id, sbn.userId, sbn.Key(),
                        DISMISSAL_SHADE, DISMISS_SENTIMENT_NEUTRAL, ClickVisibility(sbn))
  }

  /** The content intent if there is one, the full-screen intent otherwise. */
  function ContentClickIntent(n: Notification): (intent: Option<PendingIntent>)
    ensures n.contentIntent.Some? ==> intent == n.contentIntent
    ensures n.contentIntent.None? ==> intent == n.fullScreenIntent
    ensures intent.None? <==> n.contentIntent.None? && n.fullScreenIntent.None?
  {
    if n.contentIntent.Some? then n.contentIntent else n.fullScreenIntent
  }

  /** The launch result handed to the callback: START_ABORTED unless the send delivered. */
  function LaunchResult(send: SendOutcome): (result: int)
    ensures send.Canceled? ==> result == START_ABORTED
    ensures send.Delivered? ==> result == send.launchResult
  {
    if send.Delivered? then send.launchResult else START_ABORTED
  }

  /**
   * shouldAutoCancel: the AUTO_CANCEL bit (bit 4) is set and the
   * FOREGROUND_SERVICE bit (bit 6) is clear.
   */
  function ShouldAutoCancel(sbn: StatusBarNotification): (autoCancel: bool)
    ensures autoCancel <==> (sbn.notification.flags >> 4) & 1 == 1 && (sbn.notification.flags >> 6) & 1 == 0
  {
    var flags := sbn.notification.flags;
    if flags & FLAG_AUTO_CANCEL != FLAG_AUTO_CANCEL then false
    else if flags & FLAG_FOREGROUND_SERVICE != 0 then false
    else true
  }

  /** Only the two flag bits matter: flags that agree on them give the same answer. */
  lemma AutoCancelReadsOnlyItsBits(sbn: StatusBarNotification, flags: bv32)
    requires flags & (FLAG_AUTO_CANCEL | FLAG_FOREGROUND_SERVICE)
             == sbn.notification.flags & (FLAG_AUTO_CANCEL | FLAG_FOREGROUND_SERVICE)
    ensures ShouldAutoCancel(sbn.(notification := sbn.notification.(flags := flags))) == ShouldAutoCancel(sbn)
  {
  }

  class NotificationClickHandlerFactory {
    const callback: Callback

    constructor (callback: Option<Callback>)
      ensures callback.Some? ==> this.callback == callback.value
      ensures callback.None? ==> this.callback == NoOpCallback
    {
      this.callback := if callback.Some? then callback.value else NoOpCallback;
    }

    /**
     * The content-click handler.  `clickThrows` says whether onNotificationClick
     * fails with a RemoteException, which skips the clear request.
     */
    method OnContentClick(sbn: StatusBarNotification, send: SendOutcome, clickThrows: bool)
      returns (calls: seq<Event>)
      ensures ContentClickIntent(sbn.notification).None? <==> calls == []
      ensures ContentClickIntent(sbn.notification).Some? ==>
                calls == [IntentSent(ContentClickIntent(sbn.notification).value),
                          NotificationClicked(sbn.Key(), ClickVisibility(sbn))]
                         + (if !clickThrows && ShouldAutoCancel(sbn) then [ClearFromShade(sbn)] else [])
                         + [CallbackInvoked(callback, LaunchResult(send))]
      ensures ContentClickIntent(sbn.notification).Some? ==>
                && Count(calls, SendKind) == 1
                && Count(calls, ActionClickKind) == 0
                && Count(calls, CallbackKind) == 1
                && Count(calls, ClickKind) == 1
                && Count(calls, ClearKind) == (if !clickThrows && ShouldAutoCancel(sbn) then 1 else 0)
      ensures forall i :: 0 <= i < |calls| && calls[i].NotificationCleared? ==>
                i == 2 && calls[1].NotificationClicked? && calls[i] == ClearFromShade(sbn)
    {
      var notification := sbn.notification;
      var intent := if notification.contentIntent.Some? then notification.contentIntent
                    else notification.fullScreenIntent;
      if intent.None? {
        return [];
      }
      var result := START_ABORTED;
      calls := [IntentSent(intent.value)];
      if send.Delivered? {
        result := send.launchResult;
      }
      var visibility := NotificationVisibility(sbn.Key(), -1, -1, true);
      calls := calls + [NotificationClicked(sbn.Key(), visibility)];
      ghost var reported := calls;
      if !clickThrows && ShouldAutoCancel(sbn) {
        calls := calls + [NotificationCleared(sbn.pkg, sbn.tag, sbn.id, sbn.userId, sbn.Key(),
                                              DISMISSAL_SHADE, DISMISS_SENTIMENT_NEUTRAL, visibility)];
      }
      ghost var cleared := calls;
      calls := calls + [CallbackInvoked(callback, result)];

      forall kind: EventKind
        ensures Count(calls, kind) == Count(reported, kind) + Count(cleared[2..], kind) + (if kind == CallbackKind then 1 else 0)
      {
        assert cleared == reported + cleared[2..];
        CountAppend(reported, cleared[2..], kind);
        CountAppend(cleared, [CallbackInvoked(callback, result)], kind);
        CountSingle(CallbackInvoked(callback, result), kind);
      }
      forall kind: EventKind
        ensures Count(reported, kind) == (if kind == SendKind || kind == ClickKind then 1 else 0)
      {
        assert reported == [IntentSent(intent.value)] + [NotificationClicked(sbn.Key(), visibility)];
        CountAppend([IntentSent(intent.value)], [NotificationClicked(sbn.Key(), visibility)], kind);
        CountSingle(IntentSent(intent.value), kind);
        CountSingle(NotificationClicked(sbn.Key(), visibility), kind);
      }
      forall kind: EventKind
        ensures Count(cleared[2..], kind) == (if kind == ClearKind && !clickThrows && ShouldAutoCancel(sbn) then 1 else 0)
      {
        if !clickThrows && ShouldAutoCancel(sbn) {
          CountSingle(cleared[2], kind);
          assert cleared[2..] == [cleared[2]];
        } else {
          assert cleared[2..] == [];
        }
      }
    }

    /**
     * The action-click handler for action `index`.  The source indexes the
     * action array and sends the action's intent without checking, so both
     * must be there.  A RemoteException from onNotificationActionClick comes
     * after the result is set and changes nothing else.
     */
    method OnActionClick(sbn: StatusBarNotification, index: nat, send: SendOutcome)
      returns (calls: seq<Event>)
      requires sbn.notification.actions.Some? && index < |sbn.notification.actions.value|
      requires sbn.notification.actions.value[index].actionIntent.Some?
      ensures var action := sbn.notification.actions.value[index];
              send.Delivered? ==>
                calls == [IntentSent(action.actionIntent.value),
                          NotificationActionClicked(sbn.Key(), index, action, ClickVisibility(sbn), false),
                          CallbackInvoked(callback, send.launchResult)]
      ensures send.Canceled? ==>
                calls == [IntentSent(sbn.notification.actions.value[index].actionIntent.value),
                          CallbackInvoked(callback, START_ABORTED)]
      ensures Count(calls, CallbackKind) == 1
      ensures Count(calls, ActionClickKind) == (if send.Delivered? then 1 else 0)
    {
      var actions := sbn.notification.actions.value;
      var result := START_ABORTED;
      var intent := actions[index].actionIntent.value;
      var visibility := NotificationVisibility(sbn.Key(), -1, -1, true);
      calls := [IntentSent(intent)];
      if send.Delivered? {
        result := send.launchResult;
        calls := calls + [NotificationActionClicked(sbn.Key(), index, actions[index], visibility, false)];
      }
      ghost var reported := calls;
      calls := calls + [CallbackInvoked(callback, result)];

      CountAppend(reported, [CallbackInvoked(callback, result)], CallbackKind);
      CountAppend(reported, [CallbackInvoked(callback, result)], ActionClickKind);
      CountSingle(CallbackInvoked(callback, result), CallbackKind);
      CountSingle(CallbackInvoked(callback, result), ActionClickKind);
      CountSingle(IntentSent(intent), CallbackKind);
      CountSingle(IntentSent(intent), ActionClickKind);
      if send.Delivered? {
        var clicked := NotificationActionClicked(sbn.Key(), index, actions[index], visibility, false);
        CountAppend([IntentSent(intent)], [clicked], CallbackKind);
        CountAppend([IntentSent(intent)], [clicked], ActionClickKind);
        CountSingle(clicked, CallbackKind);
        CountSingle(clicked, ActionClickKind);
      }
    }
  }
}
