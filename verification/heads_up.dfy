/**
 * CarHeadsUpNotificationManager: the admission rule chain, the choice of
 * heads-up template, and the single heads-up slot with its dismiss timer,
 * its enter animation and its swipe-to-dismiss callback.
 *
 * The slot is a class whose fields mirror the manager's mutable fields.  Its
 * behaviour is specified by pure transition functions over a `Slot` value;
 * each method ensures that the new snapshot is the transition of the old one,
 * and the lemmas at the end are stated about those transitions.
 */
module HeadsUp {
  import opened Notifications

  /** The two OEM flags read once when the manager is built. */
  datatype Config = Config(enableMediaNotification: bool, enableOngoingNotification: bool)

  // ---------------------------------------------------------------------------
  // Admission
  // ---------------------------------------------------------------------------

  /** One of the four suppressing rules fires (lock screen, media, ongoing, grouping). */
  predicate Suppressed(config: Config, keyguardLocked: bool, sbn: StatusBarNotification) {
    || keyguardLocked
    || (!config.enableMediaNotification && CategoryIs(sbn.notification.category, CATEGORY_TRANSPORT))
    || (!config.enableOngoingNotification && sbn.IsOngoing())
    || sbn.notification.suppressAlertingDueToGrouping
  }

  /** The ranking snapshot knows the key and gives it importance HIGH or more. */
  predicate HighImportance(sbn: StatusBarNotification, rankings: RankingMap) {
    sbn.Key() in rankings && rankings[sbn.Key()] >= IMPORTANCE_HIGH
  }

  /** The category is CAR_EMERGENCY or CAR_WARNING. */
  predicate IsCarAlertCategory(category: Option<string>) {
    CategoryIs(category, CATEGORY_CAR_EMERGENCY) || CategoryIs(category, CATEGORY_CAR_WARNING)
  }

  /**
   * shouldShowHeadsUp, written as the source's first-match chain.  Its contract
   * gives the order-free reading: no suppressing rule fires, and either the
   * ranking is high or the category is a car alert.
   */
  function ShouldShowHeadsUp(config: Config, keyguardLocked: bool, sbn: StatusBarNotification,
                             rankings: RankingMap): (show: bool)
    ensures keyguardLocked ==> !show
    ensures show <==> !Suppressed(config, keyguardLocked, sbn)
                      && (HighImportance(sbn, rankings) || IsCarAlertCategory(sbn.notification.category))
    ensures sbn.Key() !in rankings ==>
              (show <==> !Suppressed(config, keyguardLocked, sbn) && IsCarAlertCategory(sbn.notification.category))
  {
    var n := sbn.notification;
    if keyguardLocked then false
    else if !config.enableMediaNotification && CategoryIs(n.category, CATEGORY_TRANSPORT) then false
    else if !config.enableOngoingNotification && sbn.IsOngoing() then false
    else if n.suppressAlertingDueToGrouping then false
    else if sbn.Key() in rankings && rankings[sbn.Key()] >= IMPORTANCE_HIGH then true
    else if CategoryIs(n.category, CATEGORY_CAR_EMERGENCY) || CategoryIs(n.category, CATEGORY_CAR_WARNING) then true
    else false
  }

  /** Each suppressing rule on its own forces "do not show", whatever the rest says. */
  lemma SuppressingRulesWin(config: Config, keyguardLocked: bool, sbn: StatusBarNotification, rankings: RankingMap)
    ensures (!config.enableMediaNotification && CategoryIs(sbn.notification.category, CATEGORY_TRANSPORT))
              ==> !ShouldShowHeadsUp(config, keyguardLocked, sbn, rankings)
    ensures (!config.enableOngoingNotification && sbn.IsOngoing())
              ==> !ShouldShowHeadsUp(config, keyguardLocked, sbn, rankings)
    ensures sbn.notification.suppressAlertingDueToGrouping ==> !ShouldShowHeadsUp(config, keyguardLocked, sbn, rankings)
  {
  }

  /**
   * A key missing from the ranking snapshot is treated exactly like a ranking
   * below HIGH: evaluation goes on to the category rule.
   */
  lemma MissingRankingActsAsLowImportance(config: Config, keyguardLocked: bool, sbn: StatusBarNotification,
                                           rankings: RankingMap, low: int)
    requires sbn.Key() !in rankings
    requires low < IMPORTANCE_HIGH
    ensures ShouldShowHeadsUp(config, keyguardLocked, sbn, rankings)
            == ShouldShowHeadsUp(config, keyguardLocked, sbn, rankings[sbn.Key() := low])
  {
  }

  // ---------------------------------------------------------------------------
  // Template choice
  // ---------------------------------------------------------------------------

  datatype NotificationViewType = EmergencyHeadsUp | MessageHeadsUp | InboxHeadsUp | BasicHeadsUp

  /** getNotificationViewType: the category decides first, the extras only after. */
  function GetNotificationViewType(n: Notification): (t: NotificationViewType)
    ensures t == EmergencyHeadsUp <==> CategoryIs(n.category, CATEGORY_CAR_EMERGENCY)
    ensures t == MessageHeadsUp <==> CategoryIs(n.category, CATEGORY_MESSAGE)
    ensures t == InboxHeadsUp <==>
              && !CategoryIs(n.category, CATEGORY_CAR_EMERGENCY)
              && !CategoryIs(n.category, CATEGORY_MESSAGE)
              && n.extras.hasBigText && n.extras.hasSummaryText
  {
    if CategoryIs(n.category, CATEGORY_CAR_EMERGENCY) then EmergencyHeadsUp
    else if CategoryIs(n.category, CATEGORY_MESSAGE) then MessageHeadsUp
    else if n.extras.hasBigText && n.extras.hasSummaryText then InboxHeadsUp
    else BasicHeadsUp
  }

  /** The emergency and message categories take precedence over whatever the extras hold. */
  lemma CategoryTakesPrecedenceOverExtras(n: Notification, extras: Extras)
    requires CategoryIs(n.category, CATEGORY_CAR_EMERGENCY) || CategoryIs(n.category, CATEGORY_MESSAGE)
    ensures GetNotificationViewType(n.(extras := extras)) == GetNotificationViewType(n)
  {
  }

  /** The view inflated into the wrapper, with what its holder was bound to. */
  datatype HeadsUpView =
    | EmergencyTemplate(sbn: StatusBarNotification)
    | MessageTemplate(sbn: StatusBarNotification, restrictPreview: bool)
    | InboxTemplate(sbn: StatusBarNotification)
    | BasicTemplate(sbn: StatusBarNotification)

  /** The switch in showHeadsUp: inflate the chosen template and bind the notification to it. */
  function InflateTemplate(sbn: StatusBarNotification, restrictMessagePreview: bool): (v: HeadsUpView)
    ensures v.sbn == sbn
    ensures v.EmergencyTemplate? <==> GetNotificationViewType(sbn.notification) == EmergencyHeadsUp
    ensures v.MessageTemplate? <==> GetNotificationViewType(sbn.notification) == MessageHeadsUp
    ensures v.InboxTemplate? <==> GetNotificationViewType(sbn.notification) == InboxHeadsUp
    ensures v.MessageTemplate? ==> v.restrictPreview == restrictMessagePreview
  {
    match GetNotificationViewType(sbn.notification)
    case EmergencyHeadsUp => EmergencyTemplate(sbn)
    case MessageHeadsUp => MessageTemplate(sbn, restrictMessagePreview)
    case InboxHeadsUp => InboxTemplate(sbn)
    case BasicHeadsUp => BasicTemplate(sbn)
  }

  /** Only the message template reads the restriction flag. */
  lemma OnlyMessageTemplateReadsRestriction(sbn: StatusBarNotification)
    requires GetNotificationViewType(sbn.notification) != MessageHeadsUp
    ensures InflateTemplate(sbn, true) == InflateTemplate(sbn, false)
  {
  }

  // ---------------------------------------------------------------------------
  // The slot
  // ---------------------------------------------------------------------------

  /** A cancelNotificationWithTag request sent to the notification service. */
  datatype CancelRequest = CancelRequest(pkg: string, tag: Option<string>, id: int, userId: int)

  /**
   * The manager's state.  `pendingTimers` holds the tokens of the dismiss
   * callbacks posted to the timer handler and not yet run or removed;
   * `nextTimer` is the token the next post gets.  `pendingLayout` is the
   * layout listener registered on the last shown view, holding its
   * "play the enter animation" flag.  `swipeTarget` is the notification the
   * swipe callback captured: inflating into the wrapper returns the wrapper
   * itself, so the touch listener is installed on the wrapper, outlives
   * clearViews and is replaced only by the next show.
   */
  datatype Slot = Slot(
    visible: Option<StatusBarNotification>,
    wrapper: seq<HeadsUpView>,
    scrim: Visibility,
    pendingTimers: set<nat>,
    nextTimer: nat,
    pendingLayout: Option<bool>,
    restrictMessagePreview: bool,
    cancelRequests: seq<CancelRequest>,
    swipeTarget: Option<StatusBarNotification>)

  const InitialSlot := Slot(None, [], Gone, {}, 0, None, false, [], None)

  /**
   * The slot invariant: the wrapper holds the visible notification's view and
   * nothing else, exactly while something is visible exactly one dismiss
   * timer is pending (the last one armed), and the swipe callback then acts on
   * the visible notification.
   */
  ghost predicate SlotValid(s: Slot) {
    && (s.visible.None? ==> s.wrapper == [] && s.pendingTimers == {})
    && (s.visible.Some? ==>
          && |s.wrapper| == 1 && s.wrapper[0].sbn == s.visible.value
          && s.nextTimer > 0 && s.pendingTimers == {s.nextTimer - 1}
          && s.swipeTarget == s.visible)
  }

  /** CarNotificationDiff.sameNotificationKey with a possibly null previous notification. */
  predicate SameNotificationKey(previous: Option<StatusBarNotification>, sbn: StatusBarNotification) {
    previous.Some? && previous.value.Key() == sbn.Key()
  }

  /** clearViews: nothing visible, scrim gone, wrapper empty; timers and the touch listener untouched. */
  function AfterClearViews(s: Slot): (t: Slot)
    ensures t.visible.None? && t.scrim == Gone && t.wrapper == []
    ensures t.pendingTimers == s.pendingTimers && t.nextTimer == s.nextTimer
    ensures t.cancelRequests == s.cancelRequests && t.restrictMessagePreview == s.restrictMessagePreview
    ensures t.swipeTarget == s.swipeTarget
  {
    s.(visible := None, scrim := Gone, wrapper := [])
  }

  /**
   * showHeadsUp: the wrapper is emptied and every pending timer removed before
   * the new view is bound and one fresh timer is armed; the enter animation is
   * played iff the key differs from the previously visible one.
   */
  function AfterShowHeadsUp(s: Slot, sbn: StatusBarNotification): (t: Slot)
    ensures t.visible == Some(sbn)
    ensures t.wrapper == [InflateTemplate(sbn, s.restrictMessagePreview)]
    ensures t.pendingTimers == {s.nextTimer} && t.nextTimer == s.nextTimer + 1
    ensures SlotValid(s) ==> t.pendingTimers !! s.pendingTimers
    ensures t.pendingLayout == Some(!SameNotificationKey(s.visible, sbn))
    ensures t.scrim == s.scrim && t.restrictMessagePreview == s.restrictMessagePreview
    ensures t.cancelRequests == s.cancelRequests
    ensures t.swipeTarget == Some(sbn)
    ensures SlotValid(t)
  {
    var emptied := s.(wrapper := [], pendingTimers := {});
    var bound := emptied.(wrapper := [InflateTemplate(sbn, s.restrictMessagePreview)]);
    var shouldShowAnimation := !SameNotificationKey(s.visible, sbn);
    bound.(visible := Some(sbn),
           pendingLayout := Some(shouldShowAnimation),
           swipeTarget := Some(sbn),
           pendingTimers := {s.nextTimer},
           nextTimer := s.nextTimer + 1)
  }

  /** maybeShowHeadsUp: show the preprocessed notification if admitted, else change nothing. */
  function AfterMaybeShowHeadsUp(s: Slot, config: Config, keyguardLocked: bool, sbn: StatusBarNotification,
                                 rankings: RankingMap, optimized: StatusBarNotification): (t: Slot)
    ensures !ShouldShowHeadsUp(config, keyguardLocked, sbn, rankings) ==> t == s
    ensures ShouldShowHeadsUp(config, keyguardLocked, sbn, rankings) ==> t == AfterShowHeadsUp(s, optimized)
  {
    if ShouldShowHeadsUp(config, keyguardLocked, sbn, rankings) then AfterShowHeadsUp(s, optimized) else s
  }

  /** The dismiss timer `token` runs: its message leaves the queue and the views are cleared. */
  function AfterTimeout(s: Slot, token: nat): (t: Slot)
    requires token in s.pendingTimers
    ensures t.visible.None? && t.wrapper == [] && t.scrim == Gone
    ensures t.pendingTimers == s.pendingTimers - {token}
    ensures SlotValid(s) ==> SlotValid(t) && t.pendingTimers == {}
  {
    AfterClearViews(s.(pendingTimers := s.pendingTimers - {token}))
  }

  /** The result of the swipe callback: the new state and whether a RemoteException escaped. */
  datatype SwipeResult = SwipeResult(slot: Slot, rethrown: bool)

  /**
   * The swipe callback installed by the last show, acting on the notification
   * it captured (which may no longer be visible): ask the notification service
   * to cancel it when it is cancelable; a RemoteException from that call is
   * rethrown, so nothing is cleared; otherwise clear the views and remove every
   * pending timer.
   */
  function AfterSwipe(s: Slot, cancelable: bool, cancelThrows: bool, foregroundUserId: int): (r: SwipeResult)
    requires s.swipeTarget.Some?
    ensures var n := s.swipeTarget.value;
            r.slot.cancelRequests ==
              s.cancelRequests + (if cancelable then [CancelRequest(n.pkg, n.tag, n.id, foregroundUserId)] else [])
    ensures r.rethrown <==> cancelable && cancelThrows
    ensures r.rethrown ==> r.slot == s.(cancelRequests := r.slot.cancelRequests)
    ensures !r.rethrown ==>
              r.slot.visible.None? && r.slot.wrapper == [] && r.slot.scrim == Gone && r.slot.pendingTimers == {}
    ensures r.slot.swipeTarget == s.swipeTarget
    ensures SlotValid(s) ==> SlotValid(r.slot)
  {
    var n := s.swipeTarget.value;
    if cancelable then
      var requested := s.(cancelRequests := s.cancelRequests + [CancelRequest(n.pkg, n.tag, n.id, foregroundUserId)]);
      if cancelThrows then SwipeResult(requested, true)
      else SwipeResult(AfterClearViews(requested).(pendingTimers := {}), false)
    else
      SwipeResult(AfterClearViews(s).(pendingTimers := {}), false)
  }

  /** The layout listener runs once: the scrim is shown when the animation is to be played. */
  function AfterGlobalLayout(s: Slot): (t: Slot)
    ensures t.pendingLayout.None?
    ensures t.scrim == (if s.pendingLayout == Some(true) then Visible else s.scrim)
    ensures t.(pendingLayout := s.pendingLayout, scrim := s.scrim) == s
  {
    var shown := if s.pendingLayout == Some(true) then s.(scrim := Visible) else s;
    shown.(pendingLayout := None)
  }

  /** onUxRestrictionsChanged: the flag is the NO_TEXT_MESSAGE bit of the active restrictions. */
  function AfterUxRestrictionsChanged(s: Slot, activeRestrictions: bv32): (t: Slot)
    ensures t.restrictMessagePreview <==> (activeRestrictions >> 7) & 1 == 1
    ensures t.(restrictMessagePreview := s.restrictMessagePreview) == s
  {
    s.(restrictMessagePreview := activeRestrictions & UX_RESTRICTIONS_NO_TEXT_MESSAGE != 0)
  }

  // ---------------------------------------------------------------------------
  // Runs of events on the UI thread
  // ---------------------------------------------------------------------------

  /** The events the manager's thread delivers, one at a time. */
  datatype SlotEvent =
    | Posted(keyguardLocked: bool, sbn: StatusBarNotification, rankings: RankingMap, optimized: StatusBarNotification)
    | TimerRan(token: nat)
    | Swiped(cancelable: bool, cancelThrows: bool, foregroundUserId: int)
    | GlobalLayout
    | UxRestrictionsChanged(activeRestrictions: bv32)

  /**
   * One event.  A timer whose message was removed never runs, and before the
   * first show no touch listener is installed; such events leave the state as
   * it is.
   */
  function Step(s: Slot, config: Config, e: SlotEvent): Slot {
    match e
    case Posted(locked, sbn, rankings, optimized) => AfterMaybeShowHeadsUp(s, config, locked, sbn, rankings, optimized)
    case TimerRan(token) => if token in s.pendingTimers then AfterTimeout(s, token) else s
    case Swiped(cancelable, cancelThrows, user) =>
      if s.swipeTarget.Some? then AfterSwipe(s, cancelable, cancelThrows, user).slot else s
    case GlobalLayout => AfterGlobalLayout(s)
    case UxRestrictionsChanged(bits) => AfterUxRestrictionsChanged(s, bits)
  }

  function Run(s: Slot, config: Config, events: seq<SlotEvent>): Slot
    decreases |events|
  {
    if events == [] then s else Run(Step(s, config, events[0]), config, events[1..])
  }

  /** Every event keeps the slot invariant. */
  lemma StepKeepsSlotValid(s: Slot, config: Config, e: SlotEvent)
    requires SlotValid(s)
    ensures SlotValid(Step(s, config, e))
    ensures Step(s, config, e).nextTimer >= s.nextTimer
  {
  }

  /**
   * Whatever the manager's thread delivers, at most one notification is in the
   * wrapper and at most one dismiss timer is pending.
   */
  lemma {:induction false} RunKeepsSlotValid(s: Slot, config: Config, events: seq<SlotEvent>)
    requires SlotValid(s)
    ensures SlotValid(Run(s, config, events))
    ensures |Run(s, config, events).wrapper| <= 1
    ensures Run(s, config, events).pendingTimers == {} || Run(s, config, events).pendingTimers == {Run(s, config, events).nextTimer - 1}
    decreases |events|
  {
    if events != [] {
      StepKeepsSlotValid(s, config, events[0]);
      RunKeepsSlotValid(Step(s, config, events[0]), config, events[1..]);
    }
  }

  /**
   * A dismiss timer removed by a later show is never pending again, whatever
   * happens afterwards: a stale timer cannot clear a newer heads-up.
   */
  lemma {:induction false} StaleTimerNeverRuns(s: Slot, config: Config, token: nat, events: seq<SlotEvent>)
    requires SlotValid(s)
    requires token < s.nextTimer && token !in s.pendingTimers
    ensures token !in Run(s, config, events).pendingTimers
    ensures token < Run(s, config, events).nextTimer
    decreases |events|
  {
    if events != [] {
      StepKeepsSlotValid(s, config, events[0]);
      StaleTimerNeverRuns(Step(s, config, events[0]), config, token, events[1..]);
    }
  }

  /** Replacing A by B removes A's timer for good; only B's timer is pending. */
  lemma ReplacementRemovesOldTimer(s: Slot, a: StatusBarNotification, b: StatusBarNotification)
    requires SlotValid(s)
    ensures var shownA := AfterShowHeadsUp(s, a);
            var shownB := AfterShowHeadsUp(shownA, b);
            shownA.pendingTimers == {s.nextTimer}
            && s.nextTimer !in shownB.pendingTimers
            && shownB.pendingTimers == {s.nextTimer + 1}
            && shownB.visible == Some(b)
  {
  }

  /**
   * Showing an update of the visible notification refreshes the view without
   * the enter animation and with exactly one pending timer; after the slot was
   * cleared every show animates.
   */
  lemma UpdateOfVisibleDoesNotAnimate(s: Slot, sbn: StatusBarNotification, update: StatusBarNotification)
    requires SlotValid(s)
    requires update.Key() == sbn.Key()
    ensures var t := AfterShowHeadsUp(AfterShowHeadsUp(s, sbn), update);
            t.pendingLayout == Some(false) && |t.pendingTimers| == 1 && t.wrapper[0].sbn == update
  {
  }

  lemma ShowAfterClearAnimates(s: Slot, sbn: StatusBarNotification)
    ensures AfterShowHeadsUp(AfterClearViews(s), sbn).pendingLayout == Some(true)
  {
  }

  /**
   * The touch listener outlives the dismiss timer: a swipe after the heads-up
   * timed out still cancels the last shown notification when it is cancelable.
   */
  lemma SwipeAfterTimeoutCancelsLastShown(s: Slot, sbn: StatusBarNotification, foregroundUserId: int)
    requires SlotValid(s)
    ensures var timedOut := AfterTimeout(AfterShowHeadsUp(s, sbn), s.nextTimer);
            var swiped := AfterSwipe(timedOut, true, false, foregroundUserId).slot;
            && timedOut.visible.None? && timedOut.swipeTarget == Some(sbn)
            && swiped.cancelRequests == s.cancelRequests + [CancelRequest(sbn.pkg, sbn.tag, sbn.id, foregroundUserId)]
            && swiped.visible.None? && swiped.pendingTimers == {}
  {
  }

  // ---------------------------------------------------------------------------
  // The manager
  // ---------------------------------------------------------------------------

  class CarHeadsUpNotificationManager {
    const config: Config
    var visibleNotification: Option<StatusBarNotification>
    var wrapperChildren: seq<HeadsUpView>
    var scrimVisibility: Visibility
    var pendingTimers: set<nat>
    var nextTimer: nat
    var layoutListener: Option<bool>
    var shouldRestrictMessagePreview: bool
    var cancelRequests: seq<CancelRequest>
    /** The notification captured by the touch listener on the wrapper; None before the first show. */
    var swipeTarget: Option<StatusBarNotification>

    function Snapshot(): Slot
      reads this
    {
      Slot(visibleNotification, wrapperChildren, scrimVisibility, pendingTimers, nextTimer,
           layoutListener, shouldRestrictMessagePreview, cancelRequests, swipeTarget)
    }

    ghost predicate Valid()
      reads this
    {
      SlotValid(Snapshot())
    }

    constructor (config: Config)
      ensures Valid() && this.config == config && Snapshot() == InitialSlot
    {
      this.config := config;
      visibleNotification := None;
      wrapperChildren := [];
      scrimVisibility := Gone;
      pendingTimers := {};
      nextTimer := 0;
      layoutListener := None;
      shouldRestrictMessagePreview := false;
      cancelRequests := [];
      swipeTarget := None;
    }

    /**
     * maybeShowHeadsUp.  The keyguard state, the ranking snapshot and the
     * preprocessed notification come from collaborators and are inputs here.
     */
    method MaybeShowHeadsUp(keyguardLocked: bool, sbn: StatusBarNotification, rankings: RankingMap,
                            optimized: StatusBarNotification) returns (shown: bool)
      requires Valid()
      modifies this
      ensures Valid()
      ensures shown == ShouldShowHeadsUp(config, keyguardLocked, sbn, rankings)
      ensures !shown ==> unchanged(this)
      ensures Snapshot() == AfterMaybeShowHeadsUp(old(Snapshot()), config, keyguardLocked, sbn, rankings, optimized)
    {
      shown := ShouldShowHeadsUp(config, keyguardLocked, sbn, rankings);
      if !shown {
        return;
      }
      ShowHeadsUp(optimized);
    }

    method ShowHeadsUp(sbn: StatusBarNotification)
      requires Valid()
      modifies this
      ensures Valid()
      ensures Snapshot() == AfterShowHeadsUp(old(Snapshot()), sbn)
    {
      // remove the previous heads-up and its timer
      wrapperChildren := [];
      pendingTimers := {};

      wrapperChildren := wrapperChildren + [InflateTemplate(sbn, shouldRestrictMessagePreview)];

      var shouldShowAnimation := !SameNotificationKey(visibleNotification, sbn);
      visibleNotification := Some(sbn);
      layoutListener := Some(shouldShowAnimation);

      // the touch listener on the wrapper now captures this notification
      swipeTarget := Some(sbn);

      // post the dismiss timer
      pendingTimers := pendingTimers + {nextTimer};
      nextTimer := nextTimer + 1;
    }

    method ClearViews()
      modifies this
      ensures Snapshot() == AfterClearViews(old(Snapshot()))
    {
      visibleNotification := None;
      scrimVisibility := Gone;
      wrapperChildren := [];
    }

    /** The posted dismiss callback `token` runs. */
    method OnTimeout(token: nat)
      requires Valid() && token in pendingTimers
      modifies this
      ensures Valid()
      ensures Snapshot() == AfterTimeout(old(Snapshot()), token)
    {
      pendingTimers := pendingTimers - {token};
      ClearViews();
    }

    /**
     * The swipe callback on the wrapper, installed by the last show.  `cancelable`
     * is what CarNotificationItemTouchHelper.isCancelable answers; `cancelThrows`
     * says whether the service call fails with a RemoteException.
     */
    method OnSwipe(cancelable: bool, cancelThrows: bool, foregroundUserId: int) returns (rethrown: bool)
      requires Valid() && swipeTarget.Some?
      modifies this
      ensures Valid()
      ensures SwipeResult(Snapshot(), rethrown) == AfterSwipe(old(Snapshot()), cancelable, cancelThrows, foregroundUserId)
    {
      var sbn := swipeTarget.value;
      if cancelable {
        cancelRequests := cancelRequests + [CancelRequest(sbn.pkg, sbn.tag, sbn.id, foregroundUserId)];
        if cancelThrows {
          return true;
        }
      }
      ClearViews();
      pendingTimers := {};
      rethrown := false;
    }

    /** The layout listener registered by the last show runs and unregisters itself. */
    method OnGlobalLayout()
      requires Valid()
      modifies this
      ensures Valid()
      ensures Snapshot() == AfterGlobalLayout(old(Snapshot()))
    {
      if layoutListener == Some(true) {
        scrimVisibility := Visible;
      }
      layoutListener := None;
    }

    method OnUxRestrictionsChanged(activeRestrictions: bv32)
      requires Valid()
      modifies this
      ensures Valid()
      ensures Snapshot() == AfterUxRestrictionsChanged(old(Snapshot()), activeRestrictions)
    {
      shouldRestrictMessagePreview := activeRestrictions & UX_RESTRICTIONS_NO_TEXT_MESSAGE != 0;
    }
  }
}
