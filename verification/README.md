# Car heads-up notifications, modelled in Dafny

This project models the heads-up notification path of the car notification app. Four parts are modelled:

- **Admission and the heads-up slot** (`heads_up.dfy`, module `HeadsUp`), from `CarHeadsUpNotificationManager`.
  - `ShouldShowHeadsUp` is the first-match chain that decides whether a posted notification may interrupt the driver.
  - `GetNotificationViewType` picks the emergency, message, inbox or basic template.
  - The single heads-up slot is a class, `CarHeadsUpNotificationManager`. Its fields are:
    - the visible notification;
    - the wrapper's children;
    - the scrim's visibility;
    - the pending dismiss timers, as tokens;
    - the pending layout listener with its "play the enter animation" flag;
    - the message-preview restriction flag;
    - the cancel requests sent to the notification service;
    - the notification the swipe callback captured.
  - Each method is tied to a pure transition function over a `Slot` value (`AfterShowHeadsUp`, `AfterTimeout`, `AfterSwipe`, ...).
  - The lemmas about runs of events show two things. The slot never holds more than one view or more than one pending timer. A timer removed by a later show never fires.
- **Click routing** (`click_routing.dfy`, module `ClickRouting`), from `NotificationClickHandlerFactory`.
  - The content-click and action-click handlers are methods. Each returns the ordered list of outbound calls it makes:
    - the intent send;
    - `onNotificationClick` / `onNotificationActionClick`;
    - `onNotificationClear`;
    - the callback.
  - The outcome of the intent send and a RemoteException from the service are inputs.
- **Action buttons** (`actions_view.dfy`, module `ActionsView`), from `CarNotificationActionsView`.
  - The three buttons are an `array<Button>`. `Reset` empties them in place; `Bind` resets them and then fills the first `min(|actions|, 3)` of them in place.
  - `BoundButtons` specifies the result.
  - The bar colour is one field. Reset, bind and a holder's `setBackgroundColor` all write it, so the emergency colour overrides the colour bind set.
- **Emergency template** (`emergency_view.dfy`, module `EmergencyView`), from `EmergencyNotificationViewHolder`.
  - `Bind` resets every view (corrected reset order, see Findings). It then shows either only the custom big content view, or the header, the actions and whichever of title and text is not empty.
  - `Rendered` specifies the result.

`notifications.dfy` (module `Notifications`) holds the notification record, reduced to the fields these files read. It also holds the framework constants with their Android values:

- the flag bits;
- the category strings;
- `IMPORTANCE_HIGH` = 4;
- `UX_RESTRICTIONS_NO_TEXT_MESSAGE` = 0x80.

`ClickRouting` holds `START_ABORTED` = 102, `DISMISSAL_SHADE` = 3 and `DISMISS_SENTIMENT_NEUTRAL` = 1.

Inputs that come from collaborators or the platform are parameters:

- the keyguard state;
- the ranking snapshot (a map from key to importance);
- the preprocessed notification returned by `optimizeForDriving`;
- `isCancelable`;
- the foreground user id;
- the outcome of each `PendingIntent` send and of each service call.

The model follows the code in these places:

- An update of the visible notification re-inflates the view and re-arms the timer like any other show. Only the enter animation is skipped.
- The swipe callback rethrows a RemoteException from the cancel request. It does not log it. The slot is then not cleared and its timer stays pending.
- `inflate(layout, mWrapper)` returns the wrapper itself, so the swipe touch listener sits on the wrapper. It outlives `clearViews` and is replaced only by the next show. A swipe after a timeout therefore still cancels the last shown notification when it is cancelable, and removes the timers.
- Whether a swiped notification is cancelable is decided by `CarNotificationItemTouchHelper.isCancelable`. That helper is not part of this model, so it is an input here.
- The content click makes no service call and no callback when it has no intent. A RemoteException from `onNotificationClick` skips the clear request.
- The action click sends the action's intent without a null check, so a missing action or intent is excluded by `requires`.
- The actions view finds its bar by `R.id.notification_actions`. The emergency holder finds the actions view by that same id, and `findViewById` matches a view's own id first. The bar is therefore taken to be the actions view itself, which is what the override comment at EmergencyNotificationViewHolder.java:94 says.
- Nothing falls back to the basic template on a binding failure. The basic template is only the last branch of the switch.

## Model

| member | source | states |
|---|---|---|
| `HeadsUp.ShouldShowHeadsUp` | src/com/android/car/notification/CarHeadsUpNotificationManager.java:276-319 | a locked keyguard always gives false; the chain gives true exactly when no suppressing rule fires (lock, media off + TRANSPORT, ongoing off + ongoing, grouping) and either the ranking is found with importance >= HIGH or the category is CAR_EMERGENCY/CAR_WARNING; with the key missing from the ranking only the category decides |
| `HeadsUp.SuppressingRulesWin` | src/com/android/car/notification/CarHeadsUpNotificationManager.java:286-301 | each of the media, ongoing and grouping rules on its own forces false whatever ranking and category say |
| `HeadsUp.MissingRankingActsAsLowImportance` | src/com/android/car/notification/CarHeadsUpNotificationManager.java:303-309 | a key absent from the ranking snapshot gives the same answer as a ranking below HIGH: evaluation falls through to the category rule without error |
| `HeadsUp.GetNotificationViewType` | src/com/android/car/notification/CarHeadsUpNotificationManager.java:243-257 | EMERGENCY iff the category is CAR_EMERGENCY, MESSAGE iff it is MESSAGE, INBOX iff neither and both BIG_TEXT and SUMMARY_TEXT are present, BASIC otherwise |
| `HeadsUp.CategoryTakesPrecedenceOverExtras` | src/com/android/car/notification/CarHeadsUpNotificationManager.java:244-250 | for emergency and message categories the extras cannot change the template |
| `HeadsUp.InflateTemplate` | src/com/android/car/notification/CarHeadsUpNotificationManager.java:132-170 | the bound view is of the chosen template and holds the shown notification; only the message template receives the restriction flag |
| `HeadsUp.OnlyMessageTemplateReadsRestriction` | src/com/android/car/notification/CarHeadsUpNotificationManager.java:142-151 | for every other template the restriction flag makes no difference to what is bound |
| `HeadsUp.AfterClearViews` | src/com/android/car/notification/CarHeadsUpNotificationManager.java:231-235 | after clearViews nothing is visible, the scrim is gone and the wrapper is empty; timers and everything else are untouched |
| `HeadsUp.AfterShowHeadsUp` | src/com/android/car/notification/CarHeadsUpNotificationManager.java:126-229 | the wrapper holds exactly the new view, the visible notification is the shown one, every earlier timer is removed and exactly one fresh timer is pending, the animation flag is true iff the key differs from the previously visible one, and the swipe callback now captures the shown notification; the slot invariant holds afterwards |
| `HeadsUp.AfterMaybeShowHeadsUp` | src/com/android/car/notification/CarHeadsUpNotificationManager.java:117-124 | a rejected notification leaves the whole slot unchanged; an admitted one shows the preprocessed notification |
| `HeadsUp.AfterTimeout` | src/com/android/car/notification/CarHeadsUpNotificationManager.java:207-208 | the fired timer leaves the queue and the slot is emptied; from a valid slot no timer remains |
| `HeadsUp.AfterSwipe` | src/com/android/car/notification/CarHeadsUpNotificationManager.java:210-228 | acts on the notification captured by the last show, visible or not: exactly one cancel request (package, tag, id, foreground user) iff cancelable; a failing cancel is rethrown and nothing is cleared; otherwise the slot is empty with no pending timer; the captured notification is kept |
| `HeadsUp.AfterGlobalLayout` | src/com/android/car/notification/CarHeadsUpNotificationManager.java:180-205 | the listener runs once; the scrim becomes visible only when the enter animation is to be played; nothing else changes |
| `HeadsUp.AfterUxRestrictionsChanged` | src/com/android/car/notification/CarHeadsUpNotificationManager.java:331-336 | the restriction flag is true iff bit 7 (NO_TEXT_MESSAGE) of the active restrictions is set; nothing else changes |
| `HeadsUp.StepKeepsSlotValid` | src/com/android/car/notification/CarHeadsUpNotificationManager.java:117-235 | every event keeps the slot invariant (view in the wrapper iff a notification is visible, and then exactly the last-armed timer pending) and never reuses a timer token |
| `HeadsUp.RunKeepsSlotValid` | src/com/android/car/notification/CarHeadsUpNotificationManager.java:117-235 | over any sequence of posts, timeouts, swipes, layouts and restriction changes the wrapper holds at most one view and at most one timer is pending |
| `HeadsUp.StaleTimerNeverRuns` | src/com/android/car/notification/CarHeadsUpNotificationManager.java:127-129 | a removed timer is never pending again, whatever events follow, so it can never clear a newer heads-up |
| `HeadsUp.ReplacementRemovesOldTimer` | src/com/android/car/notification/CarHeadsUpNotificationManager.java:127-129 | showing B over A removes A's timer and leaves only B's timer pending, with B visible |
| `HeadsUp.UpdateOfVisibleDoesNotAnimate` | src/com/android/car/notification/CarHeadsUpNotificationManager.java:172-176 | a second show with the same key does not animate, leaves one pending timer and binds the update |
| `HeadsUp.ShowAfterClearAnimates` | src/com/android/car/notification/CarHeadsUpNotificationManager.java:172-176 | after the slot was cleared, any show plays the enter animation |
| `HeadsUp.SwipeAfterTimeoutCancelsLastShown` | src/com/android/car/notification/CarHeadsUpNotificationManager.java:207-228 | after a show and its timeout, the touch listener still holds the shown notification, and a swipe sends its cancel request and leaves no timer |
| `HeadsUp.CarHeadsUpNotificationManager.constructor` | src/com/android/car/notification/CarHeadsUpNotificationManager.java:62-112 | a new manager keeps its OEM flags and starts with an empty slot, the scrim gone and no timers |
| `HeadsUp.CarHeadsUpNotificationManager.MaybeShowHeadsUp` | src/com/android/car/notification/CarHeadsUpNotificationManager.java:117-124 | returns the admission decision; on rejection no field changes; the new state is AfterMaybeShowHeadsUp of the old |
| `HeadsUp.CarHeadsUpNotificationManager.ShowHeadsUp` | src/com/android/car/notification/CarHeadsUpNotificationManager.java:126-229 | the new state is AfterShowHeadsUp of the old and the slot invariant is kept |
| `HeadsUp.CarHeadsUpNotificationManager.ClearViews` | src/com/android/car/notification/CarHeadsUpNotificationManager.java:231-235 | the new state is AfterClearViews of the old |
| `HeadsUp.CarHeadsUpNotificationManager.OnTimeout` | src/com/android/car/notification/CarHeadsUpNotificationManager.java:207-208 | only a pending timer runs; the new state is AfterTimeout of the old |
| `HeadsUp.CarHeadsUpNotificationManager.OnSwipe` | src/com/android/car/notification/CarHeadsUpNotificationManager.java:210-228 | callable whenever a show has installed the touch listener; new state and rethrow flag are AfterSwipe of the old state, and the slot invariant is kept |
| `HeadsUp.CarHeadsUpNotificationManager.OnGlobalLayout` | src/com/android/car/notification/CarHeadsUpNotificationManager.java:180-205 | the new state is AfterGlobalLayout of the old and the slot invariant is kept |
| `HeadsUp.CarHeadsUpNotificationManager.OnUxRestrictionsChanged` | src/com/android/car/notification/CarHeadsUpNotificationManager.java:331-336 | the new state is AfterUxRestrictionsChanged of the old and the slot invariant is kept |
| `ClickRouting.ClickVisibility` | src/com/android/car/notification/NotificationClickHandlerFactory.java:73-75 | the visibility token carries the key, rank -1, count -1 and visible true |
| `ClickRouting.ContentClickIntent` | src/com/android/car/notification/NotificationClickHandlerFactory.java:57-59 | the content intent when present, otherwise the full-screen intent; none only when both are null |
| `ClickRouting.LaunchResult` | src/com/android/car/notification/NotificationClickHandlerFactory.java:63-72 | the result is START_ABORTED when the send throws CanceledException, and the launch result otherwise |
| `ClickRouting.ShouldAutoCancel` | src/com/android/car/notification/NotificationClickHandlerFactory.java:137-146 | true iff bit 4 (AUTO_CANCEL) is set and bit 6 (FOREGROUND_SERVICE) is clear |
| `ClickRouting.AutoCancelReadsOnlyItsBits` | src/com/android/car/notification/NotificationClickHandlerFactory.java:137-146 | flags that agree on those two bits give the same answer |
| `ClickRouting.NotificationClickHandlerFactory.constructor` | src/com/android/car/notification/NotificationClickHandlerFactory.java:42-46 | a null callback is replaced by the no-op callback, so handlers can always call it |
| `ClickRouting.NotificationClickHandlerFactory.OnContentClick` | src/com/android/car/notification/NotificationClickHandlerFactory.java:54-94 | no call at all iff neither intent exists; otherwise the whole trace is: one send of the chosen intent, the click report with the (-1, -1, visible) token, a DISMISSAL_SHADE/NEUTRAL clear iff the click report succeeded and shouldAutoCancel holds, and one callback carrying the launch result or START_ABORTED; one send, no action click, one callback |
| `ClickRouting.NotificationClickHandlerFactory.OnActionClick` | src/com/android/car/notification/NotificationClickHandlerFactory.java:105-134 | sends the action's intent; reports the action click with the same index and action only if the send succeeded; always ends with exactly one callback carrying the launch result, or START_ABORTED after CanceledException |
| `ActionsView.BoundCount` | src/com/android/car/notification/CarNotificationActionsView.java:88-97 | a null array fills no button, otherwise min(length, 3) |
| `ActionsView.BoundButton` | src/com/android/car/notification/CarNotificationActionsView.java:97-114 | below the bound, button i is visible with action i's title and a listener sending action i's intent iff it has one; above it, the button is in its reset state |
| `ActionsView.BoundButtons` | src/com/android/car/notification/CarNotificationActionsView.java:97-114 | three buttons, the i-th as BoundButton says |
| `ActionsView.BoundButtonsShowActions` | src/com/android/car/notification/CarNotificationActionsView.java:97-114 | exactly min(|actions|, 3) buttons are visible and they are the first ones; each shows its action's title and has a listener iff the action's intent is non-null |
| `ActionsView.NoActionsLeaveAllReset` | src/com/android/car/notification/CarNotificationActionsView.java:86-92 | with a null or empty array all three buttons are gone with no text and no listener |
| `ActionsView.CarNotificationActionsView.constructor` | src/com/android/car/notification/CarNotificationActionsView.java:70-77 | the view holds an array of exactly three buttons taken from the layout |
| `ActionsView.CarNotificationActionsView.Reset` | src/com/android/car/notification/CarNotificationActionsView.java:120-129 | the view and all three buttons are gone with no text, drawables or listener, the bar has the action-bar colour; the result does not depend on the state before, so reset is idempotent |
| `ActionsView.CarNotificationActionsView.Bind` | src/com/android/car/notification/CarNotificationActionsView.java:85-115 | the buttons are BoundButtons of the actions whatever was bound before; the view is visible iff there is an action; the bar has the card colour iff there is an action and the card is in a group, and the action-bar colour otherwise |
| `ActionsView.CarNotificationActionsView.SetBackgroundColor` | src/com/android/car/notification/EmergencyNotificationViewHolder.java:94-95 | the bar colour becomes the given colour, replacing whatever bind or reset set; visibility and buttons are unchanged |
| `EmergencyView.SetClickable` | src/com/android/car/notification/EmergencyNotificationViewHolder.java:115 | sets only the clickable bit |
| `EmergencyView.SetOnClickListener` | src/com/android/car/notification/EmergencyNotificationViewHolder.java:72-80 | installs the listener and, as the platform does, makes the view clickable |
| `EmergencyView.ResetParentAsWritten` | src/com/android/car/notification/EmergencyNotificationViewHolder.java:115-116 | the source's order leaves the parent clickable (with no listener) |
| `EmergencyView.ResetParent` | src/com/android/car/notification/EmergencyNotificationViewHolder.java:115-116 | the corrected order leaves the parent unclickable with no listener |
| `EmergencyView.ResetAsWrittenLeavesParentClickable` | src/com/android/car/notification/EmergencyNotificationViewHolder.java:115-116 | from any parent state the two orders differ exactly in the clickable bit |
| `EmergencyView.ShownText` | src/com/android/car/notification/EmergencyNotificationViewHolder.java:97-108 | a text view is visible iff its text is non-empty (non-null and of positive length), showing that text, and otherwise gone with no text |
| `EmergencyView.Rendered` | src/com/android/car/notification/EmergencyNotificationViewHolder.java:64-109 | (corrected reset order, see Findings) bind(null) gives the reset state; the parent has a listener iff contentIntent is non-null and is clickable exactly then; with a custom view the big content is visible with exactly that one child and title, text and header are untouched; otherwise the big content is empty and gone, the title is visible iff EXTRA_TITLE is non-empty, the text iff EXTRA_TEXT is non-empty, and the header is bound |
| `EmergencyView.EmergencyNotificationViewHolder.constructor` | src/com/android/car/notification/EmergencyNotificationViewHolder.java:47-57 | the holder works on the given actions view and starts with its layout's state |
| `EmergencyView.EmergencyNotificationViewHolder.Reset` | src/com/android/car/notification/EmergencyNotificationViewHolder.java:114-130 | (corrected reset order, see Findings) all of the holder's views are in the reset state, the parent unclickable, and the actions are reset with the action-bar colour, whatever the state before |
| `EmergencyView.EmergencyNotificationViewHolder.Bind` | src/com/android/car/notification/EmergencyNotificationViewHolder.java:64-109 | (corrected reset order, see Findings) the holder's views are Rendered(sbn); without a custom view the actions are bound outside a group and the emergency colour overrides the bar colour; with a custom view or null the actions stay reset with the action-bar colour; nothing depends on what was bound before |

## Left out

- Window setup, resource lookups and the `getInstance` singleton (CarHeadsUpNotificationManager.java:62-112, 324-329). The configuration flags are constructor inputs.
- Pixel geometry and animation durations of the layout listener (CarHeadsUpNotificationManager.java:180-205). The model keeps only the "play the animation" flag and the scrim becoming visible.
- The layout listener's lifetime. In the model, a second show before the first layout pass replaces the pending listener; in the source both listeners stay registered.
- The dismiss timer's real time. Timers are tokens; the duration does not appear.
- `PreprocessingManager.optimizeForDriving`, `KeyguardManager`, `CarNotificationItemTouchHelper.isCancelable` and `CarUserManagerHelper`: their answers are inputs.
- `CarNotificationDiff.sameNotificationKey` is taken as key equality, false when nothing was visible.
- The message, inbox and basic view holders, `CarNotificationHeaderView` and `HeadsUpNotificationOnTouchListener` are not part of this model. The slot records only which template was bound to which notification, and the header only what it is bound to.
- `PendingIntent.send*` and `IStatusBarService` internals: their outcomes are inputs.
- A RemoteException from `onNotificationClear` or `onNotificationActionClick` comes after everything it could skip, so it has no parameter.
- `HeadsUpEntry` is not part of this model.
- The click listeners installed by the actions view and the emergency holder are modelled by the intent they send. The CanceledException they log is not modelled.
- A null action title, which would throw in `bind`: titles are non-null strings and spannables are plain text.
- `HeadsUp.Step`: events that cannot occur (a removed timer, a swipe before the first show installed a touch listener) leave the state unchanged.
- The layout files are not part of this model. That the bar found by `R.id.notification_actions` is the actions view itself is derived from the ids the Java code uses.
- Logging.

## Findings

| source | as written | input that shows it | evidently intended | confidence | as-written member | corrected member |
|---|---|---|---|---|---|---|
| src/com/android/car/notification/EmergencyNotificationViewHolder.java:115-116 | `reset` calls `setClickable(false)` and then `setOnClickListener(null)`; the platform's `setOnClickListener` makes the view clickable, so the parent ends clickable with no listener | `bind(null)`, or `bind` of a notification without a content intent | the parent is not clickable after reset | medium, not executed; it rests on `View.setOnClickListener` making its view clickable | `EmergencyView.ResetParentAsWritten` | `EmergencyView.ResetParent` |
