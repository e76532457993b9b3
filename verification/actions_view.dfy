/**
 * CarNotificationActionsView: a bar of three action buttons.  `bind` first
 * resets every button, then fills the first min(|actions|, 3) of them in place.
 */
module ActionsView {
  import opened Notifications

  const MAX_NUM_ACTIONS: nat := 3

  /** The background colours the bar uses (action_bar_color, car_card, the emergency bar colour). */
  datatype Color = ActionBarColor | CardColor | EmergencyActionBarColor

  /**
   * A button as bind and reset leave it: visibility, text, whether it still
   * carries compound drawables, and the intent its click listener sends.
   */
  datatype Button = Button(visibility: Visibility, text: Option<string>, hasDrawables: bool,
                           listener: Option<PendingIntent>)

  const ResetButton := Button(Gone, None, false, None)

  function Min(a: nat, b: nat): nat {
    if a < b then a else b
  }

  /** The number of buttons bind fills for an action array (a null array fills none). */
  function BoundCount(actions: Option<seq<Action>>): (k: nat)
    ensures k <= MAX_NUM_ACTIONS
    ensures actions.None? ==> k == 0
    ensures actions.Some? ==> k == Min(|actions.value|, MAX_NUM_ACTIONS)
  {
    if actions.None? then 0 else Min(|actions.value|, MAX_NUM_ACTIONS)
  }

  /** Button `i` after bind: filled from action `i` below the bound, reset above it. */
  function BoundButton(actions: Option<seq<Action>>, i: nat): (b: Button)
    ensures i < BoundCount(actions) ==>
              b.visibility == Visible && b.text == Some(actions.value[i].title)
              && b.listener == actions.value[i].actionIntent && !b.hasDrawables
    ensures i >= BoundCount(actions) ==> b == ResetButton
  {
    if i < BoundCount(actions) then
      var action := actions.value[i];
      Button(Visible, Some(action.title), false, action.actionIntent)
    else ResetButton
  }

  /** The three buttons after bind. */
  function BoundButtons(actions: Option<seq<Action>>): (bs: seq<Button>)
    ensures |bs| == MAX_NUM_ACTIONS
    ensures forall i :: 0 <= i < MAX_NUM_ACTIONS ==> bs[i] == BoundButton(actions, i)
  {
    [BoundButton(actions, 0), BoundButton(actions, 1), BoundButton(actions, 2)]
  }

  function VisibleCount(buttons: seq<Button>): nat
    decreases |buttons|
  {
    if buttons == [] then 0
    else (if buttons[0].visibility == Visible then 1 else 0) + VisibleCount(buttons[1..])
  }

  /** When exactly the first k buttons are visible, k buttons are visible. */
  lemma {:induction false} VisiblePrefixCount(buttons: seq<Button>, k: nat)
    requires k <= |buttons|
    requires forall i :: 0 <= i < |buttons| ==> (buttons[i].visibility == Visible <==> i < k)
    ensures VisibleCount(buttons) == k
    decreases |buttons|
  {
    if buttons != [] {
      var rest := buttons[1..];
      if k == 0 {
        assert forall i :: 0 <= i < |rest| ==> rest[i] == buttons[i + 1];
        VisiblePrefixCount(rest, 0);
      } else {
        assert forall i :: 0 <= i < |rest| ==> rest[i] == buttons[i + 1];
        VisiblePrefixCount(rest, k - 1);
      }
    }
  }

  /**
   * After bind exactly min(|actions|, 3) buttons are visible, they are the
   * first ones, button i shows action i's title, and it has a click listener
   * iff action i has an intent.
   */
  lemma BoundButtonsShowActions(actions: Option<seq<Action>>)
    ensures VisibleCount(BoundButtons(actions)) == BoundCount(actions)
    ensures forall i :: 0 <= i < MAX_NUM_ACTIONS ==>
              (BoundButtons(actions)[i].visibility == Visible <==> i < BoundCount(actions))
    ensures forall i :: 0 <= i < BoundCount(actions) ==>
              BoundButtons(actions)[i].text == Some(actions.value[i].title)
              && (BoundButtons(actions)[i].listener.Some? <==> actions.value[i].actionIntent.Some?)
  {
    VisiblePrefixCount(BoundButtons(actions), BoundCount(actions));
  }

  /** With a null or empty action array every button is reset. */
  lemma NoActionsLeaveAllReset(actions: Option<seq<Action>>)
    requires actions.None? || actions.value == []
    ensures BoundButtons(actions) == [ResetButton, ResetButton, ResetButton]
    ensures VisibleCount(BoundButtons(actions)) == 0
  {
    BoundButtonsShowActions(actions);
  }

  class CarNotificationActionsView {
    /** mActionButtons, filled with the three buttons of the layout in onFinishInflate. */
    const buttons: array<Button>
    /** The visibility of the whole actions view. */
    var visibility: Visibility
    /**
     * The background colour of the bar.  The bar is found by the id
     * notification_actions, the id the holders find this view by, and
     * findViewById matches a view's own id first, so bind, reset and a
     * holder's setBackgroundColor all colour this one view.
     */
    var barColor: Color

    ghost predicate Valid()
      reads this
    {
      buttons.Length == MAX_NUM_ACTIONS
    }

    /** Inflation and onFinishInflate: the three buttons come from the layout. */
    constructor (layoutButtons: seq<Button>, layoutBarColor: Color)
      requires |layoutButtons| == MAX_NUM_ACTIONS
      ensures Valid() && fresh(buttons) && buttons[..] == layoutButtons
      ensures visibility == Visible && barColor == layoutBarColor
    {
      buttons := new Button[MAX_NUM_ACTIONS](i requires 0 <= i < MAX_NUM_ACTIONS => layoutButtons[i]);
      visibility := Visible;
      barColor := layoutBarColor;
    }

    /** reset: the view and every button gone, texts and listeners cleared, bar colour restored. */
    method Reset()
      requires Valid()
      modifies this, buttons
      ensures Valid()
      ensures visibility == Gone && barColor == ActionBarColor
      ensures buttons[..] == [ResetButton, ResetButton, ResetButton]
    {
      visibility := Gone;
      barColor := ActionBarColor;
      var i := 0;
      while i < buttons.Length
        modifies buttons
        invariant 0 <= i <= buttons.Length
        invariant forall k :: 0 <= k < i ==> buttons[k] == ResetButton
      {
        buttons[i] := buttons[i].(visibility := Gone);
        buttons[i] := buttons[i].(text := None);
        buttons[i] := buttons[i].(hasDrawables := false);
        buttons[i] := buttons[i].(listener := None);
        i := i + 1;
      }
    }

    /**
     * bind: reset, then (for a non-empty action array) show the view, colour the
     * bar for the group or not, and fill the first buttons in place.  The result
     * does not depend on what was bound before.
     */
    method Bind(sbn: StatusBarNotification, isInGroup: bool)
      requires Valid()
      modifies this, buttons
      ensures Valid()
      ensures buttons[..] == BoundButtons(sbn.notification.actions)
      ensures visibility == (if BoundCount(sbn.notification.actions) > 0 then Visible else Gone)
      ensures barColor == (if BoundCount(sbn.notification.actions) > 0 && isInGroup then CardColor else ActionBarColor)
    {
      Reset();
      var actions := sbn.notification.actions;
      if actions.None? || |actions.value| == 0 {
        return;
      }
      visibility := Visible;
      barColor := if isInGroup then CardColor else ActionBarColor;

      var length := Min(|actions.value|, MAX_NUM_ACTIONS);
      for i := 0 to length
        modifies buttons
        invariant forall k :: 0 <= k < i ==> buttons[k] == BoundButton(actions, k)
        invariant forall k :: i <= k < MAX_NUM_ACTIONS ==> buttons[k] == ResetButton
      {
        var action := actions.value[i];
        buttons[i] := buttons[i].(visibility := Visible);
        buttons[i] := buttons[i].(text := Some(action.title));
        if action.actionIntent.Some? {
          buttons[i] := buttons[i].(listener := action.actionIntent);
        }
      }
    }

    /**
     * View.setBackgroundColor called by a holder: it replaces whatever colour
     * bind or reset gave the bar and changes nothing else.
     */
    method SetBackgroundColor(color: Color)
      requires Valid()
      modifies this
      ensures Valid()
      ensures barColor == color
      ensures visibility == old(visibility) && buttons[..] == old(buttons[..])
    {
      barColor := color;
    }
  }
}
