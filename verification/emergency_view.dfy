/**
 * EmergencyNotificationViewHolder: the template for a car emergency
 * notification.  `bind` resets every view first; it then shows either only a
 * custom big content view, or the header, the actions and the title and text
 * that are not empty.
 */
module EmergencyView {
  import opened Notifications
  import opened ActionsView

  /** The parent view's click state: whether it is clickable and the intent its listener sends. */
  datatype ParentView = ParentView(clickable: bool, listener: Option<PendingIntent>)

  /** View.setClickable. */
  function SetClickable(p: ParentView, clickable: bool): (q: ParentView)
    ensures q.clickable == clickable && q.listener == p.listener
  {
    p.(clickable := clickable)
  }

  /** View.setOnClickListener: setting a listener, even a null one, makes the view clickable. */
  function SetOnClickListener(p: ParentView, listener: Option<PendingIntent>): (q: ParentView)
    ensures q.clickable && q.listener == listener
  {
    ParentView(true, listener)
  }

  /**
   * The first two statements of reset in the source's order: setClickable(false)
   * and then setOnClickListener(null), which makes the parent clickable again.
   */
  function ResetParentAsWritten(p: ParentView): (q: ParentView)
    ensures q.clickable && q.listener.None?
  {
    SetOnClickListener(SetClickable(p, false), None)
  }

  /** The same two calls in the order that leaves the parent unclickable and without a listener. */
  function ResetParent(p: ParentView): (q: ParentView)
    ensures !q.clickable && q.listener.None?
  {
    SetClickable(SetOnClickListener(p, None), false)
  }

  /** Whatever the parent's state, the reset as written leaves it clickable; the corrected one does not. */
  lemma ResetAsWrittenLeavesParentClickable(p: ParentView)
    ensures ResetParentAsWritten(p) == ParentView(true, None)
    ensures ResetParent(p) == ParentView(false, None)
  {
  }

  /** The holder's own views, as bind leaves them (the actions view is described apart). */
  datatype EmergencyState = EmergencyState(
    parent: ParentView,
    bigContent: seq<RemoteViews>,
    bigContentVisibility: Visibility,
    title: Option<string>,
    titleVisibility: Visibility,
    text: Option<string>,
    textVisibility: Visibility,
    header: Option<StatusBarNotification>)

  const ResetState := EmergencyState(ParentView(false, None), [], Gone, None, Gone, None, Gone, None)

  /** A text view showing `s` when it is not empty, and nothing otherwise. */
  function ShownText(s: Option<string>): (r: (Option<string>, Visibility))
    ensures r.1 == Visible <==> !IsEmpty(s)
    ensures r.1 == Visible ==> r.0 == s
    ensures r.1 == Gone ==> r.0.None?
  {
    if IsEmpty(s) then (None, Gone) else (s, Visible)
  }

  /** The holder's views after bind(sbn); bind(null) leaves the reset state. */
  function Rendered(sbn: Option<StatusBarNotification>): (v: EmergencyState)
    ensures sbn.None? ==> v == ResetState
    ensures sbn.Some? ==> v.parent.listener == sbn.value.notification.contentIntent
    ensures v.parent.clickable <==> v.parent.listener.Some?
    ensures sbn.Some? && sbn.value.notification.bigContentView.Some? ==>
              && v.bigContent == [sbn.value.notification.bigContentView.value]
              && v.bigContentVisibility == Visible
              && v.titleVisibility == Gone && v.textVisibility == Gone
              && v.title.None? && v.text.None? && v.header.None?
    ensures sbn.Some? && sbn.value.notification.bigContentView.None? ==>
              && v.bigContent == [] && v.bigContentVisibility == Gone
              && (v.titleVisibility == Visible <==> !IsEmpty(sbn.value.notification.extras.title))
              && (v.textVisibility == Visible <==> !IsEmpty(sbn.value.notification.extras.text))
              && (v.titleVisibility == Visible ==> v.title == sbn.value.notification.extras.title)
              && (v.textVisibility == Visible ==> v.text == sbn.value.notification.extras.text)
              && v.header == sbn
  {
    if sbn.None? then ResetState
    else
      var n := sbn.value.notification;
      var parent := if n.contentIntent.Some? then ParentView(true, n.contentIntent) else ParentView(false, None);
      if n.bigContentView.Some? then
        ResetState.(parent := parent, bigContent := [n.bigContentView.value], bigContentVisibility := Visible)
      else
        var (title, titleVisibility) := ShownText(n.extras.title);
        var (text, textVisibility) := ShownText(n.extras.text);
        ResetState.(parent := parent, title := title, titleVisibility := titleVisibility,
                    text := text, textVisibility := textVisibility, header := sbn)
  }

  /** Whether bind reaches the header and the actions (a notification without a custom view). */
  predicate BindsActions(sbn: Option<StatusBarNotification>) {
    sbn.Some? && sbn.value.notification.bigContentView.None?
  }

  class EmergencyNotificationViewHolder {
    const actionsView: CarNotificationActionsView
    var parent: ParentView
    var bigContent: seq<RemoteViews>
    var bigContentVisibility: Visibility
    var title: Option<string>
    var titleVisibility: Visibility
    var text: Option<string>
    var textVisibility: Visibility
    /** What the header view is bound to; None after its reset. */
    var header: Option<StatusBarNotification>

    function State(): EmergencyState
      reads this
    {
      EmergencyState(parent, bigContent, bigContentVisibility, title, titleVisibility, text, textVisibility, header)
    }

    ghost predicate Valid()
      reads this, actionsView
    {
      actionsView.Valid()
    }

    /** The holder over an inflated layout: its views start as the layout has them. */
    constructor (actionsView: CarNotificationActionsView, layout: EmergencyState)
      requires actionsView.Valid()
      ensures Valid() && this.actionsView == actionsView && State() == layout
    {
      this.actionsView := actionsView;
      parent := layout.parent;
      bigContent := layout.bigContent;
      bigContentVisibility := layout.bigContentVisibility;
      title := layout.title;
      titleVisibility := layout.titleVisibility;
      text := layout.text;
      textVisibility := layout.textVisibility;
      header := layout.header;
    }

    /** reset, with the parent's two calls in the corrected order (see ResetParent). */
    method Reset()
      requires Valid()
      modifies this, actionsView, actionsView.buttons
      ensures Valid()
      ensures State() == ResetState
      ensures actionsView.buttons[..] == [ResetButton, ResetButton, ResetButton]
      ensures actionsView.visibility == Gone && actionsView.barColor == ActionBarColor
    {
      parent := SetOnClickListener(parent, None);
      parent := SetClickable(parent, false);

      bigContent := [];
      bigContentVisibility := Gone;

      title := None;
      titleVisibility := Gone;

      text := None;
      textVisibility := Gone;

      header := None;

      actionsView.Reset();
    }

    /**
     * bind.  The holder's views and the actions end as below, whatever was
     * bound before.  Without a custom view the actions are bound outside a
     * group and the emergency colour then overrides the bar colour bind set;
     * otherwise the actions stay reset with the action-bar colour.
     */
    method Bind(sbn: Option<StatusBarNotification>)
      requires Valid()
      modifies this, actionsView, actionsView.buttons
      ensures Valid()
      ensures State() == Rendered(sbn)
      ensures BindsActions(sbn) ==>
                && actionsView.buttons[..] == BoundButtons(sbn.value.notification.actions)
                && actionsView.visibility == (if BoundCount(sbn.value.notification.actions) > 0 then Visible else Gone)
                && actionsView.barColor == EmergencyActionBarColor
      ensures !BindsActions(sbn) ==>
                && actionsView.buttons[..] == [ResetButton, ResetButton, ResetButton]
                && actionsView.visibility == Gone && actionsView.barColor == ActionBarColor
    {
      Reset();
      if sbn.None? {
        return;
      }
      var notification := sbn.value.notification;

      if notification.contentIntent.Some? {
        parent := SetOnClickListener(parent, notification.contentIntent);
      }

      if notification.bigContentView.Some? {
        bigContentVisibility := Visible;
        bigContent := bigContent + [notification.bigContentView.value];
        // a custom content view is shown alone
        return;
      }

      header := sbn;
      actionsView.Bind(sbn.value, false);

      // the emergency colour overrides the bar colour set by bind
      actionsView.SetBackgroundColor(EmergencyActionBarColor);

      var extraTitle := notification.extras.title;
      if !IsEmpty(extraTitle) {
        titleVisibility := Visible;
        title := extraTitle;
      }

      var extraText := notification.extras.text;
      if !IsEmpty(extraText) {
        textVisibility := Visible;
        text := extraText;
      }
    }
  }
}
