/** The pendingintent demos: the notification shade as a table keyed by
    notification ID, NotificationIdDemoActivity's two counters (same ID
    replaces, different IDs stack), NotificationSenderActivity's
    permission gate, and NotificationTargetActivity's read-back of the
    `messageId` extra. */
module Notifications {
  import opened Platform
  import opened Text

  const TARGET_ACTIVITY := "com.balajiprabhu.pendingintent.NotificationTargetActivity"
  const MESSAGE_ID_EXTRA := "messageId"
  const NO_MESSAGE_ID := "No message ID"

  /** A posted notification: what it shows, and the PendingIntent behind it
      (its request code and the intent it starts). */
  datatype Notification = Notification(
    channel: string,
    title: string,
    text: string,
    requestCode: int,
    target: Intent)

  /** An intent for NotificationTargetActivity carrying `messageId`. */
  function TargetIntent(messageId: string): Intent {
    PutExtra(ExplicitIntent(TARGET_ACTIVITY), MESSAGE_ID_EXTRA, VStr(messageId))
  }

  /** `hasNotificationPermission()` and the sender's own gate: below SDK 33
      no runtime permission exists; from 33 on it must have been granted. */
  predicate MayNotify(sdk: int, granted: bool) {
    sdk < TIRAMISU || granted
  }

  /** The system's notification shade: `notify` puts under an ID, replacing
      what was there; `cancelAll` empties it. */
  class NotificationShade {
    var posted: map<int, Notification>

    constructor ()
      ensures posted == map[]
    {
      posted := map[];
    }

    method Notify(id: int, n: Notification)
      modifies this
      ensures posted == old(posted)[id := n]
    {
      posted := posted[id := n];
    }

    method CancelAll()
      modifies this
      ensures posted == map[]
    {
      posted := map[];
    }
  }

  // ----------------------------------------------- NotificationIdDemoActivity

  const SAME_ID := 1
  const FIRST_COUNTER := 100

  function SameIdNotification(click: int): Notification {
    Notification("demo_channel", "Same ID Demo",
      "Click #" + IntToString(click) + " - I REPLACE previous notification",
      0, TargetIntent("Same ID - Click #" + IntToString(click)))
  }

  function DifferentIdNotification(id: int): Notification {
    Notification("demo_channel", "Different ID Demo",
      "Notification #" + IntToString(id) + " - I'm SEPARATE!",
      id, TargetIntent("Different ID - #" + IntToString(id)))
  }

  /** Every ID in `posted` is the shared ID 1 or one the counter has
      already handed out: 101 up to the counter. A screen created while
      notifications from an earlier instance of it are still showing does
      not meet this: its counter starts at 100 again. */
  ghost predicate IdsAccountedFor(posted: map<int, Notification>, counter: int) {
    forall id :: id in posted ==> id == SAME_ID || FIRST_COUNTER < id <= counter
  }

  class NotificationIdDemo {
    var clickCount: int
    var notificationIdCounter: int
    const shade: NotificationShade

    ghost predicate Valid()
      reads this
    {
      0 <= clickCount && FIRST_COUNTER <= notificationIdCounter
    }

    /** The screen opens with both counters at their start values, whatever
        the shade still shows (an earlier instance of this screen, destroyed
        by a rotation or by leaving it, may have left 101, 102, ... there). */
    constructor (shade: NotificationShade)
      ensures this.shade == shade && clickCount == 0 && notificationIdCounter == FIRST_COUNTER
      ensures Valid()
      ensures IdsAccountedFor(shade.posted, notificationIdCounter)
              <==> (forall id :: id in shade.posted ==> id == SAME_ID)
    {
      this.shade := shade;
      clickCount := 0;
      notificationIdCounter := FIRST_COUNTER;
    }

    /** `showNotificationWithSameId`: count the click, then post under ID 1
        (request code 0) if permitted, replacing whatever ID 1 showed. */
    method ShowWithSameId(sdk: int, granted: bool)
      requires Valid()
      modifies this, shade
      ensures Valid()
      ensures clickCount == old(clickCount) + 1
      ensures notificationIdCounter == old(notificationIdCounter)
      ensures shade.posted ==
        if MayNotify(sdk, granted) then old(shade.posted)[SAME_ID := SameIdNotification(clickCount)]
        else old(shade.posted)
      ensures shade.posted.Keys <= old(shade.posted.Keys) + {SAME_ID}
      ensures IdsAccountedFor(old(shade.posted), notificationIdCounter)
              ==> IdsAccountedFor(shade.posted, notificationIdCounter)
    {
      clickCount := clickCount + 1;
      if MayNotify(sdk, granted) {
        shade.Notify(SAME_ID, SameIdNotification(clickCount));
      }
    }

    /** `showNotificationWithDifferentId`: advance the counter, then post
        under the new value, which is also the request code. The new ID is
        never the shared ID 1. It stacks when it is not showing yet, which
        is always so while every showing ID was handed out by this screen;
        it replaces a notification an earlier instance of the screen left
        under the same number. */
    method ShowWithDifferentId(sdk: int, granted: bool)
      requires Valid()
      modifies this, shade
      ensures Valid()
      ensures notificationIdCounter == old(notificationIdCounter) + 1
      ensures clickCount == old(clickCount)
      ensures notificationIdCounter != SAME_ID
      ensures shade.posted ==
        if MayNotify(sdk, granted)
        then old(shade.posted)[notificationIdCounter := DifferentIdNotification(notificationIdCounter)]
        else old(shade.posted)
      ensures |shade.posted| == |old(shade.posted)|
                + (if MayNotify(sdk, granted) && notificationIdCounter !in old(shade.posted) then 1 else 0)
      ensures IdsAccountedFor(old(shade.posted), old(notificationIdCounter))
              ==> notificationIdCounter !in old(shade.posted)
                  && IdsAccountedFor(shade.posted, notificationIdCounter)
    {
      notificationIdCounter := notificationIdCounter + 1;
      if MayNotify(sdk, granted) {
        shade.Notify(notificationIdCounter, DifferentIdNotification(notificationIdCounter));
      }
    }

    /** `clearAllNotifications`: empty the shade, reset both counters. */
    method ClearAll()
      requires Valid()
      modifies this, shade
      ensures Valid()
      ensures shade.posted == map[]
      ensures clickCount == 0 && notificationIdCounter == FIRST_COUNTER
      ensures IdsAccountedFor(shade.posted, notificationIdCounter)
    {
      shade.CancelAll();
      clickCount := 0;
      notificationIdCounter := FIRST_COUNTER;
    }
  }

  // ----------------------------------------------- NotificationSenderActivity

  const SENDER_ID := 1
  const SENDER_MESSAGE_ID := "MSG_12345"

  function SenderNotification(): Notification {
    Notification("messaging_channel", "New Message", "You have a new message!",
      0, TargetIntent(SENDER_MESSAGE_ID))
  }

  datatype ClickResponse = ShowNow | RequestPermission

  /** `handleNotificationClick`: from SDK 33 on the click always asks for
      the permission; below it the notification is shown at once. */
  function HandleNotificationClick(sdk: int): (r: ClickResponse)
    ensures r == RequestPermission <==> sdk >= TIRAMISU
    ensures r == ShowNow <==> MayNotify(sdk, false)
  {
    if sdk >= TIRAMISU then RequestPermission else ShowNow
  }

  /** `showNotification`: post under ID 1 when permitted. */
  method ShowNotification(shade: NotificationShade, sdk: int, granted: bool)
    modifies shade
    ensures shade.posted ==
      if MayNotify(sdk, granted) then old(shade.posted)[SENDER_ID := SenderNotification()]
      else old(shade.posted)
  {
    if sdk >= TIRAMISU {
      if granted {
        shade.Notify(SENDER_ID, SenderNotification());
      }
    } else {
      shade.Notify(SENDER_ID, SenderNotification());
    }
  }

  /** A click as the user experiences it: below SDK 33 the notification is
      shown; from 33 on the permission dialog runs, its answer
      `userGrants` is passed to the launcher callback, and the notification
      is shown only when it was granted. */
  method Click(shade: NotificationShade, sdk: int, userGrants: bool)
    modifies shade
    ensures shade.posted ==
      if sdk < TIRAMISU || userGrants then old(shade.posted)[SENDER_ID := SenderNotification()]
      else old(shade.posted)
  {
    match HandleNotificationClick(sdk)
    case ShowNow =>
      ShowNotification(shade, sdk, false);
    case RequestPermission =>
      if userGrants {
        ShowNotification(shade, sdk, true);
      }
  }

  // ----------------------------------------------- NotificationTargetActivity

  /** The target screen shows the `messageId` extra, or "No message ID". */
  function TargetMessageId(intent: Intent): (shown: string)
    ensures GetStringExtra(intent, MESSAGE_ID_EXTRA).Some? ==> shown == GetStringExtra(intent, MESSAGE_ID_EXTRA).value
    ensures GetStringExtra(intent, MESSAGE_ID_EXTRA).None? ==> shown == NO_MESSAGE_ID
  {
    GetStringExtra(intent, MESSAGE_ID_EXTRA).GetOr(NO_MESSAGE_ID)
  }

  /** Tapping a posted notification shows the ID its intent carries. */
  lemma TargetShowsMessageId(messageId: string)
    ensures TargetMessageId(TargetIntent(messageId)) == messageId
  {
  }

  lemma SenderMessageIdArrives()
    ensures TargetMessageId(SenderNotification().target) == "MSG_12345"
  {
    TargetShowsMessageId(SENDER_MESSAGE_ID);
  }

  // ------------------------------------------------------------- scenarios

  /** Two same-ID taps leave one notification, the second; a different-ID
      tap then stacks a second one under ID 101; and a send from the
      sender screen replaces the same-ID one, since both use ID 1. */
  method SameIdReplacesDifferentIdsStack(sdk: int)
  {
    var shade := new NotificationShade();
    var demo := new NotificationIdDemo(shade);
    demo.ShowWithSameId(sdk, true);
    demo.ShowWithSameId(sdk, true);
    assert shade.posted == map[SAME_ID := SameIdNotification(2)];
    demo.ShowWithDifferentId(sdk, true);
    assert shade.posted.Keys == {1, 101};
    Click(shade, sdk, true);
    assert shade.posted[1] == SenderNotification() && shade.posted.Keys == {1, 101};
    assert demo.Valid();
    demo.ClearAll();
    demo.ShowWithDifferentId(sdk, true);
    assert shade.posted.Keys == {101};
  }

  /** Without the permission on SDK 33 and above, taps still advance both
      counters, but nothing is posted. */
  method DeniedStillCounts(sdk: int)
    requires sdk >= TIRAMISU
  {
    var shade := new NotificationShade();
    var demo := new NotificationIdDemo(shade);
    demo.ShowWithSameId(sdk, false);
    demo.ShowWithDifferentId(sdk, false);
    assert demo.clickCount == 1 && demo.notificationIdCounter == 101;
    assert shade.posted == map[];
  }

  /** A recreated screen starts counting at 100 again while the earlier
      instance's notification 101 is still showing: its first different-ID
      tap posts under 101 again and replaces that notification, so the
      shade does not grow. */
  method RecreatedScreenReplaces(sdk: int)
  {
    var shade := new NotificationShade();
    var first := new NotificationIdDemo(shade);
    first.ShowWithDifferentId(sdk, true);
    assert shade.posted.Keys == {101};
    var second := new NotificationIdDemo(shade);
    second.ShowWithDifferentId(sdk, true);
    assert shade.posted.Keys == {101} && |shade.posted| == 1;
    assert shade.posted[101] == DifferentIdNotification(101);
  }
}
