/** Custom broadcasts: BroadcastSenderActivity encodes a message and a
    timestamp into an intent and counts its sends; CustomMessageReceiver
    routes by action and decodes the extras with defaults; and
    BroadcastReceiverActivity keeps what it receives, newest first, while
    it is started. */
module CustomBroadcast {
  import opened Platform

  const ACTION_CUSTOM_MESSAGE := "com.balajiprabhu.broadcastreceiver.CUSTOM_MESSAGE"
  const EXTRA_MESSAGE := "extra_message"
  const EXTRA_TIMESTAMP := "extra_timestamp"
  const NO_MESSAGE := "No message"
  const TOAST_PREFIX := "📨 "

  // ---------------------------------------------------------------- sender

  /** `sendCustomBroadcast`'s intent: the custom action, the message and the
      send time under their keys, restricted to the sender's own package. */
  function CustomMessageIntent(message: string, now: int, packageName: string): Intent {
    PutExtra(PutExtra(ActionIntent(ACTION_CUSTOM_MESSAGE), EXTRA_MESSAGE, VStr(message)),
             EXTRA_TIMESTAMP, VLong(now)).(targetPackage := Some(packageName))
  }

  /** What the intent carries, key by key. */
  lemma CustomMessageIntentCarries(message: string, now: int, packageName: string)
    ensures var i := CustomMessageIntent(message, now, packageName);
      && i.action == Some(ACTION_CUSTOM_MESSAGE)
      && i.extras == map[EXTRA_MESSAGE := VStr(message), EXTRA_TIMESTAMP := VLong(now)]
      && i.targetPackage == Some(packageName)
  {
  }

  class BroadcastSender {
    var broadcastCount: int
    const packageName: string

    constructor (packageName: string)
      ensures broadcastCount == 0 && this.packageName == packageName
    {
      broadcastCount := 0;
      this.packageName := packageName;
    }

    /** Sends the broadcast (returned, for the platform to deliver) and
        counts it, whether or not anything is listening. The clock reading
        `System.currentTimeMillis()` is the parameter `now`. */
    method SendCustomBroadcast(message: string, now: int) returns (sent: Intent)
      modifies this
      ensures sent == CustomMessageIntent(message, now, packageName)
      ensures broadcastCount == old(broadcastCount) + 1
    {
      sent := CustomMessageIntent(message, now, packageName);
      broadcastCount := broadcastCount + 1;
    }
  }

  // -------------------------------------------------------------- receiver

  /** The arguments `onMessageReceived` is called with. */
  datatype Callback = Callback(message: string, timestamp: int)

  /** What one `onReceive` does: the callback it makes, the toast it shows. */
  datatype ReceiveOutcome = ReceiveOutcome(callback: Option<Callback>, toast: Option<string>)

  /** `CustomMessageReceiver.onReceive`: only the custom action calls back,
      with the message (default "No message") and the timestamp (default
      0); a toast is shown when there is a context. A null intent or any
      other action is only logged. */
  function OnReceive(intent: Option<Intent>, hasContext: bool): (o: ReceiveOutcome)
    ensures o.callback.Some? <==> intent.Some? && intent.value.action == Some(ACTION_CUSTOM_MESSAGE)
    ensures o.callback.Some? ==>
      && (o.callback.value.message ==
            if EXTRA_MESSAGE in intent.value.extras && intent.value.extras[EXTRA_MESSAGE].VStr?
            then intent.value.extras[EXTRA_MESSAGE].str else NO_MESSAGE)
      && (o.callback.value.timestamp ==
            if EXTRA_TIMESTAMP in intent.value.extras && intent.value.extras[EXTRA_TIMESTAMP].VLong?
            then intent.value.extras[EXTRA_TIMESTAMP].long else 0)
    ensures o.toast.Some? <==> o.callback.Some? && hasContext
    ensures o.toast.Some? ==> o.toast.value == TOAST_PREFIX + o.callback.value.message
  {
    if intent.Some? && intent.value.action == Some(ACTION_CUSTOM_MESSAGE) then
      var message := GetStringExtra(intent.value, EXTRA_MESSAGE).GetOr(NO_MESSAGE);
      var timestamp := GetLong(intent.value.extras, EXTRA_TIMESTAMP, 0);
      ReceiveOutcome(Some(Callback(message, timestamp)), if hasContext then Some(TOAST_PREFIX + message) else None)
    else
      ReceiveOutcome(None, None)
  }

  /** Round trip: the receiver decodes exactly what the sender encoded. */
  lemma SendReceiveRoundTrip(message: string, now: int, packageName: string, hasContext: bool)
    ensures OnReceive(Some(CustomMessageIntent(message, now, packageName)), hasContext).callback
         == Some(Callback(message, now))
  {
  }

  /** A bare custom-action intent decodes to the two defaults. */
  lemma DefaultsWhenExtrasMissing(hasContext: bool)
    ensures OnReceive(Some(ActionIntent(ACTION_CUSTOM_MESSAGE)), hasContext).callback
         == Some(Callback(NO_MESSAGE, 0))
  {
  }

  // ------------------------------------------------ BroadcastReceiverActivity

  /** One entry of the screen's list; `id` stands for the random UUID the
      entry is given, passed in rather than generated. */
  datatype ReceivedMessage = ReceivedMessage(message: string, timestamp: int, id: string)

  class BroadcastReceiverActivity {
    var receivedMessages: seq<ReceivedMessage>
    /** Whether `customMessageReceiver` is registered with the platform. */
    var registered: bool

    constructor ()
      ensures receivedMessages == [] && !registered
    {
      receivedMessages := [];
      registered := false;
    }

    method OnStart()
      modifies this
      ensures registered && receivedMessages == old(receivedMessages)
    {
      registered := true;
    }

    /** `unregisterReceiver` throws when the receiver is not registered:
        that case is `ok == false`. */
    method OnStop() returns (ok: bool)
      modifies this
      ensures ok == old(registered)
      ensures !registered && receivedMessages == old(receivedMessages)
    {
      ok := registered;
      registered := false;
    }

    /** The callback: the new entry goes in at index 0. */
    method OnMessageReceived(message: string, timestamp: int, id: string)
      modifies this
      ensures receivedMessages == [ReceivedMessage(message, timestamp, id)] + old(receivedMessages)
      ensures registered == old(registered)
    {
      receivedMessages := [ReceivedMessage(message, timestamp, id)] + receivedMessages;
    }

    /** The platform hands a broadcast to the registered receiver when its
        action matches the filter; the receiver then calls back. */
    method Receive(intent: Intent, id: string)
      modifies this
      ensures registered == old(registered)
      ensures var o := OnReceive(Some(intent), true);
        receivedMessages ==
          if old(registered) && intent.action == Some(ACTION_CUSTOM_MESSAGE)
          then [ReceivedMessage(o.callback.value.message, o.callback.value.timestamp, id)] + old(receivedMessages)
          else old(receivedMessages)
    {
      if registered && intent.action == Some(ACTION_CUSTOM_MESSAGE) {
        var o := OnReceive(Some(intent), true);
        OnMessageReceived(o.callback.value.message, o.callback.value.timestamp, id);
      }
    }
  }

  /** The list after a run of deliveries, each put in at the front. */
  function AfterDeliveries(list: seq<ReceivedMessage>, delivered: seq<ReceivedMessage>): seq<ReceivedMessage>
    decreases |delivered|
  {
    if delivered == [] then list else AfterDeliveries([delivered[0]] + list, delivered[1..])
  }

  function Reversed(s: seq<ReceivedMessage>): (r: seq<ReceivedMessage>)
    ensures |r| == |s|
    decreases |s|
  {
    if s == [] then [] else Reversed(s[1..]) + [s[0]]
  }

  /** Newest first: deliveries end up in reverse order of arrival, ahead of
      the older entries, which keep their own order. */
  lemma {:induction false} NewestFirst(list: seq<ReceivedMessage>, delivered: seq<ReceivedMessage>)
    ensures AfterDeliveries(list, delivered) == Reversed(delivered) + list
    decreases |delivered|
  {
    if delivered != [] {
      NewestFirst([delivered[0]] + list, delivered[1..]);
    }
  }

  /** A send while the receiving screen is started lands at the head of its
      list, message and timestamp unchanged. */
  method SendWhileListening(sender: BroadcastSender, screen: BroadcastReceiverActivity,
                            message: string, now: int, id: string)
    modifies sender, screen
  {
    screen.OnStart();
    var count := sender.broadcastCount;
    var sent := sender.SendCustomBroadcast(message, now);
    screen.Receive(sent, id);
    assert screen.receivedMessages[0] == ReceivedMessage(message, now, id);
    assert sender.broadcastCount == count + 1;
  }
}
