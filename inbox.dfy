/** InboxReceiver: the low-priority link of the ordered chain. It shows
    whatever message reaches it and never aborts. */
module Inbox {
  import opened Platform
  import opened OrderedConstants

  const INBOX_PREFIX := "📨 Inbox: "

  /** `onReceive`: a missing message returns early; a present one is shown
      verbatim after the inbox prefix. */
  function OnReceive(intent: Intent): (e: ReceiveEffect)
    ensures !e.aborted
    ensures e.toast.Some? <==> EXTRA_MESSAGE in intent.extras && intent.extras[EXTRA_MESSAGE].VStr?
    ensures e.toast.Some? ==> e.toast.value == INBOX_PREFIX + intent.extras[EXTRA_MESSAGE].str
  {
    match GetStringExtra(intent, EXTRA_MESSAGE)
    case None => ReceiveEffect(false, None)
    case Some(message) => ReceiveEffect(false, Some(INBOX_PREFIX + message))
  }
}
