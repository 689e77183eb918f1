/** The intent demo: MainActivity builds an explicit intent, a web-page
    view intent and a share intent, and handles the result a launched
    screen returns; SecondActivity picks the message it shows and returns
    a result when the user goes back. */
module IntentDemo {
  import opened Platform

  const MESSAGE_EXTRA := "message"
  const RETURN_MESSAGE_EXTRA := "returnMessage"
  const TEXT_PLAIN := "text/plain"
  const NO_MESSAGE_RECEIVED := "No message received"
  const NO_RETURN_MESSAGE := "No return message"
  const HELLO_FROM_MAIN := "Hello from MainActivity"
  const HELLO_FROM_SECOND := "Hello from SecondActivity"
  const WEB_PAGE := "https://www.google.com"
  const NO_HANDLER_TOAST := "No application can handle this request."
  const SHARE_TITLE := "Share via"
  /** The class MainActivity imports as its explicit target. */
  const EXPLICIT_TARGET := "com.balajiprabhu.intent.explicit.SecondActivity"

  // ---------------------------------------------------------- SecondActivity

  /** A plain-text share: `ACTION_SEND` with type "text/plain". */
  predicate IsTextShare(intent: Intent) {
    intent.action == Some(ACTION_SEND) && intent.mimeType == Some(TEXT_PLAIN)
  }

  /** SecondActivity's message: a plain-text share gives `EXTRA_TEXT`, any
      other intent the "message" extra; either one missing gives "No
      message received". */
  function SelectMessage(intent: Intent): (message: string)
    ensures IsTextShare(intent) && GetStringExtra(intent, EXTRA_TEXT).Some?
            ==> message == GetStringExtra(intent, EXTRA_TEXT).value
    ensures !IsTextShare(intent) && GetStringExtra(intent, MESSAGE_EXTRA).Some?
            ==> message == GetStringExtra(intent, MESSAGE_EXTRA).value
    ensures GetStringExtra(intent, if IsTextShare(intent) then EXTRA_TEXT else MESSAGE_EXTRA).None?
            ==> message == NO_MESSAGE_RECEIVED
  {
    if IsTextShare(intent) then GetStringExtra(intent, EXTRA_TEXT).GetOr(NO_MESSAGE_RECEIVED)
    else GetStringExtra(intent, MESSAGE_EXTRA).GetOr(NO_MESSAGE_RECEIVED)
  }

  /** What a finished activity hands back to its launcher. */
  datatype ActivityResult = ActivityResult(resultCode: int, data: Option<Intent>)

  /** The back button: `RESULT_OK` with "returnMessage" in an otherwise
      empty intent. */
  function BackResult(): ActivityResult {
    ActivityResult(RESULT_OK,
      Some(PutExtra(Intent(None, None, None, None, None, map[]), RETURN_MESSAGE_EXTRA, VStr(HELLO_FROM_SECOND))))
  }

  // ------------------------------------------------------------ MainActivity

  /** The result callback: only `RESULT_OK` shows a toast, with the
      "returnMessage" extra or "No return message". */
  function OnActivityResult(result: ActivityResult): (toast: Option<string>)
    ensures toast.Some? <==> result.resultCode == RESULT_OK
    ensures toast.Some? && result.data.Some? && GetStringExtra(result.data.value, RETURN_MESSAGE_EXTRA).Some?
            ==> toast.value == GetStringExtra(result.data.value, RETURN_MESSAGE_EXTRA).value
    ensures toast.Some? && (result.data.None? || GetStringExtra(result.data.value, RETURN_MESSAGE_EXTRA).None?)
            ==> toast.value == NO_RETURN_MESSAGE
  {
    if result.resultCode == RESULT_OK then
      Some(match result.data
           case None => NO_RETURN_MESSAGE
           case Some(d) => GetStringExtra(d, RETURN_MESSAGE_EXTRA).GetOr(NO_RETURN_MESSAGE))
    else None
  }

  /** "Go to next screen": the explicit intent and its one extra. */
  function ExplicitLaunchIntent(): Intent {
    PutExtra(ExplicitIntent(EXPLICIT_TARGET), MESSAGE_EXTRA, VStr(HELLO_FROM_MAIN))
  }

  function ViewIntent(): Intent {
    ActionIntent(ACTION_VIEW).(data := Some(WEB_PAGE))
  }

  function ShareIntent(): Intent {
    PutExtra(ActionIntent(ACTION_SEND).(mimeType := Some(TEXT_PLAIN)), EXTRA_TEXT, VStr(HELLO_FROM_MAIN))
  }

  /** What a button press does. */
  datatype Launch = Start(intent: Intent) | StartChooser(target: Intent, title: string) | Toast(text: string)

  /** "Open Google": start the view intent when some activity resolves it,
      otherwise show the error toast. Whether it resolves is the package
      manager's answer, a parameter here. */
  function OpenWebPage(resolves: bool): (l: Launch)
    ensures l.Start? <==> resolves
    ensures l.Start? ==> l.intent.action == Some(ACTION_VIEW) && l.intent.data == Some(WEB_PAGE)
    ensures !resolves ==> l == Toast(NO_HANDLER_TOAST)
  {
    if resolves then Start(ViewIntent()) else Toast(NO_HANDLER_TOAST)
  }

  /** "Share Text": always a chooser titled "Share via" around the share. */
  function ShareText(): (l: Launch)
    ensures l.StartChooser? && l.title == SHARE_TITLE && IsTextShare(l.target)
    ensures GetStringExtra(l.target, EXTRA_TEXT) == Some(HELLO_FROM_MAIN)
  {
    StartChooser(ShareIntent(), SHARE_TITLE)
  }

  /** "Go to next screen" carries "Hello from MainActivity" under
      "message" to the imported explicit target. */
  function GoToNextScreen(): (l: Launch)
    ensures l.Start? && l.intent.component == Some(EXPLICIT_TARGET) && l.intent.action.None?
    ensures GetStringExtra(l.intent, MESSAGE_EXTRA) == Some(HELLO_FROM_MAIN)
  {
    Start(ExplicitLaunchIntent())
  }

  // -------------------------------------------------------------- properties

  /** Going back from SecondActivity shows its greeting in MainActivity. */
  lemma BackResultRoundTrip()
    ensures OnActivityResult(BackResult()) == Some(HELLO_FROM_SECOND)
  {
  }

  /** A result without `RESULT_OK`, such as the system back gesture's
      `RESULT_CANCELED`, shows nothing whatever it carries. */
  lemma CanceledShowsNothing(data: Option<Intent>)
    ensures OnActivityResult(ActivityResult(RESULT_CANCELED, data)) == None
  {
  }

  /** The text MainActivity shares is what SecondActivity shows when it is
      picked as the share target. */
  lemma ShareReachesSecondActivity()
    ensures SelectMessage(ShareIntent()) == HELLO_FROM_MAIN
  {
  }

  /** An `ACTION_SEND` of another type reads "message", not `EXTRA_TEXT`:
      the same text shared as an image type shows "No message received". */
  lemma OtherShareTypeIgnoresText()
    ensures SelectMessage(ShareIntent().(mimeType := Some("image/png"))) == NO_MESSAGE_RECEIVED
  {
    assert MESSAGE_EXTRA != EXTRA_TEXT;
  }

  /** A plain-text share without its text falls back, and does not read the
      "message" extra instead. */
  lemma TextShareWithoutTextFallsBack(message: string)
    ensures SelectMessage(PutExtra(ActionIntent(ACTION_SEND).(mimeType := Some(TEXT_PLAIN)),
                                   MESSAGE_EXTRA, VStr(message))) == NO_MESSAGE_RECEIVED
  {
    assert MESSAGE_EXTRA != EXTRA_TEXT;
  }
}
