/** The slice of the Android platform the demos touch: intents with typed
    extras, bundles, the extras lookups with their defaults, and the
    framework constants the demos compare against. */
module Platform {

  datatype Option<+T> = None | Some(value: T) {
    /** Kotlin's `?:` — the value, or `default` when absent. */
    function GetOr(default: T): T {
      match this
      case Some(v) => v
      case None => default
    }
  }

  datatype Result<+T, +E> = Ok(value: T) | Err(error: E)

  /** A value stored in an intent's extras or in a Bundle. Android keeps the
      runtime type: a Long stored with putExtra is not readable as an Int. */
  datatype Value = VStr(str: string) | VLong(long: int) | VInt(intValue: int) | VBool(boolValue: bool)

  /** Intent extras and Bundle contents: key to typed value. */
  type Extras = map<string, Value>

  datatype Intent = Intent(
    action: Option<string>,
    mimeType: Option<string>,
    targetPackage: Option<string>,
    component: Option<string>,
    data: Option<string>,
    extras: Extras)

  /** `Intent(action)`: an action and nothing else. */
  function ActionIntent(action: string): Intent {
    Intent(Some(action), None, None, None, None, map[])
  }

  /** `Intent(context, Target::class.java)`: an explicit intent, no action. */
  function ExplicitIntent(component: string): Intent {
    Intent(None, None, None, Some(component), None, map[])
  }

  /** `putExtra(key, value)`: a later put under the same key overwrites. */
  function PutExtra(i: Intent, key: string, v: Value): Intent {
    i.(extras := i.extras[key := v])
  }

  /** `getString(key)` on extras: null (None) when absent or not a String. */
  function GetString(extras: Extras, key: string): Option<string> {
    if key in extras && extras[key].VStr? then Some(extras[key].str) else None
  }

  /** `getLong(key, default)`: the default when absent or not a Long. */
  function GetLong(extras: Extras, key: string, default: int): int {
    if key in extras && extras[key].VLong? then extras[key].long else default
  }

  /** `getInt(key, default)`: the default when absent or not an Int. */
  function GetInt(extras: Extras, key: string, default: int): int {
    if key in extras && extras[key].VInt? then extras[key].intValue else default
  }

  /** `getBoolean(key, default)`: the default when absent or not a Boolean. */
  function GetBoolean(extras: Extras, key: string, default: bool): bool {
    if key in extras && extras[key].VBool? then extras[key].boolValue else default
  }

  function GetStringExtra(i: Intent, key: string): Option<string> {
    GetString(i.extras, key)
  }

  /** What one `onReceive` of an ordered receiver does that others can see:
      whether it called `abortBroadcast`, and the toast it showed. */
  datatype ReceiveEffect = ReceiveEffect(aborted: bool, toast: Option<string>)

  // Framework constants (android.content.Intent, android.app.Activity, Build).
  const ACTION_SEND := "android.intent.action.SEND"
  const ACTION_VIEW := "android.intent.action.VIEW"
  const ACTION_AIRPLANE_MODE_CHANGED := "android.intent.action.AIRPLANE_MODE"
  const EXTRA_TEXT := "android.intent.extra.TEXT"
  const RESULT_OK := -1
  const RESULT_CANCELED := 0
  /** Build.VERSION_CODES.TIRAMISU, the first SDK with POST_NOTIFICATIONS. */
  const TIRAMISU := 33
}
