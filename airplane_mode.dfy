/** The airplane-mode demo: AirplaneModeReceiver reads the system
    broadcast's "state" extra, and BroadcastDemoActivity shows the last
    state delivered while it is started. */
module AirplaneMode {
  import opened Platform

  const STATE_EXTRA := "state"
  const ON_TOAST := "Airplane Mode ON ✈️"
  const OFF_TOAST := "Airplane Mode OFF 📡"

  /** The state handed to the callback and the toast shown with it. */
  datatype AirplaneEffect = AirplaneEffect(state: bool, toast: string)

  /** `AirplaneModeReceiver.onReceive`: any other action is ignored; the
      state is the boolean extra, false when absent or not a boolean. */
  function OnReceive(intent: Intent): (e: Option<AirplaneEffect>)
    ensures e.Some? <==> intent.action == Some(ACTION_AIRPLANE_MODE_CHANGED)
    ensures e.Some? ==> (e.value.state <==>
      STATE_EXTRA in intent.extras && intent.extras[STATE_EXTRA] == VBool(true))
    ensures e.Some? ==> (e.value.toast == ON_TOAST <==> e.value.state)
    ensures e.Some? ==> (e.value.toast == OFF_TOAST <==> !e.value.state)
  {
    if intent.action == Some(ACTION_AIRPLANE_MODE_CHANGED) then
      var enabled := GetBoolean(intent.extras, STATE_EXTRA, false);
      Some(AirplaneEffect(enabled, if enabled then ON_TOAST else OFF_TOAST))
    else
      None
  }

  /** The system broadcast for a switch to `on`. */
  function AirplaneModeIntent(on: bool): Intent {
    PutExtra(ActionIntent(ACTION_AIRPLANE_MODE_CHANGED), STATE_EXTRA, VBool(on))
  }

  /** The receiver reports back the state the system broadcast carries. */
  lemma ReportsBroadcastState(on: bool)
    ensures OnReceive(AirplaneModeIntent(on)) == Some(AirplaneEffect(on, if on then ON_TOAST else OFF_TOAST))
  {
  }

  class BroadcastDemoActivity {
    var isAirplaneModeOn: bool
    /** Whether `airplaneModeReceiver` is registered with the platform. */
    var registered: bool

    constructor ()
      ensures !isAirplaneModeOn && !registered
    {
      isAirplaneModeOn := false;
      registered := false;
    }

    method OnStart()
      modifies this
      ensures registered && isAirplaneModeOn == old(isAirplaneModeOn)
    {
      registered := true;
    }

    /** `unregisterReceiver` throws when the receiver is not registered:
        that case is `ok == false`. */
    method OnStop() returns (ok: bool)
      modifies this
      ensures ok == old(registered)
      ensures !registered && isAirplaneModeOn == old(isAirplaneModeOn)
    {
      ok := registered;
      registered := false;
    }

    /** The platform delivers a broadcast; the filter admits only the
        airplane-mode action, and the callback stores the state. */
    method Receive(intent: Intent) returns (toast: Option<string>)
      modifies this
      ensures registered == old(registered)
      ensures toast.Some? <==> old(registered) && intent.action == Some(ACTION_AIRPLANE_MODE_CHANGED)
      ensures isAirplaneModeOn ==
        if toast.Some? then GetBoolean(intent.extras, STATE_EXTRA, false) else old(isAirplaneModeOn)
      ensures old(registered) ==> isAirplaneModeOn == LastState(old(isAirplaneModeOn), [intent])
    {
      toast := None;
      if registered {
        var e := OnReceive(intent);
        if e.Some? {
          isAirplaneModeOn := e.value.state;
          toast := Some(e.value.toast);
        }
      }
    }
  }

  /** The screen's state after a run of broadcasts: the last airplane-mode
      state delivered, or `initial` when none was. */
  function LastState(initial: bool, intents: seq<Intent>): bool
    decreases |intents|
  {
    if intents == [] then initial
    else
      var e := OnReceive(intents[|intents| - 1]);
      if e.Some? then e.value.state else LastState(initial, intents[..|intents| - 1])
  }

  /** Only airplane-mode broadcasts matter: appending other broadcasts does
      not change the last state. */
  lemma {:induction false} OtherActionsIgnored(initial: bool, intents: seq<Intent>, others: seq<Intent>)
    requires forall k :: 0 <= k < |others| ==> others[k].action != Some(ACTION_AIRPLANE_MODE_CHANGED)
    ensures LastState(initial, intents + others) == LastState(initial, intents)
    decreases |others|
  {
    if others == [] {
      assert intents + others == intents;
    } else {
      var all := intents + others;
      assert all[..|all| - 1] == intents + others[..|others| - 1];
      assert all[|all| - 1] == others[|others| - 1];
      OtherActionsIgnored(initial, intents, others[..|others| - 1]);
    }
  }

  /** The screen shows the state of the last airplane-mode broadcast,
      whatever came before it and whatever other broadcasts follow. */
  lemma LastDeliveredWins(initial: bool, before: seq<Intent>, on: bool, others: seq<Intent>)
    requires forall k :: 0 <= k < |others| ==> others[k].action != Some(ACTION_AIRPLANE_MODE_CHANGED)
    ensures LastState(initial, before + [AirplaneModeIntent(on)] + others) == on
  {
    OtherActionsIgnored(initial, before + [AirplaneModeIntent(on)], others);
  }

  /** Before any broadcast the screen shows airplane mode off. */
  lemma StartsOff(intents: seq<Intent>)
    requires forall k :: 0 <= k < |intents| ==> intents[k].action != Some(ACTION_AIRPLANE_MODE_CHANGED)
    ensures !LastState(false, intents)
  {
    OtherActionsIgnored(false, [], intents);
    assert [] + intents == intents;
  }
}
