/** The services demo's controller screen: `formatTime`, which shows a
    playback position as MM:SS, and the bookkeeping around the bound
    MusicPlayerService (the `isBound` flag that guards `unbindService`, and
    the notification-permission check before starting the service). */
module Services {
  import opened Platform
  import opened Text

  // ------------------------------------------------------------ formatTime

  /** Kotlin's Int `/`: the quotient truncated toward zero. */
  function KDiv(a: int, b: int): (q: int)
    requires b > 0
    ensures a >= 0 ==> q == a / b
    ensures a < 0 ==> q == -((-a) / b)
  {
    if a >= 0 then a / b else -((-a) / b)
  }

  /** Kotlin's Int `%`: the remainder that goes with KDiv, signed like `a`. */
  function KRem(a: int, b: int): (r: int)
    requires b > 0
    ensures a == KDiv(a, b) * b + r
    ensures a >= 0 ==> 0 <= r < b
    ensures a < 0 ==> -b < r <= 0
  {
    a - KDiv(a, b) * b
  }

  /** `String.format("%02d", n)`: at least two characters, zero-padded;
      a negative value is a minus sign and its digits. */
  function Format02d(n: int): string {
    if n >= 0 then ZeroPad(NatToString(n), 2) else "-" + NatToString(-n)
  }

  function FormatTime(millis: int): string {
    var totalSeconds := KDiv(millis, 1000);
    Format02d(KDiv(totalSeconds, 60)) + ":" + Format02d(KRem(totalSeconds, 60))
  }

  /** Reads "MM:SS" back as a number of seconds: digits, a colon, exactly
      two digits. */
  function ParseTime(s: string): (r: Option<int>)
    ensures r.Some? ==> r.value >= 0
  {
    if |s| >= 4 && s[|s| - 3] == ':' && IsDigits(s[..|s| - 3]) && IsDigits(s[|s| - 2..])
    then Some(ParseDigits(s[..|s| - 3]) * 60 + ParseDigits(s[|s| - 2..]))
    else None
  }

  /** The minutes field of a non-negative input: whole minutes, never
      carried into hours. */
  function MinutesField(millis: nat): string {
    ZeroPad(NatToString(millis / 1000 / 60), 2)
  }

  /** The seconds field of a non-negative input. */
  function SecondsField(millis: nat): string {
    ZeroPad(NatToString(millis / 1000 % 60), 2)
  }

  /** For a non-negative input the text is the minutes field, a colon and
      a two-digit seconds field; both fields are all digits. */
  lemma FormatTimeFields(millis: nat)
    ensures FormatTime(millis) == MinutesField(millis) + ":" + SecondsField(millis)
    ensures |SecondsField(millis)| == 2 && |MinutesField(millis)| >= 2
    ensures IsDigits(MinutesField(millis)) && IsDigits(SecondsField(millis))
    ensures ParseDigits(SecondsField(millis)) == millis / 1000 % 60 < 60
    ensures ParseDigits(MinutesField(millis)) == millis / 1000 / 60
  {
    var sec := millis / 1000 % 60;
    NatToStringLength(sec);
    ZeroPadRoundTrip(sec, 2);
    ZeroPadRoundTrip(millis / 1000 / 60, 2);
  }

  /** Round trip: parsing the text gives back the whole seconds of the
      input, minutes * 60 + seconds. */
  lemma FormatTimeRoundTrip(millis: nat)
    ensures ParseTime(FormatTime(millis)) == Some(millis / 1000)
  {
    FormatTimeFields(millis);
    var m := MinutesField(millis);
    var s := FormatTime(millis);
    assert s[..|s| - 3] == m;
    assert s[|s| - 2..] == SecondsField(millis);
  }

  /** Minutes never wrap into hours: from one hundred minutes on, the
      minutes field has three or more digits. */
  lemma LongPlaybackWidensMinutes(millis: nat)
    ensures |MinutesField(millis)| >= 3 <==> millis >= 100 * 60 * 1000
  {
    NatToStringLength(millis / 1000 / 60);
  }

  /** Sub-second remainders are dropped. */
  lemma SubSecondTruncated()
    ensures FormatTime(999) == "00:00"
    ensures FormatTime(61999) == "01:01"
  {
  }

  /** A negative input, outside what a playback position can be, gives
      signed fields: Kotlin's division and remainder truncate toward zero. */
  lemma NegativeInputSignedFields()
    ensures FormatTime(-61000) == "-1:-1"
    ensures ParseTime(FormatTime(-61000)) == None
  {
    assert FormatTime(-61000) == "-1" + ":" + "-1";
  }

  // ----------------------------------------------- service connection state

  /** An opaque handle to the bound MusicPlayerService instance. */
  datatype MusicService = MusicService(handle: nat)

  /** The platform calls the screen makes, in order. */
  datatype ServiceCall = BindService | UnbindService | StartService | StopService | RequestNotificationPermission

  function CountOf(calls: seq<ServiceCall>, c: ServiceCall): (n: nat)
    ensures n <= |calls|
    decreases |calls|
  {
    if calls == [] then 0 else CountOf(calls[..|calls| - 1], c) + (if calls[|calls| - 1] == c then 1 else 0)
  }

  lemma {:induction false} CountOfAppend(a: seq<ServiceCall>, b: seq<ServiceCall>, c: ServiceCall)
    ensures CountOf(a + b, c) == CountOf(a, c) + CountOf(b, c)
    decreases |b|
  {
    if b == [] {
      assert a + b == a;
    } else {
      assert (a + b)[..|a + b| - 1] == a + b[..|b| - 1];
      CountOfAppend(a, b[..|b| - 1], c);
    }
  }

  /** `checkAndRequestNotificationPermission`: start the service at once
      below SDK 33 or when already granted, otherwise ask. */
  function PlayClickCall(sdk: int, granted: bool): (c: ServiceCall)
    ensures c == StartService <==> sdk < TIRAMISU || granted
    ensures c == RequestNotificationPermission <==> sdk >= TIRAMISU && !granted
  {
    if sdk >= TIRAMISU then (if granted then StartService else RequestNotificationPermission)
    else StartService
  }

  class ServiceController {
    var musicService: Option<MusicService>
    var isBound: bool
    var calls: seq<ServiceCall>

    /** Each `unbindService` ends one `bindService`, and while bound the
        current binding has not ended yet: the screen never unbinds more
        often than it bound. */
    ghost predicate Valid()
      reads this
    {
      CountOf(calls, UnbindService) + (if isBound then 1 else 0) <= CountOf(calls, BindService)
    }

    constructor ()
      ensures Valid()
      ensures musicService == None && !isBound && calls == []
    {
      musicService := None;
      isBound := false;
      calls := [];
    }

    method OnStart()
      requires Valid()
      modifies this
      ensures Valid()
      ensures calls == old(calls) + [BindService]
      ensures isBound == old(isBound) && musicService == old(musicService)
    {
      CountOfAppend(calls, [BindService], UnbindService);
      CountOfAppend(calls, [BindService], BindService);
      calls := calls + [BindService];
    }

    /** The platform reports a connection only for a binding that
        `bindService` made and `unbindService` has not ended. */
    method OnServiceConnected(service: MusicService)
      requires Valid()
      requires CountOf(calls, UnbindService) < CountOf(calls, BindService)
      modifies this
      ensures Valid()
      ensures musicService == Some(service) && isBound && calls == old(calls)
    {
      musicService := Some(service);
      isBound := true;
    }

    method OnServiceDisconnected()
      requires Valid()
      modifies this
      ensures Valid()
      ensures musicService == None && !isBound && calls == old(calls)
    {
      musicService := None;
      isBound := false;
    }

    /** The unbind-if-bound step shared by the stop button and `onStop`. */
    method UnbindIfBound()
      requires Valid()
      modifies this
      ensures Valid()
      ensures calls == old(calls) + (if old(isBound) then [UnbindService] else [])
      ensures !isBound && musicService == old(musicService)
    {
      if isBound {
        CountOfAppend(calls, [UnbindService], UnbindService);
        CountOfAppend(calls, [UnbindService], BindService);
        calls := calls + [UnbindService];
        isBound := false;
      }
    }

    /** `stopAndUnbindService`: unbind only when bound, always stop. */
    method StopAndUnbindService()
      requires Valid()
      modifies this
      ensures Valid()
      ensures calls == old(calls) + (if old(isBound) then [UnbindService] else []) + [StopService]
      ensures !isBound && musicService == old(musicService)
    {
      UnbindIfBound();
      CountOfAppend(calls, [StopService], UnbindService);
      CountOfAppend(calls, [StopService], BindService);
      calls := calls + [StopService];
    }

    method OnStop()
      requires Valid()
      modifies this
      ensures Valid()
      ensures calls == old(calls) + (if old(isBound) then [UnbindService] else [])
      ensures !isBound && musicService == old(musicService)
    {
      UnbindIfBound();
    }

    method CheckAndRequestNotificationPermission(sdk: int, granted: bool)
      requires Valid()
      modifies this
      ensures Valid()
      ensures calls == old(calls) + [PlayClickCall(sdk, granted)]
      ensures isBound == old(isBound) && musicService == old(musicService)
    {
      var c := PlayClickCall(sdk, granted);
      CountOfAppend(calls, [c], UnbindService);
      CountOfAppend(calls, [c], BindService);
      calls := calls + [c];
    }

    /** The permission launcher's callback: start the service if granted. */
    method OnPermissionResult(isGranted: bool)
      requires Valid()
      modifies this
      ensures Valid()
      ensures calls == old(calls) + (if isGranted then [StartService] else [])
      ensures isBound == old(isBound) && musicService == old(musicService)
    {
      if isGranted {
        CountOfAppend(calls, [StartService], UnbindService);
        CountOfAppend(calls, [StartService], BindService);
        calls := calls + [StartService];
      }
    }
  }

  /** Stopping twice unbinds once: the second stop finds `isBound` false. */
  method StopTwiceUnbindsOnce(service: MusicService)
  {
    var screen := new ServiceController();
    screen.OnStart();
    screen.OnServiceConnected(service);
    screen.StopAndUnbindService();
    screen.OnStop();
    assert screen.calls == [BindService, UnbindService, StopService];
    assert !screen.isBound;
  }
}
