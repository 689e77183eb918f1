/** The rotation demo: RotationActivity's classic counter, which survives
    recreation only through the saved-state Bundle, and RotationViewModel's
    counter, which survives because the same ViewModel is handed to the
    recreated activity. */
module Rotation {
  import opened Platform

  const KEY_CLASSIC_COUNT := "KEY_CLASSIC_COUNT"

  /** A saved-instance-state Bundle: typed values under string keys. */
  type Bundle = Extras

  /** The classic count `onCreate` starts from: 0 on a fresh start (no
      Bundle); otherwise `getInt(KEY_CLASSIC_COUNT, 0)`, so 0 again when
      the key is missing or holds no Int. */
  function RestoredCount(savedInstanceState: Option<Bundle>): (n: int)
    ensures savedInstanceState.None? ==> n == 0
    ensures savedInstanceState.Some? && KEY_CLASSIC_COUNT !in savedInstanceState.value ==> n == 0
    ensures savedInstanceState.Some? && KEY_CLASSIC_COUNT in savedInstanceState.value
              && savedInstanceState.value[KEY_CLASSIC_COUNT].VInt?
            ==> n == savedInstanceState.value[KEY_CLASSIC_COUNT].intValue
    ensures savedInstanceState.Some? && KEY_CLASSIC_COUNT in savedInstanceState.value
              && !savedInstanceState.value[KEY_CLASSIC_COUNT].VInt?
            ==> n == 0
  {
    match savedInstanceState
    case None => 0
    case Some(bundle) => GetInt(bundle, KEY_CLASSIC_COUNT, 0)
  }

  /** `onSaveInstanceState`'s write: the count under its key, the rest of
      the Bundle as it was. */
  function SaveClassicCount(outState: Bundle, count: int): (saved: Bundle)
    ensures KEY_CLASSIC_COUNT in saved && saved[KEY_CLASSIC_COUNT] == VInt(count)
    ensures forall k :: k in outState && k != KEY_CLASSIC_COUNT ==> k in saved && saved[k] == outState[k]
    ensures saved.Keys == outState.Keys + {KEY_CLASSIC_COUNT}
  {
    outState[KEY_CLASSIC_COUNT := VInt(count)]
  }

  /** Round trip: restoring from a saved Bundle gives the saved count,
      whatever else the Bundle held. */
  lemma SaveRestoreRoundTrip(outState: Bundle, count: int)
    ensures RestoredCount(Some(SaveClassicCount(outState, count))) == count
  {
  }

  class RotationViewModel {
    var count: int

    constructor ()
      ensures count == 0
    {
      count := 0;
    }

    method Increment()
      modifies this
      ensures count == old(count) + 1
    {
      count := count + 1;
    }
  }

  class RotationActivity {
    var classicCount: int
    /** The `viewModels()` delegate's ViewModel, kept across recreation. */
    const viewModel: RotationViewModel

    /** `onCreate`: restore the classic count from the Bundle, if any. */
    constructor (savedInstanceState: Option<Bundle>, viewModel: RotationViewModel)
      ensures classicCount == RestoredCount(savedInstanceState)
      ensures this.viewModel == viewModel
    {
      classicCount := RestoredCount(savedInstanceState);
      this.viewModel := viewModel;
    }

    /** The classic button: `classicCountState.intValue++`. */
    method ClassicIncrement()
      modifies this
      ensures classicCount == old(classicCount) + 1
    {
      classicCount := classicCount + 1;
    }

    /** `onSaveInstanceState`: writes the count out, changes nothing here. */
    method OnSaveInstanceState(outState: Bundle) returns (saved: Bundle)
      ensures saved == SaveClassicCount(outState, classicCount)
    {
      saved := SaveClassicCount(outState, classicCount);
    }
  }

  /** A rotation: the activity saves its state, is destroyed, and is
      recreated from the Bundle with the same ViewModel. Both counts
      survive; without the Bundle only the ViewModel's would. */
  method Rotate(before: RotationActivity) returns (after: RotationActivity)
    ensures after.classicCount == before.classicCount
    ensures after.viewModel == before.viewModel
  {
    var saved := before.OnSaveInstanceState(map[]);
    SaveRestoreRoundTrip(map[], before.classicCount);
    after := new RotationActivity(Some(saved), before.viewModel);
  }

  /** Two classic taps and three ViewModel taps, then a rotation: the
      screen comes back showing 2 and 3. A fresh start shows 0 and 0. */
  method TapThenRotate()
  {
    var vm := new RotationViewModel();
    var activity := new RotationActivity(None, vm);
    assert activity.classicCount == 0 && vm.count == 0;
    activity.ClassicIncrement();
    activity.ClassicIncrement();
    vm.Increment();
    vm.Increment();
    vm.Increment();
    var rotated := Rotate(activity);
    assert rotated.classicCount == 2 && rotated.viewModel.count == 3;
  }
}
