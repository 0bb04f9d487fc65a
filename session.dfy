/** Repeated presses of the activation button, each starting after the previous one settled. */
module Session {
  import opened Outcomes
  import opened Report
  import opened Activation

  /** What a run of presses leaves behind: the final activation flag and, for each press in
      order, its alert, the state it asked the native module for and its foreign calls. */
  datatype SessionResult = SessionResult(
    activated: bool,
    alerts: seq<Alert>,
    requested: seq<bool>,
    calls: seq<seq<Call>>)

  /** One press per script, starting from activation flag `activated`. */
  function Presses(activated: bool, platform: Platform, scripts: seq<Script>): (r: SessionResult)
    // one alert, one request and one call trace per press
    ensures |r.alerts| == |scripts| && |r.requested| == |scripts| && |r.calls| == |scripts|
    decreases |scripts|
  {
    if scripts == [] then SessionResult(activated, [], [], [])
    else
      var r := Attempt(activated, platform, scripts[0]);
      var rest := Presses(r.activated, platform, scripts[1..]);
      SessionResult(
        rest.activated,
        [r.alert] + rest.alerts,
        [r.calls[0].desired] + rest.requested,
        [r.calls] + rest.calls)
  }

  /** How many of the scripted native toggles resolve truthy. */
  function Confirmed(scripts: seq<Script>): nat
  {
    if scripts == [] then 0
    else (if scripts[0].native == Returns(true) then 1 else 0) + Confirmed(scripts[1..])
  }

  /** Whether n is odd. */
  predicate Odd(n: nat)
  {
    n % 2 == 1
  }

  /** The flag ends flipped exactly when an odd number of native toggles were confirmed:
      rejections and throws never move it, and a later failure never moves it back. */
  lemma {:induction false} FlagParity(activated: bool, platform: Platform, scripts: seq<Script>)
    ensures Presses(activated, platform, scripts).activated == (activated != Odd(Confirmed(scripts)))
    decreases |scripts|
  {
    if scripts != [] {
      var r := Attempt(activated, platform, scripts[0]);
      FlagParity(r.activated, platform, scripts[1..]);
    }
  }

  /** The flag press i starts from, once earlier presses have confirmed or not. */
  function FlagBefore(activated: bool, scripts: seq<Script>, i: nat): bool
    requires i <= |scripts|
  {
    activated != Odd(Confirmed(scripts[..i]))
  }

  /** Dropping the first press moves the starting flag to the one that press left behind. */
  lemma FlagBeforeStep(activated: bool, platform: Platform, scripts: seq<Script>, i: nat)
    requires 0 < i <= |scripts|
    ensures FlagBefore(activated, scripts, i)
         == FlagBefore(Attempt(activated, platform, scripts[0]).activated, scripts[1..], i - 1)
  {
    var c := Confirmed(scripts[1..][..i - 1]);
    assert scripts[..i][1..] == scripts[1..][..i - 1];
    assert Confirmed(scripts[..i]) == (if scripts[0].native == Returns(true) then 1 else 0) + c;
  }

  /** Press i of a run is exactly one attempt from the flag that the confirmed toggles of the
      earlier presses left behind: its alert and its calls are that attempt's. */
  lemma {:induction false} PressIsAttempt(activated: bool, platform: Platform, scripts: seq<Script>, i: nat)
    requires i < |scripts|
    ensures var r := Attempt(FlagBefore(activated, scripts, i), platform, scripts[i]);
      var s := Presses(activated, platform, scripts);
      s.alerts[i] == r.alert && s.calls[i] == r.calls
    decreases i
  {
    var r := Attempt(activated, platform, scripts[0]);
    var rest := Presses(r.activated, platform, scripts[1..]);
    assert Presses(activated, platform, scripts).calls == [r.calls] + rest.calls;
    if i == 0 {
      assert scripts[..0] == [];
    } else {
      PressIsAttempt(r.activated, platform, scripts[1..], i - 1);
      FlagBeforeStep(activated, platform, scripts, i);
    }
  }

  /** Press i asks the native module for the opposite of the flag it starts from. */
  lemma {:induction false} RequestsFollowConfirmations(activated: bool, platform: Platform, scripts: seq<Script>, i: nat)
    requires i < |scripts|
    ensures Presses(activated, platform, scripts).requested[i] == !FlagBefore(activated, scripts, i)
    decreases i
  {
    if i > 0 {
      var r := Attempt(activated, platform, scripts[0]);
      RequestsFollowConfirmations(r.activated, platform, scripts[1..], i - 1);
      FlagBeforeStep(activated, platform, scripts, i);
    } else {
      assert scripts[..0] == [];
    }
  }

  /** Every press of a run calls the native toggle exactly once, as its first call. */
  lemma NativeCalledOncePerPress(activated: bool, platform: Platform, scripts: seq<Script>, i: nat, j: nat)
    requires i < |scripts| && j < |Presses(activated, platform, scripts).calls[i]|
    ensures Presses(activated, platform, scripts).calls[i][j].ActivateScreenshot? <==> j == 0
  {
    PressIsAttempt(activated, platform, scripts, i);
    NativeCalledOnce(FlagBefore(activated, scripts, i), platform, scripts[i]);
  }

  /** After a confirmed toggle whose report failed, pressing again asks the native module
      for the original state: the retry goes the opposite way, not the same way again. */
  lemma RetryAfterLateFailure(activated: bool, platform: Platform, first: Script, second: Script)
    requires first.native == Returns(true)
    requires Attempt(activated, platform, first).alert == FailureAlert
    ensures var r := Attempt(activated, platform, first);
      r.activated == !activated &&
      Attempt(r.activated, platform, second).calls[0] == ActivateScreenshot(activated)
  {
  }
}
