/** The specification of one press of the activation button: which foreign calls are made,
    in which order, what state the press leaves behind, what is posted and which alert is shown. */
module Activation {
  import opened Outcomes
  import opened Report

  /** The outcome of every foreign call one attempt may make, scripted in advance.
      An attempt consumes only the outcomes of the calls it reaches. */
  datatype Script = Script(
    native: NativeOutcome,
    location: Step<GeoFix>,
    publicIp: Step<string>,
    deviceName: Step<string>,
    macAddress: Step<string>,
    imei: Step<string>,
    post: Step<()>)

  /** A foreign call the handler makes. */
  datatype Call =
    | ActivateScreenshot(desired: bool)
    | GetCurrentPosition
    | GetPublicIp
    | GetDeviceName
    | GetMacAddress
    | GetImei
    | PostStatus

  /** Every call an attempt that never fails makes, in the order it makes them. */
  function Plan(platform: Platform, desired: bool): (p: seq<Call>)
    ensures |p| == if platform == Android then 7 else 6
    ensures p[0] == ActivateScreenshot(desired) && p[|p| - 1] == PostStatus
    ensures p[1] == GetCurrentPosition && p[2] == GetPublicIp
    ensures p[3] == GetDeviceName && p[4] == GetMacAddress
    ensures GetImei in p <==> platform == Android
  {
    match platform
    case Android =>
      [ActivateScreenshot(desired), GetCurrentPosition, GetPublicIp, GetDeviceName, GetMacAddress,
       GetImei, PostStatus]
    case Ios =>
      [ActivateScreenshot(desired), GetCurrentPosition, GetPublicIp, GetDeviceName, GetMacAddress,
       PostStatus]
  }

  /** Whether the scripted outcome of call c lets the handler go on to the next call. */
  predicate Succeeds(script: Script, c: Call)
  {
    match c
    case ActivateScreenshot(_) => script.native == Returns(true)
    case GetCurrentPosition => script.location.Ok?
    case GetPublicIp => script.publicIp.Ok?
    case GetDeviceName => script.deviceName.Ok?
    case GetMacAddress => script.macAddress.Ok?
    case GetImei => script.imei.Ok?
    case PostStatus => script.post.Ok?
  }

  /** The position in plan of the first call whose outcome stops the handler,
      or |plan| when none does. */
  function FirstFailure(script: Script, plan: seq<Call>): (k: nat)
    ensures k <= |plan|
    ensures forall i :: 0 <= i < k ==> Succeeds(script, plan[i])
    ensures k < |plan| ==> !Succeeds(script, plan[k])
  {
    if plan == [] || !Succeeds(script, plan[0]) then 0
    else 1 + FirstFailure(script, plan[1..])
  }

  /** The calls the plan makes when it is followed up to and including its first failing
      call: the reference definition of the call sequence of an attempt. */
  function CutAtFailure(script: Script, plan: seq<Call>): (calls: seq<Call>)
    ensures calls <= plan
    ensures plan != [] ==> calls != []
    ensures forall i :: 0 <= i < |calls| - 1 ==> Succeeds(script, calls[i])
    ensures |calls| < |plan| ==> !Succeeds(script, calls[|calls| - 1])
  {
    var k := FirstFailure(script, plan);
    if k < |plan| then plan[..k + 1] else plan
  }

  /** CutAtFailure, for a plan whose first failing call is at position k: the position
      where every earlier call succeeds and the call there, if any, fails is unique. */
  lemma StopsAt(script: Script, plan: seq<Call>, k: nat)
    requires k <= |plan|
    requires forall i :: 0 <= i < k ==> Succeeds(script, plan[i])
    requires k < |plan| ==> !Succeeds(script, plan[k])
    ensures CutAtFailure(script, plan) == if k < |plan| then plan[..k + 1] else plan
  {
  }

  /** The report built from the gathered values, for the state the toggle moved to. */
  function ReportOf(platform: Platform, newState: bool, script: Script): (rep: StatusReport)
    requires script.location.Ok? && script.publicIp.Ok?
    requires script.deviceName.Ok? && script.macAddress.Ok?
    requires platform == Android ==> script.imei.Ok?
    // the status names the new state, not the old one
    ensures rep.screenshotStatus == Enabled <==> newState
    // the IMEI is the fetched one only on Android
    ensures rep.imei == (if platform == Android then script.imei.value else NotAvailable)
    ensures rep.os == OsName(platform) && rep.location == script.location.value &&
      rep.publicIp == script.publicIp.value && rep.deviceName == script.deviceName.value &&
      rep.macAddress == script.macAddress.value
  {
    StatusReport(
      os := OsName(platform),
      deviceName := script.deviceName.value,
      macAddress := script.macAddress.value,
      imei := if platform == Android then script.imei.value else NotAvailable,
      location := script.location.value,
      publicIp := script.publicIp.value,
      screenshotStatus := StatusLabel(newState))
  }

  /** What the part of the handler after a confirmed toggle does: the calls it makes, the
      payload it hands to the post (if it gets that far) and whether the post succeeded. */
  datatype Telemetry = Telemetry(calls: seq<Call>, posted: Option<StatusReport>, delivered: bool)

  /** Gathers location, public IP, device name, MAC address and (on Android) IMEI in that
      order, then posts the report; the first step that throws ends it. */
  function GatherAndPost(platform: Platform, newState: bool, script: Script): (t: Telemetry)
    ensures t.calls != [] && t.calls[0] == GetCurrentPosition
    // the report is handed over only when the post is called, and only after every
    // gathering step succeeded
    ensures t.posted.Some? <==> PostStatus in t.calls
    ensures t.posted.Some? ==>
      script.location.Ok? && script.publicIp.Ok? && script.deviceName.Ok? &&
      script.macAddress.Ok? && (platform == Android ==> script.imei.Ok?)
    // success needs the post to have been made and to have succeeded
    ensures t.delivered <==> t.posted.Some? && script.post.Ok?
  {
    if script.location.Fail? then
      Telemetry([GetCurrentPosition], None, false)
    else if script.publicIp.Fail? then
      Telemetry([GetCurrentPosition, GetPublicIp], None, false)
    else if script.deviceName.Fail? then
      Telemetry([GetCurrentPosition, GetPublicIp, GetDeviceName], None, false)
    else if script.macAddress.Fail? then
      Telemetry([GetCurrentPosition, GetPublicIp, GetDeviceName, GetMacAddress], None, false)
    else if platform == Android && script.imei.Fail? then
      Telemetry([GetCurrentPosition, GetPublicIp, GetDeviceName, GetMacAddress, GetImei], None, false)
    else
      var gathering := if platform == Android
        then [GetCurrentPosition, GetPublicIp, GetDeviceName, GetMacAddress, GetImei]
        else [GetCurrentPosition, GetPublicIp, GetDeviceName, GetMacAddress];
      Telemetry(gathering + [PostStatus], Some(ReportOf(platform, newState, script)), script.post.Ok?)
  }

  /** What one attempt leaves behind: the new activation flag, the single alert it
      raised, the payload it handed to the post (if it got that far) and its calls. */
  datatype AttemptResult = AttemptResult(
    activated: bool,
    alert: Alert,
    posted: Option<StatusReport>,
    calls: seq<Call>)

  /** One press of the button from activation flag `activated`. */
  function Attempt(activated: bool, platform: Platform, script: Script): (r: AttemptResult)
    // the native toggle is called first, with the negation of the flag
    ensures r.calls != [] && r.calls[0] == ActivateScreenshot(!activated)
    // the flag moves exactly when the toggle is confirmed, and nothing later moves it back
    ensures r.activated == (activated != (script.native == Returns(true)))
  {
    var newState := !activated;
    var toggle := [ActivateScreenshot(newState)];
    match script.native
    case Throws => AttemptResult(activated, FailureAlert, None, toggle)
    case Returns(false) => AttemptResult(activated, RejectedAlert, None, toggle)
    case Returns(true) =>
      var t := GatherAndPost(platform, newState, script);
      AttemptResult(
        newState,
        if t.delivered then SuccessAlert(StatusLabel(newState)) else FailureAlert,
        t.posted,
        toggle + t.calls)
  }

  /** After a confirmed toggle the handler's calls are the plan cut just after its first
      failing call. */
  lemma ConfirmedFollowsPlan(platform: Platform, newState: bool, script: Script)
    requires script.native == Returns(true)
    ensures [ActivateScreenshot(newState)] + GatherAndPost(platform, newState, script).calls
         == CutAtFailure(script, Plan(platform, newState))
  {
    var plan := Plan(platform, newState);
    if script.location.Fail? {
      StopsAt(script, plan, 1);
    } else if script.publicIp.Fail? {
      StopsAt(script, plan, 2);
    } else if script.deviceName.Fail? {
      StopsAt(script, plan, 3);
    } else if script.macAddress.Fail? {
      StopsAt(script, plan, 4);
    } else if platform == Android && script.imei.Fail? {
      StopsAt(script, plan, 5);
    } else if script.post.Fail? {
      StopsAt(script, plan, |plan| - 1);
    } else {
      StopsAt(script, plan, |plan|);
    }
  }

  /** The calls of an attempt are exactly the plan cut just after its first failing call.
      Hence the native toggle comes first, with the negation of the flag; a call is made
      only after every earlier one succeeded; the attempt stops only at a failing call;
      and the IMEI is asked for only on Android. */
  lemma FollowsPlan(activated: bool, platform: Platform, script: Script)
    ensures var r := Attempt(activated, platform, script);
      var plan := Plan(platform, !activated);
      r.calls == CutAtFailure(script, plan) &&
      r.calls[0] == ActivateScreenshot(!activated) &&
      (GetImei in r.calls ==> platform == Android)
  {
    var plan := Plan(platform, !activated);
    if script.native == Returns(true) {
      ConfirmedFollowsPlan(platform, !activated, script);
    } else {
      StopsAt(script, plan, 0);
    }
  }

  /** The native toggle is called exactly once per attempt. */
  lemma NativeCalledOnce(activated: bool, platform: Platform, script: Script)
    ensures var r := Attempt(activated, platform, script);
      forall i :: 0 <= i < |r.calls| ==> (r.calls[i].ActivateScreenshot? <==> i == 0)
  {
  }

  /** A report is handed to the post exactly when the post is called, and
      the post is the last call of the attempt. */
  lemma PostedIffPostCalled(activated: bool, platform: Platform, script: Script)
    ensures var r := Attempt(activated, platform, script);
      (r.posted.Some? <==> PostStatus in r.calls) &&
      (PostStatus in r.calls ==> r.calls == Plan(platform, !activated))
  {
  }

  /** A falsy answer from the native toggle: nothing else is called, nothing changes,
      and the rejection alert is raised. */
  lemma RejectionChangesNothing(activated: bool, platform: Platform, script: Script)
    requires script.native == Returns(false)
    ensures var r := Attempt(activated, platform, script);
      r.activated == activated && r.calls == [ActivateScreenshot(!activated)] &&
      r.posted == None && r.alert == RejectedAlert
  {
  }

  /** The native toggle throws: nothing else is called, nothing changes,
      and the generic failure alert is raised. */
  lemma ThrowChangesNothing(activated: bool, platform: Platform, script: Script)
    requires script.native == Throws
    ensures var r := Attempt(activated, platform, script);
      r.activated == activated && r.calls == [ActivateScreenshot(!activated)] &&
      r.posted == None && r.alert == FailureAlert
  {
  }

  /** Every attempt raises exactly one of the three alerts: the rejection alert exactly
      when the native toggle resolves falsy, the success alert (naming the new status)
      exactly when the post was made and succeeded, the failure alert otherwise. */
  lemma AlertCases(activated: bool, platform: Platform, script: Script)
    ensures var r := Attempt(activated, platform, script);
      (r.alert == RejectedAlert <==> script.native == Returns(false)) &&
      (r.alert == SuccessAlert(StatusLabel(!activated)) <==>
         r.posted.Some? && script.post.Ok?) &&
      (r.alert == RejectedAlert || r.alert == FailureAlert ||
       r.alert == SuccessAlert(StatusLabel(!activated)))
  {
  }

  /** A posted report follows a truthy toggle and a successful gathering step each, names the
      new status, carries the fetched IMEI on Android and "N/A" elsewhere, and copies the
      other gathered values. */
  lemma ReportContents(activated: bool, platform: Platform, script: Script)
    ensures var r := Attempt(activated, platform, script);
      r.posted.Some? ==>
        script.native == Returns(true) &&
        script.location.Ok? && script.publicIp.Ok? &&
        script.deviceName.Ok? && script.macAddress.Ok? &&
        (platform == Android ==> script.imei.Ok?) &&
        var rep := r.posted.value;
        (rep.screenshotStatus == Enabled <==> !activated) &&
        (rep.screenshotStatus == Disabled <==> activated) &&
        rep.imei == (if platform == Android then script.imei.value else NotAvailable) &&
        rep.os == OsName(platform) &&
        rep.location == script.location.value &&
        rep.publicIp == script.publicIp.value &&
        rep.deviceName == script.deviceName.value &&
        rep.macAddress == script.macAddress.value
  {
  }
}
