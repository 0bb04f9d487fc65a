/** The App component's activation state and its button handler. */
module ScreenshotApp {
  import opened Outcomes
  import opened Report
  import opened Activation

  class App {
    /** Platform.OS, fixed for the life of the process. */
    const platform: Platform
    /** True while an attempt is in flight; the button is hidden meanwhile. */
    var loading: bool
    /** Whether screenshot control was last confirmed on by the native module. */
    var isActivated: bool

    /** The component as first rendered: idle and not activated. */
    constructor (platform: Platform)
      ensures this.platform == platform
      ensures !loading && !isActivated
    {
      this.platform := platform;
      loading := false;
      isActivated := false;
    }

    /** One press of the button. The press is only possible while the button is shown,
        that is while no attempt is in flight. Returns the one alert raised, the payload
        handed to the post (if the handler got that far) and the foreign calls made. */
    method Toggle(script: Script) returns (alert: Alert, posted: Option<StatusReport>, calls: seq<Call>)
      requires !loading
      modifies this
      ensures !loading
      ensures script.native != Returns(true) ==> isActivated == old(isActivated)
      ensures script.native == Returns(true) ==> isActivated == !old(isActivated)
      ensures var r := Attempt(old(isActivated), platform, script);
        isActivated == r.activated && alert == r.alert && posted == r.posted && calls == r.calls
    {
      loading := true;
      var threw := false;
      posted := None;
      alert := FailureAlert;
      var newState := !isActivated;
      calls := [ActivateScreenshot(newState)];
      match script.native {
        case Throws =>
          threw := true;
        case Returns(ok) =>
          if ok {
            isActivated := newState;
            var t := GatherAndReport(newState, script);
            calls := calls + t.calls;
            posted := t.posted;
            if t.delivered {
              alert := SuccessAlert(StatusLabel(newState));
            } else {
              threw := true;
            }
          } else {
            alert := RejectedAlert;
          }
      }
      if threw {
        alert := FailureAlert;
      }
      loading := false;
    }

    /** The part of a press after the native module confirmed the toggle to newState:
        gather location, public IP, device name, MAC address and, on Android, IMEI, then
        post the report. Runs while the press is in flight and changes no state. */
    method GatherAndReport(newState: bool, script: Script) returns (t: Telemetry)
      requires loading
      ensures t == GatherAndPost(platform, newState, script)
    {
      var calls: seq<Call> := [];
      var posted: Option<StatusReport> := None;
      var delivered := false;
      label try: {
        var screenshotStatus := StatusLabel(newState);
        calls := calls + [GetCurrentPosition];
        if script.location.Fail? { break try; }
        var location := script.location.value;
        calls := calls + [GetPublicIp];
        if script.publicIp.Fail? { break try; }
        var publicIp := script.publicIp.value;
        calls := calls + [GetDeviceName];
        if script.deviceName.Fail? { break try; }
        var deviceName := script.deviceName.value;
        calls := calls + [GetMacAddress];
        if script.macAddress.Fail? { break try; }
        var macAddress := script.macAddress.value;
        var imei := NotAvailable;
        if platform == Android {
          calls := calls + [GetImei];
          if script.imei.Fail? { break try; }
          imei := script.imei.value;
        }
        var deviceInfo := StatusReport(
          os := OsName(platform),
          deviceName := deviceName,
          macAddress := macAddress,
          imei := imei,
          location := location,
          publicIp := publicIp,
          screenshotStatus := screenshotStatus);
        calls := calls + [PostStatus];
        posted := Some(deviceInfo);
        if script.post.Fail? { break try; }
        delivered := true;
      }
      t := Telemetry(calls, posted, delivered);
    }
  }
}
