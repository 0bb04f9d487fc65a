/** The component's test cases, a location timeout after a confirmed toggle and a
    deactivation from the activated state, as clients of App.Toggle:
    each one is checked from the contracts alone. */
module Scenarios {
  import opened Outcomes
  import opened Report
  import opened Activation
  import opened ScreenshotApp

  /** Outcomes of a run in which every step succeeds, with the values the tests use. */
  function AllSucceed(): Script
  {
    Script(
      native := Returns(true),
      location := Ok(GeoFix(12.34, 56.78)),
      publicIp := Ok("123.45.67.89"),
      deviceName := Ok("Mock Device"),
      macAddress := Ok("00:11:22:33:44:55"),
      imei := Ok("123456789012345"),
      post := Ok(()))
  }

  method InitialState()
  {
    var app := new App(Ios);
    assert !app.isActivated && !app.loading;
  }

  method ActivateOnAndroid()
  {
    var app := new App(Android);
    var alert, posted, calls := app.Toggle(AllSucceed());
    assert calls == [ActivateScreenshot(true), GetCurrentPosition, GetPublicIp, GetDeviceName,
                     GetMacAddress, GetImei, PostStatus];
    assert posted == Some(StatusReport(
      os := "android",
      deviceName := "Mock Device",
      macAddress := "00:11:22:33:44:55",
      imei := "123456789012345",
      location := GeoFix(12.34, 56.78),
      publicIp := "123.45.67.89",
      screenshotStatus := "Enabled"));
    assert alert == Alert("Success", "Screenshots are now Enabled");
    assert app.isActivated && !app.loading;
  }

  /** On iOS the IMEI is never asked for, whatever the device module would answer. */
  method ActivateOnIos()
  {
    var app := new App(Ios);
    var alert, posted, calls := app.Toggle(AllSucceed());
    assert GetImei !in calls;
    assert posted.Some? && posted.value.os == "ios" && posted.value.imei == "N/A";
    assert alert == Alert("Success", "Screenshots are now Enabled");
  }

  method ActivationRejected()
  {
    var app := new App(Ios);
    var alert, posted, calls := app.Toggle(AllSucceed().(native := Returns(false)));
    assert calls == [ActivateScreenshot(true)];
    assert posted == None;
    assert alert == Alert("Error", "Failed to update screenshot status");
    assert !app.isActivated && !app.loading;
  }

  method ActivationThrows()
  {
    var app := new App(Ios);
    var alert, posted, calls := app.Toggle(AllSucceed().(native := Throws));
    assert calls == [ActivateScreenshot(true)];
    assert alert == Alert("Error", "Something went wrong");
    assert !app.isActivated && !app.loading;
  }

  /** The location step times out after the toggle was confirmed: the new state stays. */
  method LocationTimesOut()
  {
    var app := new App(Android);
    var alert, posted, calls := app.Toggle(AllSucceed().(location := Fail));
    assert calls == [ActivateScreenshot(true), GetCurrentPosition];
    assert posted == None;
    assert alert == Alert("Error", "Something went wrong");
    assert app.isActivated && !app.loading;
  }

  /** A second press from the activated state asks for deactivation and reports "Disabled". */
  method DeactivateAfterActivation()
  {
    var app := new App(Ios);
    var alert, posted, calls := app.Toggle(AllSucceed());
    alert, posted, calls := app.Toggle(AllSucceed());
    assert calls[0] == ActivateScreenshot(false);
    assert posted.Some? && posted.value.screenshotStatus == "Disabled";
    assert alert == Alert("Success", "Screenshots are now Disabled");
    assert !app.isActivated && !app.loading;
  }
}
