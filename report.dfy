/** The values the activation handler builds: the status label, the report posted to the
    status endpoint, and the alerts shown to the user. */
module Report {

  /** Platform.OS as far as the handler looks at it. */
  datatype Platform = Ios | Android

  function OsName(p: Platform): string
  {
    match p
    case Ios => "ios"
    case Android => "android"
  }

  /** A location fix; the coordinates are passed through untouched. */
  datatype GeoFix = GeoFix(latitude: real, longitude: real)

  /** The JSON body posted to the screenshot-status endpoint. */
  datatype StatusReport = StatusReport(
    os: string,
    deviceName: string,
    macAddress: string,
    imei: string,
    location: GeoFix,
    publicIp: string,
    screenshotStatus: string)

  const Enabled := "Enabled"
  const Disabled := "Disabled"
  /** The IMEI reported on a platform that does not fetch one. */
  const NotAvailable := "N/A"

  /** The status string for the state the toggle moves to. */
  function StatusLabel(newState: bool): (s: string)
    ensures s == Enabled <==> newState
    ensures s == Disabled <==> !newState
  {
    if newState then Enabled else Disabled
  }

  /** A modal alert: title and message. */
  datatype Alert = Alert(title: string, message: string)

  /** Raised when the native module answers the toggle with a falsy value. */
  const RejectedAlert := Alert("Error", "Failed to update screenshot status")
  /** Raised for anything thrown inside the handler's try block. */
  const FailureAlert := Alert("Error", "Something went wrong")

  /** Raised once the report has been posted. */
  function SuccessAlert(status: string): (a: Alert)
    ensures a.title == "Success"
    ensures a != RejectedAlert && a != FailureAlert
  {
    Alert("Success", "Screenshots are now " + status)
  }
}
