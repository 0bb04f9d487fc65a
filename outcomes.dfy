/** Option and the scripted outcomes that stand in for the foreign calls of the app. */
module Outcomes {

  datatype Option<+T> = None | Some(value: T)

  /** What the native screenshot-control module does when asked to toggle:
      it resolves to a truthy or falsy value, or it rejects. */
  datatype NativeOutcome = Returns(ok: bool) | Throws

  /** What one awaited telemetry or transport step does: it yields a value or it throws. */
  datatype Step<+T> = Ok(value: T) | Fail
}
