/** Failure values of the repository and of the mock device, and the carriers
    that thread them through the model. */
module Outcomes {

  /** Every exception the modelled code raises, tagged by where it comes from. */
  datatype Error =
    | ChannelError(channel: int)            // repository: channel outside 1..8
    | DeviceNotConnected                    // repository: no handle held
    | ConnectionFailure                     // constructing the vendor handle raised
    | ReleaseFailure                        // disconnect_usb on the vendor handle raised
    | BrightnessOutOfRange(brightness: int) // repository: brightness outside 0..100
    | InvalidBrightnessLevel(level: int)    // repository: device level outside 0..4
    | MalformedPoint(raw: string)           // a curve-point reply without its two fields
    | MissingAttribute(name: string)        // the handle has no such method
    | MockChannelRange(channel: int)        // mock: channel outside 1..8
    | MockIndexRange(index: int)            // mock: curve index outside 1..200
    | MockBrightnessRange(brightness: int)  // mock: brightness outside 0..100

  datatype Option<+T> = None | Some(value: T)

  /** Either a value or the exception raised instead; usable with `:-`. */
  datatype Result<+T> = Ok(value: T) | Err(error: Error) {

    predicate IsFailure() {
      Err?
    }

    function PropagateFailure<U>(): Result<U>
      requires Err?
    {
      Err(error)
    }

    function Extract(): T
      requires Ok?
    {
      value
    }
  }
}
