/**
 * The plugin's error kinds and their user-facing messages (`RFIDError` and
 * its `errorDescription`), plus the errors the transport hands back, which
 * the plugin passes on to callers unchanged.
 */
module RfidErrors {
  import opened Wrappers

  /**
   * The cases of `RFIDError`. The last three are used by the plugin but are
   * not declared by the enum; they are added here so that every error the
   * plugin reports has a case.
   */
  datatype RfidError =
    | BluetoothNotAvailable
    | InvalidDevice
    | NotConnected
    | ConnectionFailed
    | ServiceNotFound
    | CharacteristicNotFound
    | InvalidCommand
    | ScanFailed
    | GeneralError(message: string)
    | InvalidParameter
    | InvalidParameterValue
    | ParameterOperationFailed

  /** An error the transport reports (its own description, opaque to the plugin). */
  type TransportError = string

  /** The `Error` a callback receives: one of the plugin's own, or one from the transport. */
  datatype Failure = Rfid(kind: RfidError) | Transport(detail: TransportError)

  /**
   * `errorDescription`, optional in Swift's `LocalizedError` protocol: every
   * case has one, and a general error is described by the message it carries.
   */
  function ErrorDescription(e: RfidError): (r: Option<string>)
    ensures r.Some?
    ensures e.GeneralError? ==> r.value == e.message
  {
    match e
    case BluetoothNotAvailable => Some("Bluetooth is not available or not powered on")
    case InvalidDevice => Some("The device is invalid or not found")
    case NotConnected => Some("Not connected to an RFID reader")
    case ConnectionFailed => Some("Failed to connect to the RFID reader")
    case ServiceNotFound => Some("The required service was not found on the device")
    case CharacteristicNotFound => Some("The required characteristic was not found on the device")
    case InvalidCommand => Some("The command is invalid or could not be sent")
    case ScanFailed => Some("A scan operation failed")
    case GeneralError(message) => Some(message)
    case InvalidParameter => Some("The parameter is not supported")
    case InvalidParameterValue => Some("The parameter value is not valid for the parameter")
    case ParameterOperationFailed => Some("Parameter operation failed")
  }

  /** The cases whose message does not depend on a payload. */
  predicate HasFixedMessage(e: RfidError) {
    !e.GeneralError?
  }

  /** The length of each fixed message; no two are alike. */
  function FixedLength(e: RfidError): nat {
    match e
    case BluetoothNotAvailable => 44
    case InvalidDevice => 34
    case NotConnected => 31
    case ConnectionFailed => 36
    case ServiceNotFound => 48
    case CharacteristicNotFound => 55
    case InvalidCommand => 43
    case ScanFailed => 23
    case GeneralError(_) => 0
    case InvalidParameter => 30
    case InvalidParameterValue => 50
    case ParameterOperationFailed => 26
  }

  lemma FixedMessageLength(e: RfidError)
    requires HasFixedMessage(e)
    ensures |ErrorDescription(e).value| == FixedLength(e)
  {
  }

  lemma FixedLengthsDiffer(a: RfidError, b: RfidError)
    requires HasFixedMessage(a) && HasFixedMessage(b) && a != b
    ensures FixedLength(a) != FixedLength(b)
  {
  }

  /** Two different fixed-message errors are never described alike. */
  lemma FixedMessagesAreDistinct(a: RfidError, b: RfidError)
    requires HasFixedMessage(a) && HasFixedMessage(b) && a != b
    ensures ErrorDescription(a) != ErrorDescription(b)
  {
    // The fixed messages all have different lengths.
    FixedLengthsDiffer(a, b);
    FixedMessageLength(a);
    FixedMessageLength(b);
  }
}
