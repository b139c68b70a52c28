/**
 * The two error enums of the library: the protocol-level `Error` of
 * src/error.rs and the communication-level `Error` of src/tokio_common.rs,
 * which wraps the first. Only the variants matter; the messages are text.
 */
module Errors {
  import opened Words

  /** src/error.rs:11-59. Range errors carry the offending value. */
  datatype ProtocolError =
    | AddressOutOfRange(address: U8)
    | PasswordOutOfRange(password: U16)
    | AutoScrollTimeOutOfRange(seconds: U8)
    | BacklitTimeOutOfRange(minutes: U8)
    | InvalidBaudRate
    | OutOfRange
    | InvalidValue
    | WordsCountError

  /** src/tokio_common.rs:12-24: protocol error, Modbus exception response, transport error. */
  datatype Error =
    | Protocol(cause: ProtocolError)
    | ModbusException(code: nat)
    | Modbus
}
