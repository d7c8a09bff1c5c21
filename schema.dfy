/**
 * The telemetry payload shapes: the station status, the decoded status report
 * and the partial actuation command published back.
 */
module Schema {
  import opened Wrappers

  /** Each field is `None` when the station has not reported it. */
  datatype Status = Status(
    txPowerEnabled: Option<bool>,
    txPowerActive: Option<bool>,
    pttEnabled: Option<bool>,
    pttActive: Option<bool>)

  /** `Status::default()`: every field unknown. */
  const DefaultStatus: Status := Status(None, None, None, None)

  /** A decoded status report; the timestamp is kept as its display text. */
  datatype Response = Response(status: Status, message: Option<string>, timestamp: string)

  /** A partial actuation command: `None` leaves that actuator unchanged. */
  datatype Command = Command(enableTxPower: Option<bool>, enablePtt: Option<bool>)
}
