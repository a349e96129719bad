/** Value types shared by the API and the web app: one battery reading as the
    BikeData collection stores it, and what the outside world does during one
    request. JavaScript numbers are modelled as reals; a schema field that is
    not required is an Option (absent is `None`). */
module Telemetry {

  datatype Option<+T> = None | Some(value: T)

  /** One BikeData document (api/models/bikeData.js). `timestamp` is the
      server's receive time in milliseconds, `espTimestamp` the device's own. */
  datatype Reading = Reading(
    device: string,
    name: Option<string>,
    voltage: real,
    current: real,
    percent: real,
    remainingAh: Option<real>,
    consumedAh: Option<real>,
    cycles: real,
    maxCycles: Option<real>,
    charging: bool,
    espTimestamp: Option<real>,
    timestamp: int)

  /** The environment of one request: the clock (`Date.now()`, in ms) and
      which of the foreign calls fail. `storeFails`: the BikeData query
      throws; `lookupFails`: the AlertLog query in the cooldown gate throws;
      `transportFails`: `sendMail` rejects; `logWriteFails`: writing the
      AlertLog record throws. */
  datatype Env = Env(
    now: int,
    storeFails: bool,
    lookupFails: bool,
    transportFails: bool,
    logWriteFails: bool)
}
