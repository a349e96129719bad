/** The HTTP API (api/index.js): `POST /api/battery`, which validates and
    stores a reading, detects the first reading of a completed charge, runs
    the evaluator on a discharging reading and dispatches alerts; and
    `GET /api/bike-data/latest`. The BikeData collection is the `store`
    field of `BatteryApi`; the AlertLog collection and the transport are the
    objects the alert service works on. */
module Api {
  import opened Telemetry
  import opened AlertService

  // ---------------------------------------------------------------------
  // The request body and the BikeData schema
  // ---------------------------------------------------------------------

  /** The JSON body of `POST /api/battery`, each field present or absent.
      The body's `timestamp` is the device's clock and is stored as
      `espTimestamp`. */
  datatype Payload = Payload(
    device: Option<string>,
    name: Option<string>,
    voltage: Option<real>,
    current: Option<real>,
    percent: Option<real>,
    remainingAh: Option<real>,
    consumedAh: Option<real>,
    cycles: Option<real>,
    maxCycles: Option<real>,
    charging: Option<bool>,
    espTimestamp: Option<real>)

  /** The body a device sends for a stored reading. */
  function ToPayload(r: Reading): Payload {
    Payload(Some(r.device), r.name, Some(r.voltage), Some(r.current), Some(r.percent),
      r.remainingAh, r.consumedAh, Some(r.cycles), r.maxCycles, Some(r.charging), r.espTimestamp)
  }

  /** Schema validation on `save()`: the required fields must be present (a
      required string must also be non-empty); the server stamps `timestamp`
      with the receive time. A stored document keeps every field it was
      given. */
  function Validate(p: Payload, now: int): (r: Option<Reading>)
    ensures r.Some? <==> (p.device.Some? && p.device.value != "" && p.voltage.Some? && p.current.Some?
      && p.percent.Some? && p.cycles.Some? && p.charging.Some?)
    ensures r.Some? ==> ToPayload(r.value) == p && r.value.timestamp == now
  {
    if p.device.None? || p.device.value == "" || p.voltage.None? || p.current.None?
      || p.percent.None? || p.cycles.None? || p.charging.None?
    then None
    else Some(Reading(p.device.value, p.name, p.voltage.value, p.current.value, p.percent.value,
      p.remainingAh, p.consumedAh, p.cycles.value, p.maxCycles, p.charging.value, p.espTimestamp, now))
  }

  /** A reading sent back as its own body validates to itself. */
  lemma ValidateRoundTrip(r: Reading)
    requires r.device != ""
    ensures Validate(ToPayload(r), r.timestamp) == Some(r)
  {
  }

  // ---------------------------------------------------------------------
  // The newest stored reading
  // ---------------------------------------------------------------------

  /** `BikeData.findOne().sort({ timestamp: -1 })`: a reading with the
      greatest server timestamp, the later stored one on a tie. */
  function Latest(store: seq<Reading>): (m: Option<Reading>)
    ensures m.None? <==> store == []
    ensures m.Some? ==> m.value in store
    ensures m.Some? ==> forall i :: 0 <= i < |store| ==> store[i].timestamp <= m.value.timestamp
  {
    if store == [] then None
    else
      var earlier := Latest(store[..|store| - 1]);
      var last := store[|store| - 1];
      if earlier.Some? && earlier.value.timestamp > last.timestamp then earlier
      else Some(last)
  }

  /** With a clock that does not run backwards, the reading just stored is
      the one the next request sees as the latest. */
  lemma LatestOfAppend(store: seq<Reading>, r: Reading)
    requires forall i :: 0 <= i < |store| ==> store[i].timestamp <= r.timestamp
    ensures Latest(store + [r]) == Some(r)
  {
  }

  // ---------------------------------------------------------------------
  // The POST handler, as a specification
  // ---------------------------------------------------------------------

  /** A reading that completes a charge for the first time: it is charging
      at 99.5 % or more, and no reading was stored before or the previous
      one was below 99.5 %. An edge is a rise of the percentage across the
      threshold. */
  predicate ChargeCompleteEdge(previous: Option<Reading>, r: Reading): (edge: bool)
    ensures edge ==> r.charging && r.percent >= 99.5
    ensures edge && previous.Some? ==> previous.value.percent < 99.5 <= r.percent
    ensures r.charging && r.percent >= 99.5 && previous.None? ==> edge
  {
    r.charging && r.percent >= 99.5 && (previous.None? || previous.value.percent < 99.5)
  }

  /** The findings that make the handler call `sendAlertEmail`: at least one
      CRÍTICO or URGENTE finding. */
  predicate Urgent(alerts: seq<Finding>) {
    HasLevel(alerts, Critico) || HasLevel(alerts, Urgente)
  }

  /** The JSON the handler answers with: 201 with the stored document, the
      findings when there are any (`undefined` otherwise) and `emailSent`;
      201 with `charging: true` for a charging reading; or 500. */
  datatype Response =
    | Created(data: Reading, alerts: Option<seq<Finding>>, emailSent: bool)
    | CreatedWhileCharging(data: Reading, emailSent: bool)
    | ServerError

  /** What one POST does: its response, and what it appends to the BikeData
      collection, hands to the transport and appends to the AlertLog. */
  datatype Effect = Effect(response: Response, saved: seq<Reading>, mailed: seq<Email>, logged: seq<AlertRecord>)

  /** The POST handler over the collections' contents before the request.
      A failing query or a document the schema rejects ends in a 500 that
      changes nothing; otherwise exactly the validated reading is stored and
      at most one email is attempted, and an AlertLog record is written only
      for an email the transport accepted. */
  function PostEffect(store: seq<Reading>, log: seq<AlertRecord>, p: Payload, env: Env): (e: Effect)
    ensures e.response.ServerError? <==> env.storeFails || Validate(p, env.now).None?
    ensures e.response.ServerError? ==> e.saved == [] && e.mailed == [] && e.logged == []
    ensures !e.response.ServerError? ==> Validate(p, env.now) == Some(e.response.data) && e.saved == [e.response.data]
    ensures !e.response.ServerError? ==> (e.response.CreatedWhileCharging? <==> e.response.data.charging)
    ensures |e.logged| <= |e.mailed| <= 1
  {
    if env.storeFails then Effect(ServerError, [], [], [])
    else
      match Validate(p, env.now)
      case None => Effect(ServerError, [], [], [])
      case Some(r) =>
        if r.charging then
          if ChargeCompleteEdge(Latest(store), r) then
            var out := ChargeCompleteOutcome(log, env);
            Effect(CreatedWhileCharging(r, !out.Threw()), [r],
              if out.CalledTransport() then [ChargeCompleteEmail(r.device)] else [],
              if out.Sent? && !env.logWriteFails then [AlertRecord(ChargeComplete, env.now)] else [])
          else Effect(CreatedWhileCharging(r, false), [r], [], [])
        else
          var alerts := Findings(r);
          var listed := if |alerts| > 0 then Some(alerts) else None;
          if Urgent(alerts) then
            var out := AlertOutcome(log, r, alerts, env);
            Effect(Created(r, listed, !out.Threw()), [r],
              if out.CalledTransport() then [AlertEmailFor(r, alerts)] else [],
              if out.Sent? && !env.logWriteFails then [AlertRecord(Severity(DispatchLevel(alerts)), env.now)] else [])
          else Effect(Created(r, listed, false), [r], [], [])
  }

  // ---------------------------------------------------------------------
  // The service object
  // ---------------------------------------------------------------------

  /** `GET /api/bike-data/latest`: the newest reading, 404 when there is
      none, 500 when the query fails. */
  datatype LatestResponse = Found(data: Reading) | NotFound | LatestError

  /** The Express application with its BikeData collection, the AlertLog
      collection and the mail transport. */
  class BatteryApi {
    var store: seq<Reading>
    const alertLog: AlertLog
    const transport: Transport

    constructor ()
      ensures store == [] && alertLog.records == [] && transport.calls == []
      ensures fresh(alertLog) && fresh(transport)
    {
      store := [];
      alertLog := new AlertLog();
      transport := new Transport();
    }

    /** `POST /api/battery`. */
    method PostBattery(p: Payload, env: Env) returns (resp: Response)
      modifies this, alertLog, transport
      ensures var e := PostEffect(old(store), old(alertLog.records), p, env);
        resp == e.response && store == old(store) + e.saved &&
        transport.calls == old(transport.calls) + e.mailed &&
        alertLog.records == old(alertLog.records) + e.logged
    {
      if env.storeFails {
        return ServerError;
      }
      var previous := Latest(store);
      var reading := Validate(p, env.now);
      if reading.None? {
        return ServerError;
      }
      var r := reading.value;
      store := store + [r];
      var emailSent := false;
      if r.charging && r.percent >= 99.5 {
        if previous.None? || previous.value.percent < 99.5 {
          var out := SendChargeCompleteEmail(alertLog, transport, r, env);
          if !out.Threw() {
            emailSent := true;
          }
        }
      }
      if !r.charging {
        var alerts := AnalyzeBatteryStatus(r);
        if |alerts| > 0 {
          CountLevelPositive(alerts, Critico);
          CountLevelPositive(alerts, Urgente);
          if CountLevel(alerts, Critico) + CountLevel(alerts, Urgente) > 0 {
            var out := SendAlertEmail(alertLog, transport, r, alerts, env);
            if !out.Threw() {
              emailSent := true;
            }
          }
        }
        return Created(r, if |alerts| > 0 then Some(alerts) else None, emailSent);
      }
      resp := CreatedWhileCharging(r, emailSent);
    }

    /** `GET /api/bike-data/latest`. */
    method GetLatest(storeFails: bool) returns (resp: LatestResponse)
      ensures resp.LatestError? <==> storeFails
      ensures resp.NotFound? <==> !storeFails && store == []
      ensures resp.Found? ==> resp.data in store
      ensures resp.Found? ==> forall i :: 0 <= i < |store| ==> store[i].timestamp <= resp.data.timestamp
    {
      if storeFails {
        return LatestError;
      }
      var latest := Latest(store);
      if latest.None? {
        return NotFound;
      }
      resp := Found(latest.value);
    }
  }

  // ---------------------------------------------------------------------
  // Properties of the POST handler
  // ---------------------------------------------------------------------

  /** The charge-complete email is attempted exactly for the first reading
      of a completed charge whose category the gate lets through, and it is
      the only email a charging reading can cause. The response reports an
      email exactly on that edge when the dispatcher does not throw, which
      includes a send the gate holds back. */
  lemma ChargeEmailOnlyOnEdge(store: seq<Reading>, log: seq<AlertRecord>, p: Payload, env: Env, r: Reading)
    requires !env.storeFails && Validate(p, env.now) == Some(r) && r.charging
    ensures PostEffect(store, log, p, env).mailed != [] <==>
      (ChargeCompleteEdge(Latest(store), r) && ChargeCompleteOutcome(log, env).CalledTransport())
    ensures forall m :: m in PostEffect(store, log, p, env).mailed ==> m == ChargeCompleteEmail(r.device)
    ensures PostEffect(store, log, p, env).response.emailSent <==>
      ChargeCompleteEdge(Latest(store), r) && !ChargeCompleteOutcome(log, env).Threw()
  {
  }

  /** A reading that is still complete after a complete one sends nothing
      and reports no email. */
  lemma NoRepeatChargeEmail(store: seq<Reading>, log: seq<AlertRecord>, p: Payload, env: Env, r: Reading)
    requires !env.storeFails && Validate(p, env.now) == Some(r) && r.charging
    requires Latest(store).Some? && Latest(store).value.percent >= 99.5
    ensures PostEffect(store, log, p, env) == Effect(CreatedWhileCharging(r, false), [r], [], [])
  {
  }

  /** A discharging reading whose findings are all ADVERTENCIA, or that has
      none, never reaches the transport and reports no email. */
  lemma WarningsAloneSendNothing(store: seq<Reading>, log: seq<AlertRecord>, p: Payload, env: Env, r: Reading)
    requires !env.storeFails && Validate(p, env.now) == Some(r) && !r.charging
    requires forall f :: f in Findings(r) ==> f.level == Advertencia
    ensures PostEffect(store, log, p, env).mailed == []
    ensures PostEffect(store, log, p, env).logged == []
    ensures PostEffect(store, log, p, env).response == Created(r, if |Findings(r)| > 0 then Some(Findings(r)) else None, false)
  {
  }

  /** A discharging reading with a CRÍTICO or URGENTE finding that the
      cooldown gate holds back reaches neither the transport nor the log,
      yet the response reports `emailSent: true`: the dispatcher returns
      without throwing. */
  lemma SuppressedAlertReportsSent(store: seq<Reading>, log: seq<AlertRecord>, p: Payload, env: Env, r: Reading)
    requires !env.storeFails && Validate(p, env.now) == Some(r) && !r.charging
    requires Urgent(Findings(r))
    requires !CanSendAlert(log, Severity(DispatchLevel(Findings(r))), env.now, env.lookupFails)
    ensures PostEffect(store, log, p, env).mailed == []
    ensures PostEffect(store, log, p, env).logged == []
    ensures PostEffect(store, log, p, env).response == Created(r, Some(Findings(r)), true)
  {
  }

  /** An alert email for a discharging reading carries all of the reading's
      findings, under the subject of the highest level among them. */
  lemma AlertEmailCarriesFindings(store: seq<Reading>, log: seq<AlertRecord>, p: Payload, env: Env, r: Reading)
    requires !env.storeFails && Validate(p, env.now) == Some(r) && !r.charging
    requires PostEffect(store, log, p, env).mailed != []
    ensures Urgent(Findings(r))
    ensures PostEffect(store, log, p, env).mailed == [AlertEmailFor(r, Findings(r))]
    ensures PostEffect(store, log, p, env).mailed[0].prefix == PrefixFor(DispatchLevel(Findings(r)))
  {
    SubjectAgreesWithDispatchLevel(Findings(r));
  }

  /** A discharging reading is answered with 201 and its findings, the
      `alerts` field present exactly when there are any. The response
      reports an email exactly when there is a CRÍTICO or URGENTE finding
      and the dispatcher does not throw, which includes a send the gate
      holds back. */
  lemma DischargingResponse(store: seq<Reading>, log: seq<AlertRecord>, p: Payload, env: Env, r: Reading)
    requires !env.storeFails && Validate(p, env.now) == Some(r) && !r.charging
    ensures PostEffect(store, log, p, env).response.Created?
    ensures PostEffect(store, log, p, env).response.alerts.Some? <==> |Findings(r)| > 0
    ensures PostEffect(store, log, p, env).response.alerts.Some? ==>
      PostEffect(store, log, p, env).response.alerts.value == Findings(r)
    ensures PostEffect(store, log, p, env).response.emailSent <==>
      Urgent(Findings(r)) && !AlertOutcome(log, r, Findings(r), env).Threw()
  {
  }

  /** A discharging reading with a CRÍTICO or URGENTE finding, an open
      gate and no `remainingAh` or no `consumedAh`: the email cannot be
      built, so the transport is never reached, nothing is logged, and the
      response reports no email. */
  lemma MissingChargeFiguresSendNothing(store: seq<Reading>, log: seq<AlertRecord>, p: Payload, env: Env, r: Reading)
    requires !env.storeFails && Validate(p, env.now) == Some(r) && !r.charging
    requires Urgent(Findings(r))
    requires CanSendAlert(log, Severity(DispatchLevel(Findings(r))), env.now, env.lookupFails)
    requires r.remainingAh.None? || r.consumedAh.None?
    ensures PostEffect(store, log, p, env).mailed == []
    ensures PostEffect(store, log, p, env).logged == []
    ensures PostEffect(store, log, p, env).response == Created(r, Some(Findings(r)), false)
  {
  }

  /** A transport failure is caught by the handler: the reading stays
      stored, the answer is still 201, nothing is logged, and when the
      transport was reached the response reports no email. */
  lemma TransportFailureKeepsReading(store: seq<Reading>, log: seq<AlertRecord>, p: Payload, env: Env, r: Reading)
    requires !env.storeFails && Validate(p, env.now) == Some(r) && env.transportFails
    ensures PostEffect(store, log, p, env).saved == [r]
    ensures !PostEffect(store, log, p, env).response.ServerError?
    ensures PostEffect(store, log, p, env).logged == []
    ensures PostEffect(store, log, p, env).mailed != [] ==> !PostEffect(store, log, p, env).response.emailSent
  {
  }
}
