/** The two request sequences the API's own scripts replay against a fresh
    server (api/test-charge-complete.js, api/test-throttling.js), as clients
    of `BatteryApi` with every foreign call succeeding. */
module Scenarios {
  import opened Telemetry
  import opened AlertService
  import opened Api

  /** A request in which nothing fails, received at `now`. */
  function Calm(now: int): Env {
    Env(now, false, false, false, false)
  }

  /** The `emailSent` flag of a 201 response; a 500 has none. */
  function EmailSent(resp: Response): bool {
    match resp
    case Created(_, _, sent) => sent
    case CreatedWhileCharging(_, sent) => sent
    case ServerError => false
  }

  /** One body of the charge sequence: the bike on the charger. The
      script's `timestamp: Date.now()` is taken equal to the time the server
      receives the body. */
  function ChargingBody(percent: real, voltage: real, now: int): Payload {
    Payload(Some("eBikeBattery"), None, Some(voltage), Some(-2.5), Some(percent), None, None,
      Some(15.0), None, Some(true), Some(now as real))
  }

  /** The body the throttling script posts three times: 31.5 V at 8 %, with
      the script's clock taken equal to the receive time. */
  function CriticalBody(now: int): Payload {
    Payload(Some("eBikeBattery"), Some("Hover 10s2p"), Some(31.5), Some(0.8), Some(8.0), Some(0.32),
      Some(3.68), Some(15.0), Some(100.0), Some(false), Some(now as real))
  }

  /** The reading the server stores for the throttling body. */
  function CriticalReading(now: int): Reading {
    Validate(CriticalBody(now), now).value
  }

  /** What the evaluator finds in that reading: voltage and charge both
      critically low, and capacity nearly exhausted. */
  lemma CriticalFindings(now: int)
    ensures Findings(CriticalReading(now)) ==
      [Finding(Critico, VoltageCriticallyLow), Finding(Critico, BatteryNearlyEmpty), Finding(Urgente, CapacityNearlyExhausted)]
  {
    FindingsInTableOrder(CriticalReading(now));
  }

  /** A charging body with nothing failing: it is stored; on the edge to a
      complete charge the response reports an email, and the transport and
      the log see one only when the gate is open as well. */
  lemma ChargingEffect(store: seq<Reading>, log: seq<AlertRecord>, percent: real, voltage: real, now: int)
    ensures var r := Validate(ChargingBody(percent, voltage, now), now).value;
      var edge := ChargeCompleteEdge(Latest(store), r);
      var open := CanSendAlert(log, ChargeComplete, now, false);
      PostEffect(store, log, ChargingBody(percent, voltage, now), Calm(now)) ==
        Effect(CreatedWhileCharging(r, edge), [r],
          if edge && open then [ChargeCompleteEmail("eBikeBattery")] else [],
          if edge && open then [AlertRecord(ChargeComplete, now)] else [])
  {
  }

  /** One step of the charge sequence: the response reports an email
      exactly on the edge to a complete charge, the email goes out when the
      gate lets it through as well, and the new reading becomes the
      latest. */
  method PostCharging(api: BatteryApi, percent: real, voltage: real, now: int) returns (sent: bool)
    requires Latest(api.store).Some? ==> Latest(api.store).value.timestamp <= now
    modifies api, api.alertLog, api.transport
    ensures Latest(api.store).Some? && Latest(api.store).value.percent == percent
    ensures Latest(api.store).value.timestamp == now
    ensures sent == (percent >= 99.5 && (old(Latest(api.store)).None? || old(Latest(api.store)).value.percent < 99.5))
    ensures var delivered := sent && CanSendAlert(old(api.alertLog.records), ChargeComplete, now, false);
      api.transport.calls == old(api.transport.calls) + (if delivered then [ChargeCompleteEmail("eBikeBattery")] else []) &&
      api.alertLog.records == old(api.alertLog.records) + (if delivered then [AlertRecord(ChargeComplete, now)] else [])
  {
    var body := ChargingBody(percent, voltage, now);
    ghost var r := Validate(body, now).value;
    ChargingEffect(api.store, api.alertLog.records, percent, voltage, now);
    LatestOfAppend(api.store, r);
    var resp := api.PostBattery(body, Calm(now));
    sent := EmailSent(resp);
  }

  /** The charge sequence of test-charge-complete.js, step by step. */
  const ChargePercents: seq<real> := [70.0, 80.0, 90.0, 95.0, 98.0, 100.0, 100.0, 100.0]
  const ChargeVoltages: seq<real> := [39.2, 40.0, 40.8, 41.4, 41.8, 42.0, 42.0, 42.0]

  /** The sequence reaches a complete charge at its sixth step and stays
      there. */
  lemma ChargePercentsComplete(k: nat)
    requires k < |ChargePercents|
    ensures ChargePercents[k] >= 99.5 <==> k >= 5
  {
  }

  /** test-charge-complete.js: the charging readings posted two seconds
      apart to a fresh server. Only the first reading at 100 % (the sixth)
      reports and sends the charge-complete email. */
  method ChargeSequence(start: int) returns (flags: seq<bool>, mailed: seq<Email>)
    ensures flags == [false, false, false, false, false, true, false, false]
    ensures mailed == [ChargeCompleteEmail("eBikeBattery")]
  {
    var api := new BatteryApi();
    flags := [];
    for k := 0 to |ChargePercents|
      invariant |flags| == k
      invariant forall j :: 0 <= j < k ==> flags[j] == (j == 5)
      invariant k == 0 ==> api.store == []
      invariant k > 0 ==> Latest(api.store).Some? && Latest(api.store).value.timestamp <= start + 2000 * k
      invariant k > 0 ==> (Latest(api.store).value.percent >= 99.5 <==> k > 5)
      invariant api.transport.calls == if k > 5 then [ChargeCompleteEmail("eBikeBattery")] else []
      invariant api.alertLog.records == if k > 5 then [AlertRecord(ChargeComplete, start + 10000)] else []
    {
      ChargePercentsComplete(k);
      var sent := PostCharging(api, ChargePercents[k], ChargeVoltages[k], start + 2000 * k);
      flags := flags + [sent];
    }
    mailed := api.transport.calls;
  }

  /** One post of the throttling body: the response always reports an
      email, and the transport receives one exactly when the CRÍTICO gate
      is open. */
  method PostCritical(api: BatteryApi, now: int) returns (sent: bool)
    modifies api, api.alertLog, api.transport
    ensures sent
    ensures var open := CanSendAlert(old(api.alertLog.records), Severity(Critico), now, false);
      api.transport.calls == old(api.transport.calls) +
        (if open then [AlertEmailFor(CriticalReading(now), Findings(CriticalReading(now)))] else []) &&
      api.alertLog.records == old(api.alertLog.records) + (if open then [AlertRecord(Severity(Critico), now)] else [])
  {
    CriticalFindings(now);
    assert HasLevel(Findings(CriticalReading(now)), Critico) by {
      assert Findings(CriticalReading(now))[0].level == Critico;
    }
    var resp := api.PostBattery(CriticalBody(now), Calm(now));
    sent := EmailSent(resp);
  }

  /** test-throttling.js: the same critical body three times, three seconds
      apart. One email reaches the transport and one AlertLog record is
      written; all three responses report `emailSent: true`, because a
      dispatch the cooldown holds back returns without throwing. */
  method Throttling(start: int) returns (flags: seq<bool>, mailed: seq<Email>, logged: seq<AlertRecord>)
    ensures flags == [true, true, true]
    ensures |mailed| == 1 && mailed[0].AlertEmail? && mailed[0].prefix == CriticoPrefix
    ensures logged == [AlertRecord(Severity(Critico), start)]
  {
    var api := new BatteryApi();
    flags := [];
    for k := 0 to 3
      invariant flags == seq(k, _ => true)
      invariant api.transport.calls ==
        if k > 0 then [AlertEmailFor(CriticalReading(start), Findings(CriticalReading(start)))] else []
      invariant api.alertLog.records == if k > 0 then [AlertRecord(Severity(Critico), start)] else []
    {
      var sent := PostCritical(api, start + 3000 * k);
      flags := flags + [sent];
    }
    mailed := api.transport.calls;
    logged := api.alertLog.records;
    CriticalFindings(start);
    CountLevelPositive(Findings(CriticalReading(start)), Critico);
    assert Findings(CriticalReading(start))[0].level == Critico;
  }
}
