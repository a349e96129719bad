/** The alert service of the API (api/services/alertService.js): the threshold
    evaluator, the per-category cooldown gate over the AlertLog collection,
    the choice of subject and dispatch category, and the two dispatchers.
    The mail transport and the AlertLog collection are objects whose state
    the dispatchers change; `now` and the failures of foreign calls come in
    through `Env`. */
module AlertService {
  import opened Telemetry

  // ---------------------------------------------------------------------
  // Levels and cooldown categories
  // ---------------------------------------------------------------------

  /** The level of a finding: CRÍTICO, URGENTE or ADVERTENCIA. */
  datatype Level = Critico | Urgente | Advertencia

  /** Severity order: CRÍTICO > URGENTE > ADVERTENCIA. */
  function Rank(l: Level): nat {
    match l
    case Critico => 2
    case Urgente => 1
    case Advertencia => 0
  }

  /** The key under which AlertLog records are kept and cooldowns looked up:
      one of the three levels, 'charge_complete', or a key outside the
      cooldown table. `Unlisted` stands only for such keys: a string that
      spells one of the four listed keys is written with its own
      constructor. */
  datatype AlertType = Severity(level: Level) | ChargeComplete | Unlisted(name: string)

  /** ALERT_COOLDOWN, with the `|| 6` fallback for a key the table lacks.
      The more severe a level, the sooner it may be sent again, and the
      charge-complete email has the longest wait. */
  function CooldownHours(t: AlertType): (h: nat)
    ensures 2 <= h <= 24
    ensures t.Unlisted? ==> h == 6
    ensures h == 24 <==> t == ChargeComplete
    ensures t.Severity? ==> h <= 12
  {
    match t
    case Severity(Critico) => 2
    case Severity(Urgente) => 4
    case Severity(Advertencia) => 12
    case ChargeComplete => 24
    case Unlisted(_) => 6
  }

  /** A more severe level waits less before it is sent again. */
  lemma CooldownBySeverity(a: Level, b: Level)
    requires Rank(a) > Rank(b)
    ensures CooldownHours(Severity(a)) < CooldownHours(Severity(b))
  {
  }

  /** The cooldown in milliseconds, the unit of `Date.now()`: a whole
      number of hours. */
  function CooldownMs(t: AlertType): (ms: nat)
    ensures ms % 3600000 == 0 && ms / 3600000 == CooldownHours(t)
    ensures 7200000 <= ms <= 86400000
  {
    CooldownHours(t) * 60 * 60 * 1000
  }

  // ---------------------------------------------------------------------
  // The AlertLog collection and the cooldown gate
  // ---------------------------------------------------------------------

  /** One AlertLog document: the category and when it was sent (ms). */
  datatype AlertRecord = AlertRecord(alertType: AlertType, lastSent: int)

  /** `lastSent` of the newest record of type `t`, as the query
      `findOne({ alertType }).sort({ lastSent: -1 })` finds it. */
  function LastSent(log: seq<AlertRecord>, t: AlertType): (m: Option<int>)
    ensures m.None? <==> forall i :: 0 <= i < |log| ==> log[i].alertType != t
    ensures m.Some? ==> exists i :: 0 <= i < |log| && log[i].alertType == t && log[i].lastSent == m.value
    ensures m.Some? ==> forall i :: 0 <= i < |log| && log[i].alertType == t ==> log[i].lastSent <= m.value
  {
    if log == [] then None
    else
      var earlier := LastSent(log[..|log| - 1], t);
      var last := log[|log| - 1];
      if last.alertType != t then earlier
      else if earlier.Some? && earlier.value > last.lastSent then earlier
      else Some(last.lastSent)
  }

  /** `canSendAlert`: allowed when the lookup fails (fail open), when no
      record of the type exists, or when at least the type's cooldown has
      elapsed since the newest one; the boundary itself is allowed. */
  function CanSendAlert(log: seq<AlertRecord>, t: AlertType, now: int, lookupFails: bool): (ok: bool)
    ensures ok <==> (lookupFails ||
      forall i :: 0 <= i < |log| && log[i].alertType == t ==> now - log[i].lastSent >= CooldownMs(t))
  {
    if lookupFails then true
    else
      match LastSent(log, t)
      case None => true
      case Some(sent) => now - sent >= CooldownMs(t)
  }

  /** The AlertLog collection: append-only. */
  class AlertLog {
    var records: seq<AlertRecord>

    constructor ()
      ensures records == []
    {
      records := [];
    }

    /** `logAlert`: append a record stamped `now`; a failed write is
        swallowed and appends nothing. */
    method LogAlert(t: AlertType, now: int, writeFails: bool)
      modifies this
      ensures records == if writeFails then old(records) else old(records) + [AlertRecord(t, now)]
    {
      if !writeFails {
        records := records + [AlertRecord(t, now)];
      }
    }
  }

  /** A record of another category never changes the gate's answer. */
  lemma GateCategoriesIndependent(log: seq<AlertRecord>, t: AlertType, u: AlertType, sent: int, now: int, lookupFails: bool)
    requires t != u
    ensures CanSendAlert(log + [AlertRecord(u, sent)], t, now, lookupFails) == CanSendAlert(log, t, now, lookupFails)
  {
  }

  /** Once a record of `t` stamped `sent` is the newest of its type, the gate
      for `t` opens exactly when the cooldown has elapsed since `sent`. */
  lemma CooldownBoundary(log: seq<AlertRecord>, t: AlertType, sent: int, now: int)
    requires forall i :: 0 <= i < |log| && log[i].alertType == t ==> log[i].lastSent <= sent
    ensures CanSendAlert(log + [AlertRecord(t, sent)], t, now, false) <==> now >= sent + CooldownMs(t)
  {
  }

  /** The CRÍTICO cooldown is two hours to the millisecond: one second
      short of it the gate is shut, at it the gate is open. */
  lemma CriticalCooldownBoundary(t0: int)
    ensures !CanSendAlert([AlertRecord(Severity(Critico), t0)], Severity(Critico), t0 + 2 * 60 * 60 * 1000 - 1000, false)
    ensures CanSendAlert([AlertRecord(Severity(Critico), t0)], Severity(Critico), t0 + 2 * 60 * 60 * 1000, false)
  {
  }

  // ---------------------------------------------------------------------
  // The threshold evaluator
  // ---------------------------------------------------------------------

  /** The condition a finding reports (its `issue`). */
  datatype Issue =
    | VoltageCriticallyLow     // 'Voltaje extremadamente bajo'
    | VoltageLow               // 'Voltaje bajo'
    | BatteryNearlyEmpty       // 'Batería casi agotada'
    | BatteryLow               // 'Batería baja'
    | Overvoltage              // 'Sobrevoltaje detectado'
    | HighDischargeCurrent     // 'Corriente de descarga alta'
    | CapacityNearlyExhausted  // 'Capacidad casi agotada'
    | NearEndOfLife            // 'Batería cerca del fin de vida útil'

  datatype Finding = Finding(level: Level, issue: Issue)

  /** The level each rule reports with. */
  function LevelOf(i: Issue): Level {
    match i
    case VoltageCriticallyLow => Critico
    case VoltageLow => Urgente
    case BatteryNearlyEmpty => Critico
    case BatteryLow => Advertencia
    case Overvoltage => Critico
    case HighDischargeCurrent => Advertencia
    case CapacityNearlyExhausted => Urgente
    case NearEndOfLife => Advertencia
  }

  /** The number of rules in the table. */
  const RuleCount: nat := 8

  /** The rule table: the rules in the order the evaluator tries them. */
  function RuleAt(k: nat): (rule: Issue)
    requires k < RuleCount
    ensures RuleIndex(rule) == k
    ensures forall i: Issue :: RuleIndex(i) == k ==> i == rule
  {
    if k == 0 then VoltageCriticallyLow
    else if k == 1 then VoltageLow
    else if k == 2 then BatteryNearlyEmpty
    else if k == 3 then BatteryLow
    else if k == 4 then Overvoltage
    else if k == 5 then HighDischargeCurrent
    else if k == 6 then CapacityNearlyExhausted
    else NearEndOfLife
  }

  function RuleIndex(i: Issue): nat {
    match i
    case VoltageCriticallyLow => 0
    case VoltageLow => 1
    case BatteryNearlyEmpty => 2
    case BatteryLow => 3
    case Overvoltage => 4
    case HighDischargeCurrent => 5
    case CapacityNearlyExhausted => 6
    case NearEndOfLife => 7
  }

  /** When each rule fires. Within voltage and within percent the rules form
      an else-if chain, so the second of each pair fires only when the first
      does not. An absent `remainingAh` compares false (`undefined < 0.5`).
      The end-of-life rule is the JavaScript comparison itself, over
      JavaScript numbers (`NearEndOfLifeCases` solves it case by case). */
  predicate Fires(r: Reading, i: Issue): (b: bool)
    ensures b && r.charging ==> i == Overvoltage || i == NearEndOfLife
    ensures b && i == VoltageLow ==> 32.0 <= r.voltage < 34.0
    ensures b && i == BatteryLow ==> 15.0 <= r.percent < 25.0
    ensures b && i == CapacityNearlyExhausted ==> r.remainingAh.Some?
  {
    match i
    case VoltageCriticallyLow => r.voltage < 32.0 && !r.charging
    case VoltageLow => !(r.voltage < 32.0 && !r.charging) && r.voltage < 34.0 && !r.charging
    case BatteryNearlyEmpty => r.percent < 15.0 && !r.charging
    case BatteryLow => !(r.percent < 15.0 && !r.charging) && r.percent < 25.0 && !r.charging
    case Overvoltage => r.voltage > 42.0
    case HighDischargeCurrent => r.current > 15.0 && !r.charging
    case CapacityNearlyExhausted => r.remainingAh.Some? && r.remainingAh.value < 0.5 && !r.charging
    case NearEndOfLife => JsGreater(CyclePercent(r), 90.0)
  }

  /** `(cycles / maxCycles) * 100` evaluated as JavaScript does. */
  function CyclePercent(r: Reading): JsNumber {
    JsScale(JsDivide(r.cycles, r.maxCycles), 100.0)
  }

  /** The end-of-life rule, case by case: never without `maxCycles`; with a
      zero `maxCycles` exactly when `cycles` is positive (+Infinity);
      otherwise when more than 90 % of the rated cycles are used. */
  lemma NearEndOfLifeCases(r: Reading)
    ensures r.maxCycles.None? ==> !Fires(r, NearEndOfLife)
    ensures r.maxCycles == Some(0.0) ==> (Fires(r, NearEndOfLife) <==> r.cycles > 0.0)
    ensures r.maxCycles.Some? && r.maxCycles.value != 0.0 ==>
      (Fires(r, NearEndOfLife) <==> r.cycles / r.maxCycles.value > 0.9)
  {
  }

  /** Findings listed in strictly increasing rule order (so no rule twice). */
  predicate RuleOrdered(fs: seq<Finding>) {
    forall i, j :: 0 <= i < j < |fs| ==> RuleIndex(fs[i].issue) < RuleIndex(fs[j].issue)
  }

  /** The finding one rule contributes: its own, at its level, when it fires. */
  function Check(r: Reading, rule: Issue): seq<Finding> {
    if Fires(r, rule) then [Finding(LevelOf(rule), rule)] else []
  }

  /** The findings of the first `n` rules of the table, in table order. */
  function FindingsUpTo(r: Reading, n: nat): seq<Finding>
    requires n <= RuleCount
  {
    if n == 0 then [] else FindingsUpTo(r, n - 1) + Check(r, RuleAt(n - 1))
  }

  /** The first `n` rules contribute exactly their firing findings, each at
      its rule's level, in strictly increasing rule order. */
  lemma {:induction false} FindingsUpToSpec(r: Reading, n: nat)
    requires n <= RuleCount
    ensures forall f :: f in FindingsUpTo(r, n) <==> RuleIndex(f.issue) < n && Fires(r, f.issue) && f.level == LevelOf(f.issue)
    ensures forall k :: 0 <= k < |FindingsUpTo(r, n)| ==> RuleIndex(FindingsUpTo(r, n)[k].issue) < n
    ensures RuleOrdered(FindingsUpTo(r, n))
  {
    if n > 0 {
      FindingsUpToSpec(r, n - 1);
    }
  }

  /** The evaluator's specification: a finding is present exactly when its
      rule fires, at its rule's level, and the findings come in rule order. */
  function Findings(r: Reading): (fs: seq<Finding>)
    ensures forall f :: f in fs <==> Fires(r, f.issue) && f.level == LevelOf(f.issue)
    ensures RuleOrdered(fs)
  {
    FindingsUpToSpec(r, RuleCount);
    FindingsUpTo(r, RuleCount)
  }

  /** The table, spelled out: the evaluator's findings are each rule's
      contribution in turn. */
  lemma FindingsInTableOrder(r: Reading)
    ensures Findings(r) == Check(r, VoltageCriticallyLow) + Check(r, VoltageLow)
      + Check(r, BatteryNearlyEmpty) + Check(r, BatteryLow) + Check(r, Overvoltage)
      + Check(r, HighDischargeCurrent) + Check(r, CapacityNearlyExhausted) + Check(r, NearEndOfLife)
  {
    assert FindingsUpTo(r, 1) == Check(r, VoltageCriticallyLow);
    assert FindingsUpTo(r, 2) == FindingsUpTo(r, 1) + Check(r, VoltageLow);
    assert FindingsUpTo(r, 3) == FindingsUpTo(r, 2) + Check(r, BatteryNearlyEmpty);
    assert FindingsUpTo(r, 4) == FindingsUpTo(r, 3) + Check(r, BatteryLow);
    assert FindingsUpTo(r, 5) == FindingsUpTo(r, 4) + Check(r, Overvoltage);
    assert FindingsUpTo(r, 6) == FindingsUpTo(r, 5) + Check(r, HighDischargeCurrent);
    assert FindingsUpTo(r, 7) == FindingsUpTo(r, 6) + Check(r, CapacityNearlyExhausted);
    assert FindingsUpTo(r, 8) == FindingsUpTo(r, 7) + Check(r, NearEndOfLife);
  }

  /** A JavaScript number: finite, an infinity, or NaN. */
  datatype JsNumber = Finite(v: real) | PosInfinity | NegInfinity | NaN

  /** `a / b` in JavaScript, `b` being undefined when absent. */
  function JsDivide(a: real, b: Option<real>): JsNumber {
    match b
    case None => NaN
    case Some(d) =>
      if d != 0.0 then Finite(a / d)
      else if a > 0.0 then PosInfinity
      else if a < 0.0 then NegInfinity
      else NaN
  }

  /** `x * k` in JavaScript, for a positive finite `k`. */
  function JsScale(x: JsNumber, k: real): JsNumber
    requires k > 0.0
  {
    match x
    case Finite(v) => Finite(v * k)
    case _ => x
  }

  /** `x > c` in JavaScript: false for NaN and -Infinity. */
  predicate JsGreater(x: JsNumber, c: real) {
    match x
    case Finite(v) => v > c
    case PosInfinity => true
    case NegInfinity => false
    case NaN => false
  }

  /** `analyzeBatteryStatus`: push one finding per firing rule, group by
      group, into a list that starts empty. */
  method AnalyzeBatteryStatus(r: Reading) returns (alerts: seq<Finding>)
    ensures alerts == Findings(r)
  {
    alerts := [];
    if r.voltage < 32.0 && !r.charging {
      alerts := alerts + [Finding(Critico, VoltageCriticallyLow)];
    } else if r.voltage < 34.0 && !r.charging {
      alerts := alerts + [Finding(Urgente, VoltageLow)];
    }
    assert alerts == Check(r, VoltageCriticallyLow) + Check(r, VoltageLow);
    ghost var before := alerts;
    if r.percent < 15.0 && !r.charging {
      alerts := alerts + [Finding(Critico, BatteryNearlyEmpty)];
    } else if r.percent < 25.0 && !r.charging {
      alerts := alerts + [Finding(Advertencia, BatteryLow)];
    }
    assert alerts == before + Check(r, BatteryNearlyEmpty) + Check(r, BatteryLow);
    before := alerts;
    if r.voltage > 42.0 {
      alerts := alerts + [Finding(Critico, Overvoltage)];
    }
    assert alerts == before + Check(r, Overvoltage);
    before := alerts;
    if r.current > 15.0 && !r.charging {
      alerts := alerts + [Finding(Advertencia, HighDischargeCurrent)];
    }
    assert alerts == before + Check(r, HighDischargeCurrent);
    before := alerts;
    if r.remainingAh.Some? && r.remainingAh.value < 0.5 && !r.charging {
      alerts := alerts + [Finding(Urgente, CapacityNearlyExhausted)];
    }
    assert alerts == before + Check(r, CapacityNearlyExhausted);
    before := alerts;
    var cyclePercent := JsScale(JsDivide(r.cycles, r.maxCycles), 100.0);
    if JsGreater(cyclePercent, 90.0) {
      alerts := alerts + [Finding(Advertencia, NearEndOfLife)];
    }
    assert alerts == before + Check(r, NearEndOfLife);
    FindingsInTableOrder(r);
  }

  /** Within a metric the low rules exclude each other: at most one
      low-voltage and at most one low-percent finding. */
  lemma LowGroupsExclusive(r: Reading)
    ensures !(Finding(Critico, VoltageCriticallyLow) in Findings(r) && Finding(Urgente, VoltageLow) in Findings(r))
    ensures !(Finding(Critico, BatteryNearlyEmpty) in Findings(r) && Finding(Advertencia, BatteryLow) in Findings(r))
    ensures r.voltage < 32.0 && !r.charging ==> Finding(Critico, VoltageCriticallyLow) in Findings(r)
    ensures r.percent < 15.0 && !r.charging ==> Finding(Critico, BatteryNearlyEmpty) in Findings(r)
  {
  }

  /** While charging only the overvoltage rule (which ignores `charging`)
      and the end-of-life rule can fire. */
  lemma ChargingFindings(r: Reading)
    requires r.charging
    ensures forall f :: f in Findings(r) ==> f.issue == Overvoltage || f.issue == NearEndOfLife
    ensures Finding(Critico, Overvoltage) in Findings(r) <==> r.voltage > 42.0
  {
  }

  // ---------------------------------------------------------------------
  // Dispatch category and subject
  // ---------------------------------------------------------------------

  /** `alerts.some(a => a.level === l)`: some finding of the list has that
      level. */
  predicate HasLevel(alerts: seq<Finding>, l: Level): (b: bool)
    ensures b <==> exists f :: f in alerts && f.level == l
  {
    exists i :: 0 <= i < |alerts| && alerts[i].level == l
  }

  /** `alerts.filter(a => a.level === l).length`: never more than the list
      holds, and all of it exactly when every finding has that level. */
  function CountLevel(alerts: seq<Finding>, l: Level): (c: nat)
    ensures c <= |alerts|
    ensures c == |alerts| <==> forall i :: 0 <= i < |alerts| ==> alerts[i].level == l
  {
    if alerts == [] then 0
    else (if alerts[0].level == l then 1 else 0) + CountLevel(alerts[1..], l)
  }

  lemma {:induction false} CountLevelPositive(alerts: seq<Finding>, l: Level)
    ensures CountLevel(alerts, l) > 0 <==> HasLevel(alerts, l)
  {
    if alerts != [] {
      CountLevelPositive(alerts[1..], l);
      if HasLevel(alerts, l) && alerts[0].level != l {
        var i :| 0 <= i < |alerts| && alerts[i].level == l;
        assert alerts[1..][i - 1].level == l;
      }
      if HasLevel(alerts[1..], l) {
        var j :| 0 <= j < |alerts[1..]| && alerts[1..][j].level == l;
        assert alerts[j + 1].level == l;
      }
    }
  }

  /** The category `sendAlertEmail` dispatches under: the highest level
      present (ADVERTENCIA for an empty list). */
  function DispatchLevel(alerts: seq<Finding>): (l: Level)
    ensures |alerts| > 0 ==> HasLevel(alerts, l)
    ensures forall i :: 0 <= i < |alerts| ==> Rank(alerts[i].level) <= Rank(l)
  {
    if HasLevel(alerts, Critico) then Critico
    else if HasLevel(alerts, Urgente) then Urgente
    else
      assert |alerts| > 0 ==> alerts[0].level == Advertencia;
      Advertencia
  }

  /** The label that opens the subject line of an alert email. */
  datatype Prefix = CriticoPrefix | UrgentePrefix | NoPrefix

  /** The subject's prefix, chosen from the counts of critical and urgent
      findings as `generateEmailContent` does: CRÍTICO when a critical
      finding is present, URGENTE when an urgent but no critical one is,
      and none otherwise. */
  function SubjectPrefix(alerts: seq<Finding>): (p: Prefix)
    ensures p == CriticoPrefix <==> HasLevel(alerts, Critico)
    ensures p == UrgentePrefix <==> !HasLevel(alerts, Critico) && HasLevel(alerts, Urgente)
    ensures p == NoPrefix <==> forall i :: 0 <= i < |alerts| ==> alerts[i].level == Advertencia
  {
    CountLevelPositive(alerts, Critico);
    CountLevelPositive(alerts, Urgente);
    if CountLevel(alerts, Critico) > 0 then CriticoPrefix
    else if CountLevel(alerts, Urgente) > 0 then UrgentePrefix
    else NoPrefix
  }

  function PrefixFor(l: Level): Prefix {
    match l
    case Critico => CriticoPrefix
    case Urgente => UrgentePrefix
    case Advertencia => NoPrefix
  }

  /** The subject line and the dispatch category, computed separately in
      the source, always agree. */
  lemma SubjectAgreesWithDispatchLevel(alerts: seq<Finding>)
    ensures SubjectPrefix(alerts) == PrefixFor(DispatchLevel(alerts))
  {
    CountLevelPositive(alerts, Critico);
    CountLevelPositive(alerts, Urgente);
  }

  // ---------------------------------------------------------------------
  // Email content and the transport
  // ---------------------------------------------------------------------

  /** The border colour of a finding's block: red, orange, yellow. */
  datatype Colour = Red | Orange | Yellow

  function ColourOf(l: Level): Colour {
    match l
    case Critico => Red
    case Urgente => Orange
    case Advertencia => Yellow
  }

  /** One block of the alert email's body: `<level>: <issue>` and its colour. */
  datatype BodyEntry = BodyEntry(colour: Colour, level: Level, issue: Issue)

  function EntryFor(f: Finding): BodyEntry {
    BodyEntry(ColourOf(f.level), f.level, f.issue)
  }

  /** What is handed to the transport. The text, number formatting and
      fixed recommendations are left out. */
  datatype Email =
    | AlertEmail(prefix: Prefix, name: Option<string>, entries: seq<BodyEntry>)
    | ChargeCompleteEmail(device: string)

  function AlertEmailFor(r: Reading, alerts: seq<Finding>): Email {
    AlertEmail(SubjectPrefix(alerts), r.name, seq(|alerts|, i requires 0 <= i < |alerts| => EntryFor(alerts[i])))
  }

  /** `generateEmailContent`. The body's status table calls `toFixed` on
      `remainingAh` and `consumedAh`, which throws when either is absent;
      that is the `None` result. Otherwise the body lists every finding in
      order, whatever its level. */
  method GenerateEmailContent(r: Reading, alerts: seq<Finding>) returns (mail: Option<Email>)
    ensures mail.None? <==> r.remainingAh.None? || r.consumedAh.None?
    ensures mail.Some? ==> mail.value == AlertEmailFor(r, alerts)
    ensures mail.Some? ==> mail.value.prefix == SubjectPrefix(alerts) && mail.value.name == r.name
    ensures mail.Some? ==> (|mail.value.entries| == |alerts| &&
      forall i :: 0 <= i < |alerts| ==> mail.value.entries[i] == BodyEntry(ColourOf(alerts[i].level), alerts[i].level, alerts[i].issue))
  {
    var prefix := SubjectPrefix(alerts);
    if r.remainingAh.None? || r.consumedAh.None? {
      return None;
    }
    var entries: seq<BodyEntry> := [];
    for i := 0 to |alerts|
      invariant |entries| == i
      invariant forall k :: 0 <= k < i ==> entries[k] == EntryFor(alerts[k])
    {
      var colour := Red;
      if alerts[i].level == Urgente {
        colour := Orange;
      }
      if alerts[i].level == Advertencia {
        colour := Yellow;
      }
      entries := entries + [BodyEntry(colour, alerts[i].level, alerts[i].issue)];
    }
    mail := Some(AlertEmail(prefix, r.name, entries));
  }

  /** The mail transport, as seen from the service: every `sendMail` call
      it receives, and an outcome that the environment decides. */
  class Transport {
    var calls: seq<Email>

    constructor ()
      ensures calls == []
    {
      calls := [];
    }

    method SendMail(mail: Email, fails: bool) returns (ok: bool)
      modifies this
      ensures calls == old(calls) + [mail]
      ensures ok == !fails
    {
      calls := calls + [mail];
      ok := !fails;
    }
  }

  // ---------------------------------------------------------------------
  // Dispatchers
  // ---------------------------------------------------------------------

  /** How a dispatcher call ends: it returned null without sending
      (`Skipped`), returned the transport's info (`Sent`), or rejected
      because the content could not be built or the transport failed. */
  datatype SendOutcome = Skipped | Sent | FormatError | TransportError {
    predicate Threw() { FormatError? || TransportError? }
    predicate CalledTransport() { Sent? || TransportError? }
  }

  /** What `sendAlertEmail` does, given the log before the call. It returns
      without sending exactly for an empty list or a shut gate (so never
      when the lookup failed); the email can only be built, and the
      transport reached, when both charge figures are present; and the
      transport's answer decides between a send and a rejection. */
  function AlertOutcome(log: seq<AlertRecord>, r: Reading, alerts: seq<Finding>, env: Env): (out: SendOutcome)
    ensures out.Skipped? <==> |alerts| == 0 || !CanSendAlert(log, Severity(DispatchLevel(alerts)), env.now, env.lookupFails)
    ensures env.lookupFails && |alerts| > 0 ==> !out.Skipped?
    ensures out.FormatError? ==> r.remainingAh.None? || r.consumedAh.None?
    ensures out.CalledTransport() ==> r.remainingAh.Some? && r.consumedAh.Some?
    ensures out.CalledTransport() ==> (out.Sent? <==> !env.transportFails)
  {
    if |alerts| == 0 then Skipped
    else if !CanSendAlert(log, Severity(DispatchLevel(alerts)), env.now, env.lookupFails) then Skipped
    else if r.remainingAh.None? || r.consumedAh.None? then FormatError
    else if env.transportFails then TransportError
    else Sent
  }

  /** What `sendChargeCompleteEmail` does, given the log before the call:
      its email uses only required fields, so it never fails to build; it
      returns without sending exactly when the gate is shut (never when the
      lookup failed), and otherwise the transport's answer decides. */
  function ChargeCompleteOutcome(log: seq<AlertRecord>, env: Env): (out: SendOutcome)
    ensures !out.FormatError?
    ensures out.Skipped? <==> !CanSendAlert(log, ChargeComplete, env.now, env.lookupFails)
    ensures env.lookupFails ==> !out.Skipped?
    ensures out.CalledTransport() ==> (out.Sent? <==> !env.transportFails)
  {
    if !CanSendAlert(log, ChargeComplete, env.now, env.lookupFails) then Skipped
    else if env.transportFails then TransportError
    else Sent
  }

  /** `sendAlertEmail`: returns at once for an empty list, consults the gate
      for the highest level present, builds the email, sends it, and logs
      the category only after the transport succeeded. */
  method SendAlertEmail(log: AlertLog, transport: Transport, r: Reading, alerts: seq<Finding>, env: Env)
    returns (out: SendOutcome)
    modifies log, transport
    ensures out == AlertOutcome(old(log.records), r, alerts, env)
    ensures transport.calls == old(transport.calls) + (if out.CalledTransport() then [AlertEmailFor(r, alerts)] else [])
    ensures log.records == old(log.records) +
      (if out.Sent? && !env.logWriteFails then [AlertRecord(Severity(DispatchLevel(alerts)), env.now)] else [])
  {
    if |alerts| == 0 {
      return Skipped;
    }
    var alertType := Severity(DispatchLevel(alerts));
    var canSend := CanSendAlert(log.records, alertType, env.now, env.lookupFails);
    if !canSend {
      return Skipped;
    }
    var mail := GenerateEmailContent(r, alerts);
    if mail.None? {
      return FormatError;
    }
    var ok := transport.SendMail(mail.value, env.transportFails);
    if !ok {
      return TransportError;
    }
    log.LogAlert(alertType, env.now, env.logWriteFails);
    out := Sent;
  }

  /** `sendChargeCompleteEmail`: the same gate, send and log sequence under
      the fixed category 'charge_complete'. */
  method SendChargeCompleteEmail(log: AlertLog, transport: Transport, r: Reading, env: Env)
    returns (out: SendOutcome)
    modifies log, transport
    ensures out == ChargeCompleteOutcome(old(log.records), env)
    ensures transport.calls == old(transport.calls) + (if out.CalledTransport() then [ChargeCompleteEmail(r.device)] else [])
    ensures log.records == old(log.records) +
      (if out.Sent? && !env.logWriteFails then [AlertRecord(ChargeComplete, env.now)] else [])
  {
    var canSend := CanSendAlert(log.records, ChargeComplete, env.now, env.lookupFails);
    if !canSend {
      return Skipped;
    }
    var ok := transport.SendMail(ChargeCompleteEmail(r.device), env.transportFails);
    if !ok {
      return TransportError;
    }
    log.LogAlert(ChargeComplete, env.now, env.logWriteFails);
    out := Sent;
  }

  /** A second dispatch of the same findings inside the cooldown, after a
      successful and logged one, sends nothing. */
  lemma RepeatWithinCooldownSkipped(log: seq<AlertRecord>, r: Reading, alerts: seq<Finding>, first: Env, second: Env)
    requires AlertOutcome(log, r, alerts, first).Sent? && !first.logWriteFails
    requires !second.lookupFails
    requires second.now - first.now < CooldownMs(Severity(DispatchLevel(alerts)))
    ensures AlertOutcome(log + [AlertRecord(Severity(DispatchLevel(alerts)), first.now)], r, alerts, second) == Skipped
  {
  }
}
