# Bike Projecto battery alerts, modelled in Dafny

Bike Projecto monitors an e-bike's 10s lithium battery. A device posts a reading
(voltage, current, percent, charge figures, cycle counts, charging flag) to an
Express API. The API stores the reading in MongoDB. It emails the owner once when
a charge completes, and it evaluates a discharging reading against fixed
thresholds. CRÍTICO and URGENTE findings trigger an alert email, subject to a
per-category cooldown kept in an AlertLog collection. A Next.js dashboard polls
the newest reading and renders a gauge, four stat cards and a status banner.

The project models:

- **the alert service** (`alert_service.dfy`, module `AlertService`):
  - the threshold evaluator, an imperative method proved equal to a rule-table
    specification;
  - the cooldown gate over the AlertLog collection, which is a class the
    dispatchers append to;
  - the choice of dispatch category and subject;
  - the email content;
  - the two dispatchers, working on a mail-transport object.
- **the API** (`api.dfy`, module `Api`): a `BatteryApi` class whose
  `store` field is the BikeData collection. It has the POST handler and the
  latest-reading endpoint. The handler is specified by a function
  (`PostEffect`) over the collections' contents before the request.
- **the API's own scripts** (`scenarios.dfy`): the charge-completion and
  throttling sequences, replayed against a fresh `BatteryApi`.
- **the dashboard**:
  - the banner (`banner.dfy`);
  - the gauge's caption and colour (`gauge.dfy`);
  - the stat cards (`stat_cards.dfy`);
  - the data hook, a class with three state cells (`data_hook.dfy`);
  - the page's choice of view (`home_page.dfy`).

Shared conventions (`telemetry.dfy`):

- JavaScript numbers are `real`.
- A schema field that is not required is an `Option`.
- The clock and the failures of foreign calls (a Mongo query, the AlertLog
  lookup, `sendMail`, the AlertLog write) come in through an `Env` value.
  Nothing reads a clock or performs I/O.
- JavaScript's division by zero and by `undefined` is modelled explicitly
  (`JsNumber`) where the end-of-life rule depends on it.

Behaviour of the source worth knowing, which the model reproduces:

- A reading without `remainingAh` or `consumedAh` breaks the alert path. The
  email body calls `toFixed` on both, so building the email throws before
  `sendMail`. The handler catches it: nothing is sent or logged, and
  `emailSent` is false (`GenerateEmailContent`, `AlertService.AlertOutcome`,
  `Api.MissingChargeFiguresSendNothing`).
- A dispatch that the cooldown holds back returns `null` without throwing, so
  the response reports `emailSent: true`. api/test-throttling.js expects `false`
  on its second and third attempts. The model proves what the code does:
  exactly one email reaches the transport, and all three flags are true
  (`Scenarios.Throttling`, `Api.SuppressedAlertReportsSent`).
- A body missing a required field makes `save()` throw, and the handler answers
  500 rather than a client error.
- With `maxCycles` equal to 0 and `cycles` positive, `(cycles / 0) * 100` is
  +Infinity, so the end-of-life finding is emitted (`NearEndOfLifeCases`).

## Model

| member | source | states |
|---|---|---|
| AlertService.CriticalCooldownBoundary | api/services/alertService.js:5-34 | with a CRÍTICO record at t0, the gate is shut one second before t0 + 2 h and open at t0 + 2 h |
| AlertService.CooldownHours | api/services/alertService.js:5-10 | the `ALERT_COOLDOWN` lookup with its fallback of 6 hours: between 2 and 24 hours, 6 for a key outside the table, 24 exactly for 'charge_complete', at most 12 for a level |
| AlertService.CooldownBySeverity | api/services/alertService.js:5-10 | a more severe level has a strictly shorter cooldown (CRÍTICO < URGENTE < ADVERTENCIA) |
| AlertService.CooldownMs | api/services/alertService.js:24-25 | the cooldown in milliseconds is a whole number of hours, the table's hours, between 2 h and 24 h |
| AlertService.LastSent | api/services/alertService.js:27 | the newest `lastSent` of a category: none iff the log has no record of it; otherwise it belongs to such a record and no record of the category is later |
| AlertService.CanSendAlert | api/services/alertService.js:22-38 | the gate is open iff the lookup fails (fail open) or every record of the category is at least its cooldown old, the boundary included; cooldowns are 2/4/12/24 h, and 6 h for any other key |
| AlertService.AlertLog.constructor | api/models/alertLog.js:3-7 | the AlertLog collection starts empty |
| AlertService.AlertLog.LogAlert | api/services/alertService.js:42-51 | appends one record stamped `now`; a failed write is swallowed and appends nothing |
| AlertService.GateCategoriesIndependent | api/services/alertService.js:22-34 | a record of another category never changes the gate's answer for this one |
| AlertService.CooldownBoundary | api/services/alertService.js:33-34 | once a record at `sent` is the newest of its category, the gate opens iff `now >= sent + cooldown` |
| AlertService.RuleAt | api/services/alertService.js:54-135 | the rule table: each position holds the one rule with that index |
| AlertService.Fires | api/services/alertService.js:58-126 | the rule conditions: while charging only overvoltage and end-of-life can fire; the else-if chains confine the second voltage rule to 32–34 V and the second percent rule to 15–25 %; the capacity rule needs `remainingAh` |
| AlertService.FindingsUpToSpec | api/services/alertService.js:54-135 | the first n rules contribute exactly the firing ones, each at its rule's level, in strictly increasing rule order |
| AlertService.Findings | api/services/alertService.js:54-135 | the evaluator's specification: a finding is present iff its rule fires, at that rule's level, with findings in rule order (so no rule twice) |
| AlertService.FindingsInTableOrder | api/services/alertService.js:54-135 | the findings are the rules' contributions concatenated in table order: voltage, percent, overvoltage, current, remaining capacity, cycles |
| AlertService.NearEndOfLifeCases | api/services/alertService.js:125-126 | the end-of-life rule never fires without `maxCycles`; with a zero `maxCycles` it fires iff `cycles > 0`; otherwise it fires iff `cycles / maxCycles > 0.9` |
| AlertService.AnalyzeBatteryStatus | api/services/alertService.js:54-136 | the method that pushes findings group by group returns exactly `Findings(r)` |
| AlertService.LowGroupsExclusive | api/services/alertService.js:58-92 | the two low-voltage findings never occur together, nor the two low-percent ones; the critical one of each appears whenever its condition holds |
| AlertService.ChargingFindings | api/services/alertService.js:95-102 | while charging, only the overvoltage and end-of-life rules can fire, and overvoltage appears iff voltage > 42 |
| AlertService.HasLevel | api/services/alertService.js:211-212 | `some`: true iff some finding of the list has the level |
| AlertService.CountLevel | api/services/alertService.js:142-143 | the `filter(..).length` count never exceeds the list, and equals it iff every finding has the level |
| AlertService.CountLevelPositive | api/services/alertService.js:142-143 | the filtered count of a level is positive iff some finding has that level |
| AlertService.DispatchLevel | api/services/alertService.js:211-217 | for a non-empty list the category is a level that occurs, and no finding ranks above it |
| AlertService.SubjectPrefix | api/services/alertService.js:142-147 | the subject's prefix is CRÍTICO iff a critical finding is present, URGENTE iff an urgent but no critical one is, and none iff every finding is ADVERTENCIA |
| AlertService.SubjectAgreesWithDispatchLevel | api/services/alertService.js:142-217 | the subject prefix (computed from counts) always names the dispatch category (computed from `some`) |
| AlertService.GenerateEmailContent | api/services/alertService.js:139-204 | no email iff `remainingAh` or `consumedAh` is absent (the template throws); otherwise the subject prefix, the bike's name, and one entry per finding in order with its level's colour |
| AlertService.Transport.SendMail | api/services/alertService.js:235-236 | every call reaches the transport and is recorded; the outcome is the environment's |
| AlertService.AlertOutcome | api/services/alertService.js:207-247 | `sendAlertEmail` returns null without sending iff the list is empty or the gate is shut (never when the lookup failed); it throws on building the email only without a charge figure, reaches the transport only with both, and the transport's answer decides between sent and rejected |
| AlertService.ChargeCompleteOutcome | api/services/alertService.js:250-316 | `sendChargeCompleteEmail` never fails to build its email; it returns null iff the 'charge_complete' gate is shut (never when the lookup failed), and otherwise the transport's answer decides |
| AlertService.SendAlertEmail | api/services/alertService.js:207-247 | an empty list or a shut gate sends nothing; otherwise the email goes to the transport, and a record of the highest level is logged only after a successful send |
| AlertService.SendChargeCompleteEmail | api/services/alertService.js:250-316 | the same gate, send and log-after-success under the category 'charge_complete' |
| AlertService.RepeatWithinCooldownSkipped | api/services/alertService.js:207-247 | after a logged send, the same findings dispatched again within the cooldown are skipped |
| Api.Validate | api/models/bikeData.js:3-16 | a body is stored iff device (non-empty), voltage, current, percent, cycles and charging are present; the stored document keeps every given field and the server's receive time |
| Api.ValidateRoundTrip | api/models/bikeData.js:3-16 | a stored reading posted back as its own body validates to itself |
| Api.Latest | api/index.js:51 | the newest reading: none iff the store is empty, otherwise a stored reading with no later timestamp |
| Api.LatestOfAppend | api/index.js:51-68 | with a clock that does not run backwards, the reading just saved is the next request's previous reading |
| Api.ChargeCompleteEdge | api/index.js:73-75 | the charge-complete detector: charging at 99.5 % or more, with the previous reading below 99.5 % (so the percentage rose across the threshold) or no previous reading at all |
| Api.PostEffect | api/index.js:34-124 | a failed query or a rejected body answers 500 and changes nothing; otherwise exactly the validated reading is stored, a charging reading gets the charging answer, at most one email is attempted and a log record only follows an attempted email |
| Api.BatteryApi.PostBattery | api/index.js:34-124 | the handler's response, and what it appends to the store, the transport and the AlertLog, are those of `PostEffect` on the state before the request |
| Api.BatteryApi.GetLatest | api/index.js:127-139 | 500 iff the query fails, 404 iff the store is empty, otherwise a stored reading with the greatest timestamp |
| Api.ChargeEmailOnlyOnEdge | api/index.js:73-86 | for a charging reading an email is attempted iff it is the first at 99.5 % or more (no previous reading, or the previous one below 99.5 %, whatever its device or charging flag) and the gate is open; that email is the charge-complete one; `emailSent` is true iff on that edge the dispatcher does not throw |
| Api.NoRepeatChargeEmail | api/index.js:73-86 | after a reading at 99.5 % or more, a charging reading sends nothing and reports no email |
| Api.WarningsAloneSendNothing | api/index.js:89-111 | a discharging reading with only ADVERTENCIA findings, or none, reaches neither the transport nor the log and reports no email |
| Api.SuppressedAlertReportsSent | api/index.js:93-102 | a CRÍTICO or URGENTE dispatch held back by the cooldown sends and logs nothing, yet reports `emailSent: true` |
| Api.AlertEmailCarriesFindings | api/index.js:89-104 | an alert email for a discharging reading implies a CRÍTICO or URGENTE finding, carries all findings, and its subject names the highest level |
| Api.DischargingResponse | api/index.js:89-111 | a discharging reading gets 201 with `alerts` present iff there are findings, equal to the evaluator's list; `emailSent` is true iff there is a CRÍTICO or URGENTE finding and the dispatcher does not throw |
| Api.MissingChargeFiguresSendNothing | api/index.js:93-102 | a CRÍTICO or URGENTE dispatch through an open gate for a reading without `remainingAh` or `consumedAh` reaches neither the transport nor the log and reports `emailSent: false` |
| Api.TransportFailureKeepsReading | api/index.js:96-111 | with a failing transport the reading stays stored, the answer is 201, nothing is logged, and a transport attempt reports no email |
| Scenarios.CriticalFindings | api/test-throttling.js:14-26 | the throttling body yields CRÍTICO low voltage, CRÍTICO low charge and URGENTE low capacity, in that order |
| Scenarios.ChargingEffect | api/index.js:73-120 | a charging body stores its reading; the answer reports an email exactly on the edge, and the email is delivered and logged only when the gate is open too |
| Scenarios.PostCharging | api/test-charge-complete.js:50-59 | one step of the charge script: the new reading becomes the latest, the flag is the edge, and transport and log grow only on a delivered email |
| Scenarios.ChargeSequence | api/test-charge-complete.js:39-63 | 70, 80, 90, 95, 98, 100, 100, 100 % on a fresh server: only the sixth response reports an email, and exactly one charge-complete email reaches the transport |
| Scenarios.PostCritical | api/test-throttling.js:8-26 | one post of the critical body always reports an email; the transport and the log receive one iff the CRÍTICO gate is open |
| Scenarios.Throttling | api/test-throttling.js:49-62 | three posts three seconds apart: all flags true, exactly one CRÍTICO alert email sent, exactly one log record |
| AlertBanner.BatteryAlert | bike-projecto/components/battery-alert.tsx:11-113 | each banner, and the absence of one, is characterised by its own condition on percent, voltage and charging, so exactly one applies; the critical banner's text is about voltage iff voltage < 32 |
| AlertBanner.CriticalBannerAgreesWithService | bike-projecto/components/battery-alert.tsx:28 | the critical banner shows iff the alert service finds CRÍTICO low voltage or CRÍTICO low charge |
| AlertBanner.OvervoltageThresholds | bike-projecto/components/battery-alert.tsx:73 | discharging at 40 % or more, the overvoltage banner shows iff the service reports overvoltage; on the charger at 42–42.5 V the service reports it while the banner shows "Cargando" |
| Gauge.GetLabel | bike-projecto/components/battery-gauge.tsx:57-65 | "Completa" iff charging at 99.5 % or more, "Cargando" for any other charging state, and otherwise the bands 80/60/40/15 |
| Gauge.GetColor | bike-projecto/components/battery-gauge.tsx:43-55 | while charging, green iff at 99.5 % or more and teal otherwise; the charging colours are never used while discharging |
| Gauge.ColourFollowsLabel | bike-projecto/components/battery-gauge.tsx:43-65 | the colour, chosen separately, always matches the caption: Excelente and Buena share blue |
| Gauge.DischargeBandsMonotone | bike-projecto/components/battery-gauge.tsx:51-64 | while discharging, a higher percentage never gives a lower caption or colour band |
| StatCards.BatteryStats | bike-projecto/components/battery-stats.tsx:10-41 | four cards in order: voltage; the current without its sign, labelled Cargando, Descargando or Stand-by; 'Restante' iff both charge figures are present, otherwise 'Capacidad' showing Cargando or N/A; cycles with the rated count iff `maxCycles` is present and non-zero |
| DataHook.BatteryDataHook.constructor | bike-projecto/hooks/use-battery-data.ts:12-14 | no data, loading, no error |
| DataHook.BatteryDataHook.FetchData | bike-projecto/hooks/use-battery-data.ts:16-55 | loading always ends; 404 clears data and error; another bad status, a bad body or a thrown value records its message and keeps the data; a usable body replaces the data and clears the error; an OK body without data clears the data and keeps the error |
| HomePage.Home | bike-projecto/app/page.tsx:10-36 | frame and darkener always come first; then loading wins, then a truthy error, then no data, and otherwise the reading with the project section |
| HomePage.Refresh | bike-projecto/app/page.tsx:11-34 | one fetch from the API then render: an empty store shows the empty view, a non-empty one the newest stored reading, and a failing store the 500 error view with the earlier data kept |

## Left out

- The HTML and text of both emails (details, actions, status table, date), the subject's emoji and name text, and `toFixed`/`toLocaleString` formatting. The model keeps the subject prefix, the bike's name, and each entry's level, issue and colour.
- nodemailer configuration, the MongoDB connection, schema casting, and Express routing, CORS, `/health` and `listen`. Queries and writes are the `store` and `records` sequences; their failures are `Env` flags.
- The clock: one `now` per request stands for `new Date()` at save, `Date.now()` in the gate and `new Date()` in the log write, which the source reads separately.
- Api.Latest: MongoDB leaves the order of equal timestamps unspecified; the model takes the later stored reading.
- The AlertLog `count` field, which is never read.
- Concurrent requests racing the gate's check-then-log. The model is sequential.
- JavaScript coercion of an untyped body (string numbers, `null` fields, a non-boolean `charging`). Fields are present with their schema type, or absent.
- The gauge's animation, SVG geometry and ticks; the frame's and darkener's scroll effects; the static hero, project and state sections. The page model records which sections render and with what data.
- The hook's polling timer, the choice of endpoint URL and `refetch`. `FetchData` takes the outcome of one fetch.
- DataHook.ErrorText: the `Error: <status>` text is kept as the status number, not as a string.
- api/test-alerts.js is not part of this model.
