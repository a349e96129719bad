/** The four stat cards under the gauge (bike-projecto/components/battery-stats.tsx). */
module StatCards {
  import opened Telemetry

  /** The current card's sub-label. */
  datatype CurrentMode = ChargingMode | Discharging | StandBy   // 'Cargando', 'Descargando', 'Stand-by'

  /** The value of the capacity card when the charge figures are missing. */
  datatype CapacityText = CapacityCharging | NotAvailable       // 'Cargando', 'N/A'

  /** One card: its label and what it shows. */
  datatype StatCard =
    | VoltageCard(volts: real)                              // 'Voltaje', sub '10s Li-ion'
    | CurrentCard(amps: real, mode: CurrentMode)            // 'Corriente'
    | RemainingCard(remainingAh: real, consumedAh: real)    // 'Restante', sub '<consumed>Ah usados'
    | CapacityCard(text: CapacityText)                      // 'Capacidad', sub 'En cálculo'
    | CyclesCard(cycles: real, rated: Option<real>)         // 'Ciclos', sub 'de <rated> est.' or 'registrados'

  function Abs(x: real): real {
    if x < 0.0 then -x else x
  }

  /** `BatteryStats`: voltage, current, the charge card and cycles, always
      four cards in that order. The current is shown without its sign. The
      charge card is 'Restante' only when both charge figures are known.
      The rated cycle count is shown only when `maxCycles` is truthy (present
      and non-zero). */
  function BatteryStats(data: Reading): (cards: seq<StatCard>)
    ensures |cards| == 4
    ensures cards[0] == VoltageCard(data.voltage)
    ensures cards[1].CurrentCard? && cards[1].amps >= 0.0
    ensures cards[1].amps == data.current || cards[1].amps == -data.current
    ensures cards[1].mode == ChargingMode <==> data.charging
    ensures cards[1].mode == Discharging <==> !data.charging && data.current > 0.0
    ensures cards[1].mode == StandBy <==> !data.charging && data.current <= 0.0
    ensures cards[2].RemainingCard? <==> data.remainingAh.Some? && data.consumedAh.Some?
    ensures cards[2].RemainingCard? ==>
      cards[2] == RemainingCard(data.remainingAh.value, data.consumedAh.value)
    ensures !cards[2].RemainingCard? ==>
      cards[2] == CapacityCard(if data.charging then CapacityCharging else NotAvailable)
    ensures cards[3].CyclesCard? && cards[3].cycles == data.cycles
    ensures cards[3].rated.Some? <==> data.maxCycles.Some? && data.maxCycles.value != 0.0
    ensures cards[3].rated.Some? ==> cards[3].rated == data.maxCycles
  {
    var mode := if data.charging then ChargingMode else if data.current > 0.0 then Discharging else StandBy;
    var charge :=
      if data.remainingAh.Some? && data.consumedAh.Some? then [RemainingCard(data.remainingAh.value, data.consumedAh.value)]
      else [CapacityCard(if data.charging then CapacityCharging else NotAvailable)];
    var rated := if data.maxCycles.Some? && data.maxCycles.value != 0.0 then data.maxCycles else None;
    [VoltageCard(data.voltage), CurrentCard(Abs(data.current), mode)] + charge + [CyclesCard(data.cycles, rated)]
  }
}
