/** The dashboard's status banner (bike-projecto/components/battery-alert.tsx):
    one banner, or none, chosen by the first rule that matches a reading's
    percent, voltage and charging flag. */
module AlertBanner {
  import opened Telemetry
  import AlertService

  /** What the critical banner's text is about: the voltage when it is
      below 32 V, the remaining charge otherwise. */
  datatype CriticalCause = LowVoltage | LowCharge

  /** The banners, in the order the component tries them. */
  datatype Banner =
    | ChargeComplete           // '¡Carga Completa!'
    | Critical(cause: CriticalCause)  // '¡CRÍTICO! Batería Extremadamente Baja'
    | LowBattery               // 'Batería Baja'
    | PlanRecharge             // 'Planifica una Recarga'
    | Overvoltage              // '¡PELIGRO! Sobrevoltaje Detectado'
    | Charging                 // 'Cargando'
    | Optimal                  // 'Estado Óptimo'

  /** `BatteryAlert`: `None` is the component rendering nothing. Each
      banner is characterised on its own, so exactly one of the conditions
      below (or the no-banner one) holds for every reading. */
  function BatteryAlert(data: Reading): (b: Option<Banner>)
    ensures b == Some(ChargeComplete) <==> data.percent >= 99.5 && data.charging
    ensures (b.Some? && b.value.Critical?) <==> !data.charging && (data.percent < 15.0 || data.voltage < 32.0)
    ensures b.Some? && b.value.Critical? ==> (b.value.cause == LowVoltage <==> data.voltage < 32.0)
    ensures b == Some(LowBattery) <==>
      !data.charging && data.voltage >= 32.0 && 15.0 <= data.percent < 25.0
    ensures b == Some(PlanRecharge) <==>
      !data.charging && data.voltage >= 32.0 && 25.0 <= data.percent < 40.0
    ensures b == Some(Overvoltage) <==>
      (data.charging && data.percent < 99.5 && data.voltage > 42.5) ||
      (!data.charging && data.percent >= 40.0 && data.voltage > 42.0)
    ensures b == Some(Charging) <==> data.charging && data.percent < 99.0 && data.voltage <= 42.5
    ensures b == Some(Optimal) <==>
      !data.charging && data.percent >= 60.0 && 32.0 <= data.voltage <= 42.0
    ensures b.None? <==>
      (data.charging && 99.0 <= data.percent < 99.5 && data.voltage <= 42.5) ||
      (!data.charging && 40.0 <= data.percent < 60.0 && 32.0 <= data.voltage <= 42.0)
  {
    var percent, charging, voltage := data.percent, data.charging, data.voltage;
    if percent >= 99.5 && charging then Some(ChargeComplete)
    else if (percent < 15.0 || voltage < 32.0) && !charging then
      Some(Critical(if voltage < 32.0 then LowVoltage else LowCharge))
    else if percent < 25.0 && !charging then Some(LowBattery)
    else if percent < 40.0 && !charging then Some(PlanRecharge)
    else if voltage > 42.5 || (voltage > 42.0 && !charging) then Some(Overvoltage)
    else if charging && percent < 99.0 then Some(Charging)
    else if percent >= 60.0 && !charging then Some(Optimal)
    else None
  }

  /** The dashboard and the API agree on what is critical: the critical
      banner shows exactly when the alert service finds a CRÍTICO
      low-voltage or low-charge condition. */
  lemma CriticalBannerAgreesWithService(data: Reading)
    ensures (BatteryAlert(data).Some? && BatteryAlert(data).value.Critical?) <==>
      (AlertService.Finding(AlertService.Critico, AlertService.VoltageCriticallyLow) in AlertService.Findings(data) ||
       AlertService.Finding(AlertService.Critico, AlertService.BatteryNearlyEmpty) in AlertService.Findings(data))
  {
  }

  /** The banner's overvoltage threshold while discharging is the service's
      (42 V), but the service also reports overvoltage at 42–42.5 V on the
      charger, where the banner shows none. */
  lemma OvervoltageThresholds(data: Reading)
    ensures !data.charging && data.percent >= 40.0 ==>
      (BatteryAlert(data) == Some(Overvoltage) <==>
       AlertService.Finding(AlertService.Critico, AlertService.Overvoltage) in AlertService.Findings(data))
    ensures data.charging && data.percent < 99.0 && 42.0 < data.voltage <= 42.5 ==>
      BatteryAlert(data) == Some(Charging) &&
      AlertService.Finding(AlertService.Critico, AlertService.Overvoltage) in AlertService.Findings(data)
  {
  }
}
