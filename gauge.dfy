/** The circular charge gauge's colour and caption
    (bike-projecto/components/battery-gauge.tsx), both chosen from the
    percentage and the charging flag. */
module Gauge {

  /** The caption under the percentage. */
  datatype Label = Completa | Cargando | Excelente | Buena | Media | Baja | Critica

  /** The arc colour: green hsl(120), teal hsl(160), blue hsl(199), yellow
      hsl(45), orange hsl(25), red hsl(0). */
  datatype Colour = Green | Teal | Blue | Yellow | Orange | Red

  /** `getLabel`. */
  function GetLabel(percentage: real, charging: bool): (l: Label)
    ensures l == Completa <==> charging && percentage >= 99.5
    ensures l == Cargando <==> charging && percentage < 99.5
    ensures l == Excelente <==> !charging && percentage >= 80.0
    ensures l == Buena <==> !charging && 60.0 <= percentage < 80.0
    ensures l == Media <==> !charging && 40.0 <= percentage < 60.0
    ensures l == Baja <==> !charging && 15.0 <= percentage < 40.0
    ensures l == Critica <==> !charging && percentage < 15.0
  {
    if charging && percentage >= 99.5 then Completa
    else if charging then Cargando
    else if percentage >= 80.0 then Excelente
    else if percentage >= 60.0 then Buena
    else if percentage >= 40.0 then Media
    else if percentage >= 15.0 then Baja
    else Critica
  }

  /** `getColor`. */
  function GetColor(percentage: real, charging: bool): (c: Colour)
    ensures charging ==> (c == Green <==> percentage >= 99.5) && (c == Teal <==> percentage < 99.5)
    ensures !charging ==> c != Green && c != Teal
  {
    if charging then
      if percentage >= 99.5 then Green else Teal
    else if percentage >= 60.0 then Blue
    else if percentage >= 40.0 then Yellow
    else if percentage >= 15.0 then Orange
    else Red
  }

  /** The colour each caption is drawn in; Excelente and Buena share one. */
  function LabelColour(l: Label): Colour {
    match l
    case Completa => Green
    case Cargando => Teal
    case Excelente => Blue
    case Buena => Blue
    case Media => Yellow
    case Baja => Orange
    case Critica => Red
  }

  /** Colour and caption are chosen separately, on the same boundaries. */
  lemma ColourFollowsLabel(percentage: real, charging: bool)
    ensures GetColor(percentage, charging) == LabelColour(GetLabel(percentage, charging))
  {
  }

  /** The discharge bands, from the lowest. */
  function LabelBand(l: Label): nat {
    match l
    case Critica => 0
    case Baja => 1
    case Media => 2
    case Buena => 3
    case Excelente => 4
    case Cargando => 5
    case Completa => 6
  }

  function ColourBand(c: Colour): nat {
    match c
    case Red => 0
    case Orange => 1
    case Yellow => 2
    case Blue => 3
    case Teal => 4
    case Green => 5
  }

  /** While discharging, a higher percentage never lowers the caption or
      the colour. */
  lemma DischargeBandsMonotone(p: real, q: real)
    requires p <= q
    ensures LabelBand(GetLabel(p, false)) <= LabelBand(GetLabel(q, false))
    ensures ColourBand(GetColor(p, false)) <= ColourBand(GetColor(q, false))
  {
  }
}
