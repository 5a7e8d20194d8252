/**
 * Unit conversions and the theoretical suction flow, as the three solvers
 * write them inline.
 */
module Conversions {
  import opened JsNumber

  /** The flow radio button: by speed and displacement ('rpm') or by volumetric flow ('vol'). */
  datatype FlowMode = ByRpm | ByVolume

  /** °C to K. */
  function CelsiusToKelvin(t: Num): Num {
    Add(t, Fin(273.15))
  }

  /** kW to W. */
  function KwToW(x: Num): Num {
    Mul(x, Fin(1000.0))
  }

  /** W to kW. */
  function WToKw(x: Num): Num {
    Div(x, Fin(1000.0))
  }

  /** bar to Pa. */
  function BarToPa(x: Num): Num {
    Mul(x, Fin(100000.0))
  }

  /** m³/s from rev/min and cm³/rev, written `rpm * (disp / 1e6) / 60` (Modes 2 and 3). */
  function SpeedFlow(rpm: Num, displacement: Num): Num {
    Div(Mul(rpm, Div(displacement, Fin(1000000.0))), Fin(60.0))
  }

  /** m³/s from rev/min and cm³/rev, written `(disp / 1e6) * (rpm / 60)` (Mode 1). */
  function SpeedFlowEvaluation(rpm: Num, displacement: Num): Num {
    Mul(Div(displacement, Fin(1000000.0)), Div(rpm, Fin(60.0)))
  }

  /** m³/s from m³/h. */
  function VolumeFlow(flowM3h: Num): Num {
    Div(flowM3h, Fin(3600.0))
  }

  /** The two spellings of the speed formula agree, and both are rpm·disp/6e7. */
  lemma SpeedFlowSpellingsAgree(rpm: real, displacement: real)
    ensures SpeedFlow(Fin(rpm), Fin(displacement)) == SpeedFlowEvaluation(Fin(rpm), Fin(displacement))
    ensures SpeedFlow(Fin(rpm), Fin(displacement)) == Fin(rpm * displacement / 60000000.0)
  {
  }

  /** Speed and displacement give the same flow as the volumetric flow rpm·disp/1e6·60 m³/h. */
  lemma SpeedFlowMatchesVolumeFlow(rpm: real, displacement: real)
    ensures SpeedFlow(Fin(rpm), Fin(displacement)) == VolumeFlow(Fin(rpm * displacement / 1000000.0 * 60.0))
  {
  }

  /** A positive speed and a positive displacement give a positive flow (an infinite field included). */
  lemma SpeedFlowPositive(rpm: Num, displacement: Num)
    requires Lt(Zero, rpm) && Lt(Zero, displacement)
    ensures Lt(Zero, SpeedFlow(rpm, displacement)) && Lt(Zero, SpeedFlowEvaluation(rpm, displacement))
  {
  }
}
