/**
 * Mode 1: performance evaluation of an oil-injected compressor from a test
 * point (js/mode1_oil_eval.js). From the measured capacity, power, saturation
 * temperatures, superheat, subcooling and discharge temperature, the solver
 * back-calculates the mass flow and the volumetric efficiency and splits the
 * shaft power into the heat the gas takes and the heat the oil takes. The
 * cached result can seed the Mode 2 form.
 */
module EvaluationMode {
  import opened Results
  import opened JsNumber
  import opened Props
  import opened Conversions
  import opened Efficiency
  import Refrigeration = RefrigerationMode

  /** The power radio button: the entered power is shaft power or motor input power. */
  datatype PowerMode = ShaftPower | InputPower

  /** The capacity radio button: the entered capacity is the refrigerating or the heating capacity. */
  datatype CapacityMode = Refrigerating | Heating

  /**
   * The form fields read by `calculateMode1`, as `parseFloat` returns them;
   * capacity and power in kW, temperatures in °C, superheat and subcooling in K.
   * Speed and displacement are read only in the speed flow mode, the flow only
   * in the volume flow mode.
   */
  datatype Inputs = Inputs(
    fluid: string,
    flowMode: FlowMode,
    powerMode: PowerMode,
    capacityMode: CapacityMode,
    rpm: Field,
    capacity: Field,
    power: Field,
    motorEff: Field,
    te: Field,
    tc: Field,
    superheat: Field,
    subcooling: Field,
    t2a: Field,
    displacement: Field,
    flowM3h: Field)

  /** The errors `calculateMode1` throws, one per throw site. */
  datatype Error =
    | InvalidNumber
    | MissingRpm
    | MissingMotorEfficiency
    | NonPositiveQe(qe: Num)
    | InvalidDisplacement
    | NonPositiveRpm
    | InvalidFlow
    | NonPositiveFlow
    | LookupFailed(q: Query)
    | NonPositiveEvaporatorEnthalpy

  function Fetch(props: PropsSI, q: Query): (r: Result<Num, Error>)
    ensures r.Ok? <==> props(q).Some?
    ensures r.Ok? ==> r.value == props(q).value
    ensures r.Err? ==> r.error == LookupFailed(q)
  {
    match props(q)
    case Some(x) => Ok(x)
    case None => Err(LookupFailed(q))
  }

  /** `rpm_val`: the speed field in the speed flow mode, NaN otherwise. */
  function RpmValue(inp: Inputs): Num {
    if inp.flowMode == ByRpm then inp.rpm else NaN
  }

  /** The three up-front checks, in the order the source makes them. */
  function Validate(inp: Inputs): Result<(), Error> {
    if inp.capacity.NaN? || inp.power.NaN? || inp.te.NaN? || inp.tc.NaN?
       || inp.superheat.NaN? || inp.subcooling.NaN? || inp.t2a.NaN? then Err(InvalidNumber)
    else if inp.flowMode == ByRpm && RpmValue(inp).NaN? then Err(MissingRpm)
    else if inp.powerMode == InputPower && inp.motorEff.NaN? then Err(MissingMotorEfficiency)
    else Ok(())
  }

  /** Shaft power, motor input power (NaN when not entered) and both capacities, in W. */
  datatype Duty = Duty(wShaft: Num, wInput: Num, qe: Num, qh: Num)

  /**
   * The power and capacity tags: the entered power is the shaft power, or the
   * input power times the motor efficiency; the entered capacity is Qe or Qh
   * and the other one differs from it by the shaft power. Qe must be positive.
   */
  function PowerAndCapacity(inp: Inputs): Result<Duty, Error> {
    var qW := KwToW(inp.capacity);
    var winW := KwToW(inp.power);
    var wShaft := if inp.powerMode == ShaftPower then winW else Mul(winW, inp.motorEff);
    var wInput := if inp.powerMode == ShaftPower then NaN else winW;
    var qe := if inp.capacityMode == Refrigerating then qW else Sub(qW, wShaft);
    var qh := if inp.capacityMode == Refrigerating then Add(qe, wShaft) else qW;
    if Le(qe, Zero) then Err(NonPositiveQe(qe))
    else Ok(Duty(wShaft, wInput, qe, qh))
  }

  /** Theoretical flow in m³/s and m³/h, and the displacement (NaN in the volume flow mode). */
  datatype Flow = Flow(vTh: Num, vThM3h: Num, vRev: Num)

  /**
   * The displacement must be a number and the speed positive; the flow must
   * be a number; and the resulting flow must be positive.
   */
  function TheoreticalFlow(inp: Inputs): Result<Flow, Error> {
    var flow :-
      match inp.flowMode
      case ByRpm =>
        if inp.displacement.NaN? then Err(InvalidDisplacement)
        else if Le(RpmValue(inp), Zero) then Err(NonPositiveRpm)
        else
          var vTh := SpeedFlowEvaluation(RpmValue(inp), inp.displacement);
          Ok(Flow(vTh, Mul(vTh, Fin(3600.0)), inp.displacement))
      case ByVolume =>
        if inp.flowM3h.NaN? then Err(InvalidFlow)
        else Ok(Flow(VolumeFlow(inp.flowM3h), inp.flowM3h, NaN));
    if Le(flow.vTh, Zero) then Err(NonPositiveFlow) else Ok(flow)
  }

  /** Saturation pressure at a temperature in K and a quality. */
  function SaturationPressureAt(t: Num, quality: real, fluid: string): Query {
    Query(P, T, t, Q, Fin(quality), fluid)
  }

  /** States 1, 3 and 4 of the cycle (temperatures in K, pressures in Pa). */
  datatype States = States(
    pe: Num, t1: Num, h1: Num, rho1: Num, v1: Num,
    pc: Num, t3: Num, h3: Num, h4: Num)

  /** Pe is the dew pressure (quality 1), Pc the bubble pressure (quality 0). */
  function StatePoints(inp: Inputs, props: PropsSI): Result<States, Error> {
    var teK := CelsiusToKelvin(inp.te);
    var tcK := CelsiusToKelvin(inp.tc);
    var pe :- Fetch(props, SaturationPressureAt(teK, 1.0, inp.fluid));
    var t1 := Add(teK, inp.superheat);
    var h1 :- Fetch(props, EnthalpyAt(t1, pe, inp.fluid));
    var rho1 :- Fetch(props, Query(D, T, t1, P, pe, inp.fluid));
    var pc :- Fetch(props, SaturationPressureAt(tcK, 0.0, inp.fluid));
    var t3 := Sub(tcK, inp.subcooling);
    var h3 :- Fetch(props, EnthalpyAt(t3, pc, inp.fluid));
    Ok(States(pe, t1, h1, rho1, Div(Fin(1.0), rho1), pc, t3, h3, h3))
  }

  /** Why the oil/gas heat split is not available. */
  datatype Unavailability = ZeroMassFlow | DischargeLookupFailed(q: Query)

  /** The oil/gas heat split in kW, or why it is missing from the report. */
  datatype OilSplit =
    | Split(h2a: Num, qGas: Num, qOil: Num)
    | Unavailable(reason: Unavailability)

  /**
   * The heat balance of the oil-injected compressor: the gas takes
   * m·(h2a − h1), h2a at the measured discharge temperature and Pc, and the
   * oil takes the rest of the shaft power. A failure here does not abort.
   * The split is missing exactly when m ≤ 0 or the h2a lookup fails; a split
   * has Q_gas + Q_oil = W_shaft (kW, finite values), and Q_oil's sign is not
   * checked.
   */
  function OilHeatSplit(inp: Inputs, props: PropsSI, st: States, mDot: Num, wShaftKw: Num): (s: OilSplit)
    ensures var q := EnthalpyAt(CelsiusToKelvin(inp.t2a), st.pc, inp.fluid);
      && (s == Unavailable(ZeroMassFlow) <==> Le(mDot, Zero))
      && (s == Unavailable(DischargeLookupFailed(q)) <==> !Le(mDot, Zero) && props(q).None?)
      && (s.Split? <==> !Le(mDot, Zero) && props(q).Some?)
      && (s.Split? ==> props(q) == Some(s.h2a))
      && (s.Split? && mDot.Fin? && st.h1.Fin? && s.h2a.Fin? && wShaftKw.Fin? ==>
            && s.qGas == Fin(mDot.v * (s.h2a.v - st.h1.v) / 1000.0)
            && s.qOil.Fin? && s.qGas.v + s.qOil.v == wShaftKw.v)
  {
    if Le(mDot, Zero) then Unavailable(ZeroMassFlow)
    else
      var q := EnthalpyAt(CelsiusToKelvin(inp.t2a), st.pc, inp.fluid);
      match props(q)
      case None => Unavailable(DischargeLookupFailed(q))
      case Some(h2a) =>
        var qGas := Div(Mul(mDot, Sub(h2a, st.h1)), Fin(1000.0));
        Split(h2a, qGas, Sub(wShaftKw, qGas))
  }

  /** Everything `calculateMode1` reports. */
  datatype Evaluation = Evaluation(
    duty: Duty, flow: Flow, states: States,
    mDot: Num, vAct: Num, etaV: Num,
    oil: OilSplit)

  /** `calculateMode1` without the DOM: the evaluation, or the error it throws. */
  function Solve(inp: Inputs, props: PropsSI): (r: Result<Evaluation, Error>)
    ensures r.Ok? ==> Validate(inp) == Ok(())
    ensures r.Ok? ==> r.value.duty.qe.Fin? && r.value.duty.qe.v > 0.0 && r.value.flow.vTh.Fin? && r.value.flow.vTh.v > 0.0
    ensures r.Err? && r.error.LookupFailed? ==> props(r.error.q).None?
  {
    var _ :- Validate(inp);
    var duty :- PowerAndCapacity(inp);
    var flow :- TheoreticalFlow(inp);
    CapacityPositive(inp, duty);
    FlowPositive(inp, flow);
    var st :- StatePoints(inp, props);
    var hEvap := Sub(st.h1, st.h4);
    if Le(hEvap, Zero) then Err(NonPositiveEvaporatorEnthalpy)
    else
      var mDot := Div(duty.qe, hEvap);
      var vAct := Mul(mDot, st.v1);
      var etaV := Div(vAct, flow.vTh);
      Ok(Evaluation(duty, flow, st, mDot, vAct, etaV, OilHeatSplit(inp, props, st, mDot, WToKw(duty.wShaft))))
  }

  // ---------------------------------------------------------------------------
  // Properties of the solver

  /**
   * The solve rejects, in this order: a NaN capacity, power, Te, Tc,
   * superheat, subcooling or discharge temperature; a NaN speed in the speed
   * flow mode; a NaN motor efficiency in the input power mode.
   */
  lemma RejectionOrder(inp: Inputs, props: PropsSI)
    ensures (inp.capacity.NaN? || inp.power.NaN? || inp.te.NaN? || inp.tc.NaN?
             || inp.superheat.NaN? || inp.subcooling.NaN? || inp.t2a.NaN?) ==>
      Solve(inp, props) == Err(InvalidNumber)
    ensures (Validate(inp) != Err(InvalidNumber) && inp.flowMode == ByRpm && inp.rpm.NaN?) ==>
      Solve(inp, props) == Err(MissingRpm)
    ensures (Validate(inp) != Err(InvalidNumber) && (inp.flowMode == ByVolume || !inp.rpm.NaN?)
             && inp.powerMode == InputPower && inp.motorEff.NaN?) ==>
      Solve(inp, props) == Err(MissingMotorEfficiency)
    ensures Solve(inp, props).Ok? ==> Validate(inp) == Ok(())
  {
  }

  /**
   * Shaft power is the entered power (shaft mode) or the entered power times
   * the motor efficiency (input mode); in both capacity modes Qh = Qe + W_shaft;
   * and the stage fails exactly when Qe ≤ 0.
   */
  lemma PowerAndCapacityMeaning(inp: Inputs)
    requires Validate(inp) == Ok(())
    ensures var wShaft := if inp.powerMode == ShaftPower then inp.power.v * 1000.0
                          else inp.power.v * 1000.0 * inp.motorEff.v;
      var qe := if inp.capacityMode == Refrigerating then inp.capacity.v * 1000.0
                else inp.capacity.v * 1000.0 - wShaft;
      && (PowerAndCapacity(inp).Err? <==> qe <= 0.0)
      && (PowerAndCapacity(inp).Ok? ==>
            var d := PowerAndCapacity(inp).value;
            && d.wShaft == Fin(wShaft) && d.qe == Fin(qe)
            && d.qh.Fin? && d.qh.v == d.qe.v + d.wShaft.v
            && (inp.powerMode == ShaftPower ==> d.wInput.NaN?)
            && (inp.powerMode == InputPower ==> d.wInput == Fin(inp.power.v * 1000.0)))
  {
  }

  /**
   * The flow stage: in the speed mode V_th = (disp/1e6)·(rpm/60) with the
   * m³/h figure V_th·3600, and a speed ≤ 0 is rejected; in the volume mode
   * V_th = flow/3600; and V_th is positive whenever the stage succeeds after
   * the up-front checks (which are what keep a NaN speed out of it).
   */
  lemma FlowMeaning(inp: Inputs)
    requires Validate(inp) == Ok(())
    ensures TheoreticalFlow(inp).Ok? ==>
      var f := TheoreticalFlow(inp).value;
      && f.vTh.Fin? && f.vTh.v > 0.0
      && (inp.flowMode == ByRpm ==>
            && f.vTh == Fin(inp.displacement.v / 1000000.0 * (inp.rpm.v / 60.0))
            && f.vThM3h == Fin(f.vTh.v * 3600.0) && f.vRev == inp.displacement)
      && (inp.flowMode == ByVolume ==> f.vTh == Fin(inp.flowM3h.v / 3600.0) && f.vThM3h == inp.flowM3h && f.vRev.NaN?)
    ensures inp.flowMode == ByRpm && !inp.displacement.NaN? && Le(inp.rpm, Zero) ==>
      TheoreticalFlow(inp) == Err(NonPositiveRpm)
  {
    if TheoreticalFlow(inp).Ok? {
      var f := TheoreticalFlow(inp).value;
      if inp.flowMode == ByRpm {
        assert f.vTh == Fin(inp.displacement.v / 1000000.0 * (inp.rpm.v / 60.0));
      } else {
        assert f.vTh == Fin(inp.flowM3h.v / 3600.0);
      }
    }
  }

  /**
   * The arithmetic that ties an evaluation together: the stages succeeded,
   * h1 − h4 > 0, m = Qe/(h1 − h4), v1 = 1/ρ1, V_act = m·v1 and
   * η_v = V_act/V_th; the oil split is taken at the shaft power in kW.
   */
  ghost predicate Layout(inp: Inputs, r: Evaluation) {
    && Validate(inp) == Ok(())
    && PowerAndCapacity(inp) == Ok(r.duty)
    && TheoreticalFlow(inp) == Ok(r.flow)
    && r.states.h4 == r.states.h3
    && r.states.v1 == Div(Fin(1.0), r.states.rho1)
    && !Le(Sub(r.states.h1, r.states.h4), Zero)
    && r.mDot == Div(r.duty.qe, Sub(r.states.h1, r.states.h4))
    && r.vAct == Mul(r.mDot, r.states.v1)
    && r.etaV == Div(r.vAct, r.flow.vTh)
  }

  /** Every evaluation the solver returns is laid out as `Layout` says. */
  lemma SolveLayout(inp: Inputs, props: PropsSI)
    requires Solve(inp, props).Ok?
    ensures Layout(inp, Solve(inp, props).value)
  {
  }

  /**
   * The lookups behind an evaluation: Pe at quality 1, h1 and ρ1 at
   * (Te + 273.15 + superheat, Pe), Pc at quality 0, h3 at (Tc + 273.15 −
   * subcooling, Pc); and the oil split as `OilHeatSplit` decides it.
   */
  ghost predicate Lookups(inp: Inputs, props: PropsSI, r: Evaluation) {
    var st := r.states;
    && props(SaturationPressureAt(CelsiusToKelvin(inp.te), 1.0, inp.fluid)) == Some(st.pe)
    && st.t1 == Add(CelsiusToKelvin(inp.te), inp.superheat)
    && props(EnthalpyAt(st.t1, st.pe, inp.fluid)) == Some(st.h1)
    && props(Query(D, T, st.t1, P, st.pe, inp.fluid)) == Some(st.rho1)
    && props(SaturationPressureAt(CelsiusToKelvin(inp.tc), 0.0, inp.fluid)) == Some(st.pc)
    && st.t3 == Sub(CelsiusToKelvin(inp.tc), inp.subcooling)
    && props(EnthalpyAt(st.t3, st.pc, inp.fluid)) == Some(st.h3)
    && r.oil == OilHeatSplit(inp, props, st, r.mDot, WToKw(r.duty.wShaft))
  }

  lemma SolveLookups(inp: Inputs, props: PropsSI)
    requires Solve(inp, props).Ok?
    ensures Lookups(inp, props, Solve(inp, props).value)
  {
  }

  /**
   * What the back-calculation means: the mass flow carries Qe across the
   * evaporator, m·(h1 − h4) = Qe, and the volumetric efficiency is the one
   * that, put into the forward relation m = V_th·η_v·ρ1 of Modes 2 and 3,
   * gives this mass flow back (finite h1, h3 and nonzero finite ρ1).
   */
  lemma MassFlowAndEfficiency(inp: Inputs, r: Evaluation)
    requires Layout(inp, r)
    requires r.states.h1.Fin? && r.states.h3.Fin? && r.states.rho1.Fin? && r.states.rho1.v != 0.0
    ensures r.mDot.Fin? && r.mDot.v > 0.0
    ensures r.mDot.v * (r.states.h1.v - r.states.h4.v) == r.duty.qe.v
    ensures r.etaV.Fin? && (r.etaV.v > 0.0 <==> r.states.rho1.v > 0.0)
    ensures Mul(Mul(r.flow.vTh, r.etaV), r.states.rho1) == r.mDot
  {
    CapacityPositive(inp, r.duty);
    FlowPositive(inp, r.flow);
    var qe, dh, rho, vTh := r.duty.qe.v, r.states.h1.v - r.states.h3.v, r.states.rho1.v, r.flow.vTh.v;
    BackCalculation(qe, dh, rho, vTh);
  }

  /** A Qe the power and capacity stage accepts is a positive finite number. */
  lemma CapacityPositive(inp: Inputs, d: Duty)
    requires Validate(inp) == Ok(()) && PowerAndCapacity(inp) == Ok(d)
    ensures d.qe.Fin? && d.qe.v > 0.0
  {
  }

  /** A theoretical flow the flow stage accepts is a positive finite number. */
  lemma FlowPositive(inp: Inputs, f: Flow)
    requires Validate(inp) == Ok(()) && TheoreticalFlow(inp) == Ok(f)
    ensures f.vTh.Fin? && f.vTh.v > 0.0
  {
  }

  /** The back-calculation in reals: m = Qe/Δh and η_v = (m/ρ)/V_th give V_th·η_v·ρ = m. */
  lemma BackCalculation(qe: real, dh: real, rho: real, vTh: real)
    requires qe > 0.0 && dh > 0.0 && rho != 0.0 && vTh > 0.0
    ensures qe / dh > 0.0 && (qe / dh) * dh == qe
    ensures (qe / dh * (1.0 / rho)) / vTh > 0.0 <==> rho > 0.0
    ensures vTh * ((qe / dh * (1.0 / rho)) / vTh) * rho == qe / dh
  {
    var m := qe / dh;
    assert m * (1.0 / rho) * rho == m;
    if rho > 0.0 {
      assert m * (1.0 / rho) > 0.0;
    } else {
      assert m * (1.0 / rho) < 0.0;
    }
  }

  /**
   * The heat split never decides whether the solve succeeds: two property
   * backends that differ only in the h2a lookup give the same outcome, and
   * on success the same evaluation apart from the split (when the h2a lookup
   * is not also the h1 or the h3 lookup).
   */
  lemma OilSplitIsSoft(inp: Inputs, props: PropsSI, other: PropsSI, pe: Num, pc: Num)
    requires props(SaturationPressureAt(CelsiusToKelvin(inp.te), 1.0, inp.fluid)) == Some(pe)
    requires props(SaturationPressureAt(CelsiusToKelvin(inp.tc), 0.0, inp.fluid)) == Some(pc)
    requires EnthalpyAt(CelsiusToKelvin(inp.t2a), pc, inp.fluid) != EnthalpyAt(Add(CelsiusToKelvin(inp.te), inp.superheat), pe, inp.fluid)
    requires EnthalpyAt(CelsiusToKelvin(inp.t2a), pc, inp.fluid) != EnthalpyAt(Sub(CelsiusToKelvin(inp.tc), inp.subcooling), pc, inp.fluid)
    requires forall q: Query :: q != EnthalpyAt(CelsiusToKelvin(inp.t2a), pc, inp.fluid) ==> props(q) == other(q)
    ensures Solve(inp, props).Ok? <==> Solve(inp, other).Ok?
    ensures Solve(inp, props).Err? ==> Solve(inp, props) == Solve(inp, other)
    ensures Solve(inp, props).Ok? ==>
      Solve(inp, props).value.(oil := Unavailable(ZeroMassFlow)) == Solve(inp, other).value.(oil := Unavailable(ZeroMassFlow))
  {
    assert StatePoints(inp, props) == StatePoints(inp, other);
  }

  // ---------------------------------------------------------------------------
  // The cached record and the transfer to Mode 2

  /** `lastMode1Results`: the inputs and η_v kept for the transfer (η_v is None when NaN). */
  datatype Snapshot = Snapshot(
    fluid: string,
    rpm: Num,
    flowMode: FlowMode,
    vRev: Num,
    vThM3h: Num,
    te: Field,
    tc: Field,
    superheat: Field,
    subcooling: Field,
    powerMode: PowerMode,
    motorEff: Field,
    etaV: Option<Num>)

  /** The record `calculateMode1` caches on success. */
  function CacheRecord(inp: Inputs, r: Evaluation): Snapshot {
    Snapshot(inp.fluid, RpmValue(inp), inp.flowMode, r.flow.vRev, r.flow.vThM3h,
             inp.te, inp.tc, inp.superheat, inp.subcooling, inp.powerMode, inp.motorEff,
             if r.etaV.NaN? then None else Some(r.etaV))
  }

  /**
   * What a successful solve leaves in the cache: numbers for the operating
   * point, for the speed and displacement (speed mode) or the flow (volume
   * mode), and a non-NaN η_v when there is one.
   */
  ghost predicate Cached(s: Snapshot) {
    && !s.te.NaN? && !s.tc.NaN? && !s.superheat.NaN? && !s.subcooling.NaN?
    && (s.flowMode == ByRpm ==> !s.rpm.NaN? && !s.rpm.Inf? && !s.vRev.NaN? && !s.vRev.Inf?)
    && (s.flowMode == ByVolume ==> !s.vThM3h.NaN? && !s.vThM3h.Inf?)
    && (s.etaV.Some? ==> !s.etaV.value.NaN?)
  }

  lemma CacheRecordCached(inp: Inputs, r: Evaluation)
    requires Layout(inp, r)
    ensures Cached(CacheRecord(inp, r))
  {
  }

  /**
   * A number written into a number field and read back with `parseFloat`:
   * an infinity is not a valid number there, so it reads back as NaN.
   */
  function FormValue(x: Num): Field {
    if x.Inf? then NaN else x
  }

  const DefaultEtaV: real := 0.85
  const DefaultEtaS: real := 0.7

  /**
   * `transferToMode2`: nothing happens without a cached result; otherwise the
   * operating point, the flow mode with its fields, and η_v to three decimals
   * (0.85 when missing) are written into the Mode 2 form, and since no
   * isentropic efficiency is cached, the shaft basis with η_s = 0.7 is chosen.
   * The discharge estimate, the motor efficiency and the other flow mode's
   * fields keep what the form held.
   */
  function Transfer(cache: Option<Snapshot>, form: Refrigeration.Inputs): (r: Option<Refrigeration.Inputs>)
    ensures r.None? <==> cache.None?
    ensures cache.Some? ==>
      var s, f := cache.value, r.value;
      && f.basis == ShaftBasis && f.etaS == Fin(0.7)
      && f.fluid == s.fluid && f.te == s.te && f.tc == s.tc
      && f.superheat == s.superheat && f.subcooling == s.subcooling
      && f.t2aEst == form.t2aEst && f.motorEff == form.motorEff
      && f.flowMode == s.flowMode
      && (s.flowMode == ByRpm ==>
            f.rpm == FormValue(s.rpm) && f.displacement == FormValue(s.vRev) && f.flowM3h == form.flowM3h)
      && (s.flowMode == ByVolume ==>
            f.flowM3h == FormValue(s.vThM3h) && f.rpm == form.rpm && f.displacement == form.displacement)
      && (s.etaV.None? || s.etaV.value.NaN? ==> f.etaV == Fin(0.85))
      && (s.etaV.Some? && s.etaV.value.Fin? ==>
            f.etaV.Fin? && -0.0005 <= f.etaV.v - s.etaV.value.v <= 0.0005)
      && (s.etaV.Some? && s.etaV.value.Fin? && -1000000000000000000000.0 < s.etaV.value.v < 1000000000000000000000.0 ==>
            (f.etaV.v * 1000.0).Floor as real == f.etaV.v * 1000.0)
      && (s.etaV.Some? && s.etaV.value.Inf? ==> f.etaV.NaN?)
  {
    match cache
    case None => None
    case Some(s) =>
      var withPoint := form.(fluid := s.fluid, te := s.te, tc := s.tc, superheat := s.superheat, subcooling := s.subcooling);
      var withFlow :=
        if s.flowMode == ByRpm then withPoint.(flowMode := ByRpm, rpm := FormValue(s.rpm), displacement := FormValue(s.vRev))
        else withPoint.(flowMode := ByVolume, flowM3h := FormValue(s.vThM3h));
      var etaV := match s.etaV
        case None => Fin(DefaultEtaV)
        case Some(e) => if e.NaN? then Fin(DefaultEtaV) else FormValue(ToFixed3(e));
      Some(withFlow.(etaV := etaV, basis := ShaftBasis, etaS := Fin(DefaultEtaS)))
  }

  /**
   * A form seeded from a successful evaluation (with a finite η_v or none)
   * passes Mode 2's NaN check and its flow check: what can still stop Mode 2
   * is the discharge estimate, the subcooling sign or a lookup.
   */
  lemma TransferPassesNumberChecks(s: Snapshot, form: Refrigeration.Inputs)
    requires Cached(s)
    requires s.etaV.Some? ==> s.etaV.value.Fin?
    ensures var f := Transfer(Some(s), form).value;
      && Refrigeration.Validate(f) != Err(Refrigeration.InvalidNumber)
      && Refrigeration.TheoreticalFlow(f).Ok?
  {
  }

  // ---------------------------------------------------------------------------
  // Module state: the cached results and the transfer/print buttons

  /**
   * What the page keeps between events: `lastMode1Results`,
   * `lastMode1ResultText` (represented by the evaluation it was printed
   * from), whether the transfer and print buttons are disabled, and whether
   * the calculate button shows the stale look.
   */
  datatype PageState = PageState(
    lastResults: Option<Snapshot>,
    lastResultText: Option<Evaluation>,
    transferDisabled: bool,
    printDisabled: bool,
    stale: bool)

  /** The page as loaded: nothing cached, transfer and print disabled, calculate button fresh. */
  const Initial: PageState := PageState(None, None, true, true, false)

  /**
   * What can happen on the Mode 1 page: an edit of any input or select (each
   * one's `input` and `change` listener), a submit of the form with the
   * property backend of the moment, a click on print or on transfer.
   */
  datatype Event = InputEdited | Submitted(inp: Inputs, props: PropsSI) | PrintClicked | TransferClicked

  /**
   * The effect of one event on the page state: an edit drops both caches and
   * disables transfer and print; a submit caches the evaluation and its
   * record, enables both buttons and freshens the calculate button, or on an
   * error drops both caches and disables both buttons; print and transfer
   * only read the caches.
   */
  function Step(st: PageState, e: Event): (next: PageState)
    ensures e.InputEdited? ==> next.lastResultText.None? && next.stale
    ensures e.PrintClicked? || e.TransferClicked? ==> next == st
    ensures e.Submitted? ==> (next.lastResultText.Some? <==> Solve(e.inp, e.props).Ok?)
  {
    match e
    case InputEdited => PageState(None, None, true, true, true)
    case Submitted(inp, props) =>
      (match Solve(inp, props)
       case Ok(r) => PageState(Some(CacheRecord(inp, r)), Some(r), false, false, false)
       case Err(_) => st.(lastResults := None, lastResultText := None, transferDisabled := true, printDisabled := true))
    case PrintClicked => st
    case TransferClicked => st
  }

  /** The page state after a sequence of events, first event first. */
  function Replay(st: PageState, events: seq<Event>): PageState
    decreases |events|
  {
    if events == [] then st else Replay(Step(st, events[0]), events[1..])
  }

  /**
   * The submit whose report the page should be showing after `events`: the
   * last submit, provided it succeeded and no input was edited after it.
   */
  function LastSuccess(events: seq<Event>): Option<(Inputs, Evaluation)>
    decreases |events|
  {
    if events == [] then None
    else
      match events[|events| - 1]
      case InputEdited => None
      case Submitted(inp, props) =>
        if Solve(inp, props).Ok? then Some((inp, Solve(inp, props).value)) else None
      case PrintClicked => LastSuccess(events[..|events| - 1])
      case TransferClicked => LastSuccess(events[..|events| - 1])
  }

  /** One more event at the end is one more step at the end. */
  lemma {:induction false} ReplaySnoc(st: PageState, events: seq<Event>, e: Event)
    ensures Replay(st, events + [e]) == Step(Replay(st, events), e)
    decreases |events|
  {
    if events == [] {
      assert [e][1..] == [];
    } else {
      assert (events + [e])[0] == events[0];
      assert (events + [e])[1..] == events[1..] + [e];
      ReplaySnoc(Step(st, events[0]), events[1..], e);
    }
  }

  /**
   * Whatever the user did since the page loaded, the caches hold the last
   * successful submit not followed by an edit, and nothing otherwise; the
   * transfer and print buttons are enabled exactly when they hold it, and
   * then the calculate button is fresh.
   */
  lemma {:induction false} ReplayShowsLastSuccess(events: seq<Event>)
    ensures var st := Replay(Initial, events);
      match LastSuccess(events)
      case None =>
        st.lastResults.None? && st.lastResultText.None? && st.transferDisabled && st.printDisabled
      case Some((inp, r)) =>
        && st.lastResultText == Some(r) && st.lastResults == Some(CacheRecord(inp, r))
        && !st.transferDisabled && !st.printDisabled && !st.stale
    decreases |events|
  {
    if events != [] {
      var init, e := events[..|events| - 1], events[|events| - 1];
      assert events == init + [e];
      ReplaySnoc(Initial, init, e);
      ReplayShowsLastSuccess(init);
    }
  }

  /**
   * The state of `calculateMode1`'s module: the two caches, the transfer and
   * print buttons and the calculate button's stale look.
   */
  class Panel {
    var lastResults: Option<Snapshot>
    var lastResultText: Option<Evaluation>
    var transferDisabled: bool
    var printDisabled: bool
    var stale: bool

    /** The fields as a page state. */
    function State(): PageState
      reads this
    {
      PageState(lastResults, lastResultText, transferDisabled, printDisabled, stale)
    }

    /**
     * Both caches are set together, the transfer and print buttons are
     * enabled exactly when they are, a cached record is one a successful solve
     * leaves, and a cached result means a fresh button.
     */
    ghost predicate Valid()
      reads this
    {
      && lastResults.None? == lastResultText.None?
      && transferDisabled == lastResults.None?
      && printDisabled == lastResultText.None?
      && (lastResults.Some? ==> Cached(lastResults.value) && !stale)
    }

    /** The page as loaded. */
    constructor ()
      ensures Valid() && State() == Initial
    {
      lastResults := None;
      lastResultText := None;
      transferDisabled := true;
      printDisabled := true;
      stale := false;
    }

    /** `setButtonStale`, the listener on every input of the form. */
    method SetButtonStale()
      modifies this
      ensures Valid() && State() == Step(old(State()), InputEdited)
    {
      stale := true;
      transferDisabled := true;
      printDisabled := true;
      lastResults := None;
      lastResultText := None;
    }

    /** `setButtonFresh`. */
    method SetButtonFresh()
      modifies this`stale
      ensures !stale
    {
      stale := false;
    }

    /** `calculateMode1`, the submit handler. */
    method Calculate(inp: Inputs, props: PropsSI)
      requires Valid()
      modifies this
      ensures Valid() && State() == Step(old(State()), Submitted(inp, props))
    {
      var outcome := Solve(inp, props);
      if outcome.Ok? {
        SolveLayout(inp, props);
        CacheRecordCached(inp, outcome.value);
        lastResultText := Some(outcome.value);
        lastResults := Some(CacheRecord(inp, outcome.value));
        transferDisabled := false;
        printDisabled := false;
        SetButtonFresh();
      } else {
        lastResults := None;
        lastResultText := None;
        transferDisabled := true;
        printDisabled := true;
      }
    }

    /**
     * `transferToMode2` as seen from the Mode 2 form: unchanged when nothing
     * is cached, otherwise seeded from the cached record.
     */
    method TransferTo(form: Refrigeration.Inputs) returns (seeded: Refrigeration.Inputs)
      requires Valid()
      ensures lastResults.None? ==> seeded == form
      ensures lastResults.Some? ==> Transfer(lastResults, form) == Some(seeded)
    {
      var t := Transfer(lastResults, form);
      if t.Some? {
        seeded := t.value;
      } else {
        seeded := form;
      }
    }
  }
}
