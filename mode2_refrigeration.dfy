/**
 * Mode 2: refrigeration / heat-pump prediction for an oil-injected compressor
 * (js/mode2_oil_refrig.js). From the saturation temperatures, superheat,
 * subcooling, volumetric and isentropic efficiencies and an estimated
 * discharge temperature, the solver predicts mass flow, shaft and input power,
 * the oil-cooling load, the duties and the COPs.
 */
module RefrigerationMode {
  import opened Results
  import opened JsNumber
  import opened Props
  import opened Conversions
  import opened Efficiency

  /** The form fields read by `calculateMode2`, as `parseFloat` returns them. */
  datatype Inputs = Inputs(
    fluid: string,
    te: Field,
    tc: Field,
    superheat: Field,
    subcooling: Field,
    t2aEst: Field,
    flowMode: FlowMode,
    rpm: Field,
    displacement: Field,
    flowM3h: Field,
    basis: Basis,
    etaV: Field,
    etaS: Field,
    motorEff: Field)

  /** The errors `calculateMode2` throws, one per throw site. */
  datatype Error =
    | DischargeNotAboveCondensing
    | NegativeSubcooling
    | InvalidNumber
    | InvalidSpeedOrDisplacement
    | InvalidFlow
    | LookupFailed(q: Query)

  function Fetch(props: PropsSI, q: Query): (r: Result<Num, Error>)
    ensures r.Ok? <==> props(q).Some?
    ensures r.Ok? ==> r.value == props(q).value
    ensures r.Err? ==> r.error == LookupFailed(q)
  {
    match props(q)
    case Some(x) => Ok(x)
    case None => Err(LookupFailed(q))
  }

  /** The three up-front checks, in the order the source makes them. */
  function Validate(inp: Inputs): Result<(), Error> {
    if Le(inp.t2aEst, inp.tc) then Err(DischargeNotAboveCondensing)
    else if Lt(inp.subcooling, Zero) then Err(NegativeSubcooling)
    else if inp.te.NaN? || inp.etaV.NaN? || inp.etaS.NaN? then Err(InvalidNumber)
    else Ok(())
  }

  /** Theoretical flow in m³/s; the fields must be numbers, but nothing requires them to be positive. */
  function TheoreticalFlow(inp: Inputs): Result<Num, Error> {
    match inp.flowMode
    case ByRpm =>
      if inp.rpm.NaN? || inp.displacement.NaN? then Err(InvalidSpeedOrDisplacement)
      else Ok(SpeedFlow(inp.rpm, inp.displacement))
    case ByVolume =>
      if inp.flowM3h.NaN? then Err(InvalidFlow)
      else Ok(VolumeFlow(inp.flowM3h))
  }

  /** Saturation pressure of the vapour (quality 1) at a temperature in K. */
  function DewPressureAt(t: Num, fluid: string): Query {
    Query(P, T, t, Q, Fin(1.0), fluid)
  }

  /** States 1, 2s, 3 and 4 of the cycle (temperatures in K, pressures in Pa). */
  datatype States = States(
    pe: Num, pc: Num,
    t1: Num, h1: Num, s1: Num, rho1: Num,
    h2s: Num, t2s: Num,
    t3: Num, h3: Num, h4: Num)

  function StatePoints(inp: Inputs, props: PropsSI): Result<States, Error> {
    var teK := CelsiusToKelvin(inp.te);
    var tcK := CelsiusToKelvin(inp.tc);
    var pe :- Fetch(props, DewPressureAt(teK, inp.fluid));
    var pc :- Fetch(props, DewPressureAt(tcK, inp.fluid));
    var t1 := Add(teK, inp.superheat);
    var h1 :- Fetch(props, EnthalpyAt(t1, pe, inp.fluid));
    var s1 :- Fetch(props, Query(S, T, t1, P, pe, inp.fluid));
    var rho1 :- Fetch(props, Query(D, T, t1, P, pe, inp.fluid));
    var h2s :- Fetch(props, Query(H, P, pc, S, s1, inp.fluid));
    var t2s :- Fetch(props, Query(T, P, pc, S, s1, inp.fluid));
    var t3 := Sub(tcK, inp.subcooling);
    var h3 :- Fetch(props, EnthalpyAt(t3, pc, inp.fluid));
    Ok(States(pe, pc, t1, h1, s1, rho1, h2s, t2s, t3, h3, h3))
  }

  /** State 2a and the oil-cooling load. */
  datatype Discharge = Discharge(h2aNoOil: Num, t2aNoOil: Num, t2a: Num, h2a: Num, qOil: Num, noOil: bool)

  /**
   * The discharge without oil cooling has h1 + W_shaft/m. When its temperature
   * is below the estimate, no oil cooling is needed and that state is state 2a;
   * otherwise state 2a sits at the estimated temperature and the oil removes
   * the rest of the shaft power.
   */
  function DischargeState(inp: Inputs, props: PropsSI, st: States, mDot: Num, wShaft: Num): (r: Result<Discharge, Error>)
    ensures r.Ok? ==> DischargeShape(mDot, st.h1, wShaft, r.value)
    ensures r.Ok? ==>
      var d, t2aEstK := r.value, CelsiusToKelvin(inp.t2aEst);
      && props(TemperatureAt(st.pc, d.h2aNoOil, inp.fluid)) == Some(d.t2aNoOil)
      && (d.noOil <==> Lt(d.t2aNoOil, t2aEstK))
      && (!d.noOil ==> d.t2a == t2aEstK && props(EnthalpyAt(t2aEstK, st.pc, inp.fluid)) == Some(d.h2a))
    ensures r.Err? ==>
      && r.error.LookupFailed? && props(r.error.q).None?
      && (r.error.q == TemperatureAt(st.pc, Add(st.h1, Div(wShaft, mDot)), inp.fluid)
          || r.error.q == EnthalpyAt(CelsiusToKelvin(inp.t2aEst), st.pc, inp.fluid))
  {
    var hNoOil := Add(st.h1, Div(wShaft, mDot));
    var tNoOil :- Fetch(props, TemperatureAt(st.pc, hNoOil, inp.fluid));
    var t2aEstK := CelsiusToKelvin(inp.t2aEst);
    if Lt(tNoOil, t2aEstK) then
      Ok(Discharge(hNoOil, tNoOil, tNoOil, hNoOil, Zero, true))
    else
      var h2a :- Fetch(props, EnthalpyAt(t2aEstK, st.pc, inp.fluid));
      var qGas := Mul(mDot, Sub(h2a, st.h1));
      Ok(Discharge(hNoOil, tNoOil, t2aEstK, h2a, Sub(wShaft, qGas), false))
  }

  /** Everything `calculateMode2` reports (powers in W). */
  datatype Prediction = Prediction(
    vTh: Num, vAct: Num, mDot: Num,
    states: States,
    ws: Num,
    power: PowerSplit,
    discharge: Discharge,
    qEvap: Num, qCond: Num, qTotalHeat: Num,
    copR: Num, copHCond: Num, copHTotal: Num)

  /** `calculateMode2` without the DOM: the prediction, or the error it throws. */
  function Solve(inp: Inputs, props: PropsSI): (r: Result<Prediction, Error>)
    ensures r.Ok? ==> Validate(inp) == Ok(()) && TheoreticalFlow(inp) == Ok(r.value.vTh)
    ensures r.Err? && r.error.LookupFailed? ==> props(r.error.q).None?
    ensures r.Err? && !r.error.LookupFailed? ==>
      (Validate(inp).Err? && r.error == Validate(inp).error)
      || (Validate(inp).Ok? && TheoreticalFlow(inp) == Err(r.error))
  {
    var _ :- Validate(inp);
    var vTh :- TheoreticalFlow(inp);
    var st :- StatePoints(inp, props);
    var vAct := Mul(vTh, inp.etaV);
    var mDot := Mul(vAct, st.rho1);
    var ws := Mul(mDot, Sub(st.h2s, st.h1));
    var power := Resolve(inp.basis, inp.etaS, inp.motorEff, ws);
    var dis :- DischargeState(inp, props, st, mDot, power.wShaft);
    var qEvap := Mul(mDot, Sub(st.h1, st.h4));
    var qCond := Mul(mDot, Sub(dis.h2a, st.h3));
    var qTotal := Add(power.wShaft, qEvap);
    Ok(Prediction(vTh, vAct, mDot, st, ws, power, dis, qEvap, qCond, qTotal,
                  Div(qEvap, power.wInput), Div(qCond, power.wInput), Div(qTotal, power.wInput)))
  }

  // ---------------------------------------------------------------------------
  // Properties of the solver

  /**
   * The solve rejects, in this order: an estimated discharge temperature not
   * above Tc, a negative subcooling, a NaN Te, η_v or η_s. A successful solve
   * passed all three and had numbers for the flow fields of its mode.
   */
  lemma RejectionOrder(inp: Inputs, props: PropsSI)
    ensures Le(inp.t2aEst, inp.tc) ==> Solve(inp, props) == Err(DischargeNotAboveCondensing)
    ensures !Le(inp.t2aEst, inp.tc) && Lt(inp.subcooling, Zero) ==> Solve(inp, props) == Err(NegativeSubcooling)
    ensures !Le(inp.t2aEst, inp.tc) && !Lt(inp.subcooling, Zero) && (inp.te.NaN? || inp.etaV.NaN? || inp.etaS.NaN?) ==>
      Solve(inp, props) == Err(InvalidNumber)
    ensures Solve(inp, props).Ok? ==>
      && !Le(inp.t2aEst, inp.tc) && !Lt(inp.subcooling, Zero)
      && !inp.te.NaN? && !inp.etaV.NaN? && !inp.etaS.NaN?
      && (inp.flowMode == ByRpm ==> !inp.rpm.NaN? && !inp.displacement.NaN?)
      && (inp.flowMode == ByVolume ==> !inp.flowM3h.NaN?)
  {
  }

  /**
   * The checks leave superheat and motor efficiency alone, and a NaN
   * discharge estimate gets past the first check (a comparison with NaN is false).
   */
  lemma UncheckedFields(inp: Inputs, superheat: Field, motorEff: Field)
    ensures Validate(inp.(superheat := superheat, motorEff := motorEff)) == Validate(inp)
    ensures inp.t2aEst.NaN? ==> Validate(inp) != Err(DischargeNotAboveCondensing)
  {
  }

  /**
   * With a NaN motor efficiency on the shaft basis, a solve that succeeds
   * reports NaN input power, total efficiency and COPs.
   */
  lemma NaNMotorEfficiencyReachesReport(inp: Inputs, props: PropsSI)
    requires inp.basis == ShaftBasis && inp.motorEff.NaN? && Solve(inp, props).Ok?
    ensures var r := Solve(inp, props).value;
      r.power.wInput.NaN? && r.power.etaTotal.NaN? && r.copR.NaN? && r.copHCond.NaN? && r.copHTotal.NaN?
  {
  }

  /**
   * The flow is rpm·(disp/1e6)/60 or flow/3600 with no sign check: a zero
   * speed is accepted and gives a zero flow.
   */
  lemma FlowHasNoPositivityCheck(inp: Inputs, props: PropsSI)
    ensures Solve(inp, props).Ok? ==>
      Solve(inp, props).value.vTh ==
        (if inp.flowMode == ByRpm then SpeedFlow(inp.rpm, inp.displacement) else VolumeFlow(inp.flowM3h))
    ensures inp.flowMode == ByRpm && inp.rpm == Zero && !inp.displacement.NaN? ==> TheoreticalFlow(inp) == Ok(Zero)
  {
  }

  /**
   * Provenance of the suction and ideal-outlet states: both saturation
   * pressures use quality 1, t1 = Te + 273.15 + superheat, and s1, h2s are
   * looked up at (t1, Pe) and (Pc, s1).
   */
  lemma StateProvenance(inp: Inputs, props: PropsSI)
    requires Solve(inp, props).Ok?
    ensures var st := Solve(inp, props).value.states;
      && props(DewPressureAt(CelsiusToKelvin(inp.te), inp.fluid)) == Some(st.pe)
      && props(DewPressureAt(CelsiusToKelvin(inp.tc), inp.fluid)) == Some(st.pc)
      && st.t1 == Add(CelsiusToKelvin(inp.te), inp.superheat)
      && props(EnthalpyAt(st.t1, st.pe, inp.fluid)) == Some(st.h1)
      && props(Query(S, T, st.t1, P, st.pe, inp.fluid)) == Some(st.s1)
      && props(Query(D, T, st.t1, P, st.pe, inp.fluid)) == Some(st.rho1)
      && props(Query(H, P, st.pc, S, st.s1, inp.fluid)) == Some(st.h2s)
      && st.t3 == Sub(CelsiusToKelvin(inp.tc), inp.subcooling)
      && props(EnthalpyAt(st.t3, st.pc, inp.fluid)) == Some(st.h3)
  {
  }

  /**
   * How the discharge state hangs together: h2a_no_oil = h1 + W_shaft/m; with
   * no oil cooling state 2a is that state and Q_oil = 0, otherwise
   * Q_oil = W_shaft − m·(h2a − h1).
   */
  ghost predicate DischargeShape(m: Num, h1: Num, wShaft: Num, d: Discharge) {
    && d.h2aNoOil == Add(h1, Div(wShaft, m))
    && (d.noOil ==> d.qOil == Zero && d.h2a == d.h2aNoOil && d.t2a == d.t2aNoOil)
    && (!d.noOil ==> d.qOil == Sub(wShaft, Mul(m, Sub(d.h2a, h1))))
  }

  /** The flows and the ideal work: V_act = V_th·η_v, m = V_act·ρ1, Ws = m·(h2s − h1). */
  ghost predicate Flows(inp: Inputs, r: Prediction) {
    && r.vAct == Mul(r.vTh, inp.etaV)
    && r.mDot == Mul(r.vAct, r.states.rho1)
    && r.ws == Mul(r.mDot, Sub(r.states.h2s, r.states.h1))
  }

  /** The efficiency basis resolves Ws into shaft and input power. */
  ghost predicate Powers(inp: Inputs, r: Prediction) {
    r.power == Resolve(inp.basis, inp.etaS, inp.motorEff, r.ws)
  }

  /**
   * The duties and COPs: h4 = h3, Q_evap = m·(h1 − h4), Q_cond = m·(h2a − h3),
   * Q_total_heat = W_shaft + Q_evap, and each COP divides a duty by W_input.
   */
  ghost predicate Duties(r: Prediction) {
    && r.states.h4 == r.states.h3
    && r.qEvap == Mul(r.mDot, Sub(r.states.h1, r.states.h4))
    && r.qCond == Mul(r.mDot, Sub(r.discharge.h2a, r.states.h3))
    && r.qTotalHeat == Add(r.power.wShaft, r.qEvap)
    && r.copR == Div(r.qEvap, r.power.wInput)
    && r.copHCond == Div(r.qCond, r.power.wInput)
    && r.copHTotal == Div(r.qTotalHeat, r.power.wInput)
  }

  /** The arithmetic that ties a prediction together. */
  ghost predicate Layout(inp: Inputs, r: Prediction) {
    && Flows(inp, r)
    && Powers(inp, r)
    && DischargeShape(r.mDot, r.states.h1, r.power.wShaft, r.discharge)
    && Duties(r)
  }

  /** Every prediction the solver returns is laid out as `Layout` says. */
  lemma SolveLayout(inp: Inputs, props: PropsSI)
    requires Solve(inp, props).Ok?
    ensures Layout(inp, Solve(inp, props).value)
  {
  }

  /**
   * Which branch the oil clamp takes, and the lookups behind it: the no-oil
   * temperature is T(Pc, h2a_no_oil); the branch is "no oil" exactly when that
   * temperature is below the estimate (in K); otherwise state 2a is
   * h(T2a_est, Pc) at the estimate.
   */
  ghost predicate OilBranch(inp: Inputs, props: PropsSI, r: Prediction) {
    var d := r.discharge;
    var t2aEstK := CelsiusToKelvin(inp.t2aEst);
    && props(TemperatureAt(r.states.pc, d.h2aNoOil, inp.fluid)) == Some(d.t2aNoOil)
    && (d.noOil <==> Lt(d.t2aNoOil, t2aEstK))
    && (!d.noOil ==>
          && props(EnthalpyAt(t2aEstK, r.states.pc, inp.fluid)) == Some(d.h2a)
          && d.t2a == t2aEstK)
  }

  lemma OilClamp(inp: Inputs, props: PropsSI)
    requires Solve(inp, props).Ok?
    ensures OilBranch(inp, props, Solve(inp, props).value)
  {
  }

  /** The balance of one discharge state, in reals: Q_cond + Q_oil = W_shaft + m·(h1 − h3). */
  lemma DischargeBalance(m: real, h1: real, h3: real, w: real, d: Discharge)
    requires d.h2a.Fin? && DischargeShape(Fin(m), Fin(h1), Fin(w), d)
    ensures d.qOil.Fin?
    ensures m * (d.h2a.v - h3) + d.qOil.v == w + m * (h1 - h3)
  {
    if d.noOil {
      assert m != 0.0;
      assert d.h2a.v == h1 + w / m;
      assert m * (w / m) == w;
    }
  }

  /**
   * Energy balance: in both branches Q_cond + Q_oil = W_shaft + Q_evap =
   * Q_total_heat, whenever m, h1, h3, h2a and W_shaft are finite.
   */
  lemma EnergyBalance(r: Prediction)
    requires DischargeShape(r.mDot, r.states.h1, r.power.wShaft, r.discharge) && Duties(r)
    requires r.mDot.Fin? && r.states.h1.Fin? && r.states.h3.Fin? && r.discharge.h2a.Fin? && r.power.wShaft.Fin?
    ensures r.qEvap.Fin? && r.qCond.Fin? && r.discharge.qOil.Fin? && r.qTotalHeat.Fin?
    ensures r.qTotalHeat.v == r.power.wShaft.v + r.qEvap.v
    ensures r.qCond.v + r.discharge.qOil.v == r.qTotalHeat.v
  {
    DischargeBalance(r.mDot.v, r.states.h1.v, r.states.h3.v, r.power.wShaft.v, r.discharge);
  }

  /** COP_H_total = COP_R + W_shaft/W_input = COP_H_cond + Q_oil/W_input, for a finite nonzero W_input. */
  lemma CopRelation(r: Prediction)
    requires DischargeShape(r.mDot, r.states.h1, r.power.wShaft, r.discharge) && Duties(r)
    requires r.mDot.Fin? && r.states.h1.Fin? && r.states.h3.Fin? && r.discharge.h2a.Fin? && r.power.wShaft.Fin?
    requires r.power.wInput.Fin? && r.power.wInput.v != 0.0
    ensures r.copR.Fin? && r.copHCond.Fin? && r.copHTotal.Fin?
    ensures r.copHTotal.v == r.copR.v + r.power.wShaft.v / r.power.wInput.v
    ensures r.copHTotal.v == r.copHCond.v + r.discharge.qOil.v / r.power.wInput.v
  {
    EnergyBalance(r);
    SumOverDivisor(r.qEvap.v, r.power.wShaft.v, r.power.wInput.v);
    SumOverDivisor(r.qCond.v, r.discharge.qOil.v, r.power.wInput.v);
  }

  lemma SumOverDivisor(a: real, b: real, c: real)
    requires c != 0.0
    ensures (a + b) / c == a / c + b / c
    ensures (b + a) / c == a / c + b / c
  {
  }

  /** The oil load of one discharge state is not negative when h(T2a_est) does not exceed h1 + W_shaft/m. */
  lemma OilLoadSign(m: real, h1: real, w: real, d: Discharge)
    requires DischargeShape(Fin(m), Fin(h1), Fin(w), d)
    requires m > 0.0 && d.h2a.Fin? && (!d.noOil ==> d.h2a.v <= h1 + w / m)
    ensures d.qOil.Fin? && d.qOil.v >= 0.0
  {
    if !d.noOil {
      assert m * (d.h2a.v - h1) <= m * (w / m);
      assert m * (w / m) == w;
    }
  }

  /**
   * With an enthalpy that increases with temperature and a temperature lookup
   * that inverts it, an estimate not below the no-oil temperature has an
   * enthalpy not above the no-oil enthalpy.
   */
  lemma EstimateEnthalpyBelowNoOil(props: PropsSI, fluid: string, pc: Num, hNoOil: real, tNoOil: Num, tEst: Num, h2a: Num)
    requires EnthalpyIncreasesWithTemperature(props, fluid, pc)
    requires TemperatureInvertsEnthalpy(props, fluid, pc)
    requires props(TemperatureAt(pc, Fin(hNoOil), fluid)) == Some(tNoOil)
    requires props(EnthalpyAt(tEst, pc, fluid)) == Some(h2a)
    requires tNoOil.Fin? && tEst.Fin? && h2a.Fin? && !Lt(tNoOil, tEst)
    ensures h2a.v <= hNoOil
  {
    assert props(EnthalpyAt(tNoOil, pc, fluid)) == Some(Fin(hNoOil));
    assert FiniteAt(props, EnthalpyAt(Fin(tEst.v), pc, fluid));
    assert FiniteAt(props, EnthalpyAt(Fin(tNoOil.v), pc, fluid));
  }

  /**
   * Q_oil is never negative, provided the backend's enthalpy increases with
   * temperature at Pc and its temperature lookup inverts the enthalpy lookup,
   * the mass flow is positive and the values involved are finite.
   */
  lemma OilLoadNonNegative(inp: Inputs, props: PropsSI, r: Prediction)
    requires DischargeShape(r.mDot, r.states.h1, r.power.wShaft, r.discharge) && OilBranch(inp, props, r)
    requires EnthalpyIncreasesWithTemperature(props, inp.fluid, r.states.pc)
    requires TemperatureInvertsEnthalpy(props, inp.fluid, r.states.pc)
    requires !inp.t2aEst.NaN?
    requires r.mDot.Fin? && r.mDot.v > 0.0 && r.states.h1.Fin? && r.power.wShaft.Fin?
    requires r.discharge.t2aNoOil.Fin? && r.discharge.h2a.Fin?
    ensures r.discharge.qOil.Fin? && r.discharge.qOil.v >= 0.0
  {
    var d := r.discharge;
    var m, h1, w := r.mDot.v, r.states.h1.v, r.power.wShaft.v;
    assert DischargeShape(Fin(m), Fin(h1), Fin(w), d);
    if !d.noOil {
      assert d.h2aNoOil == Fin(h1 + w / m);
      EstimateEnthalpyBelowNoOil(props, inp.fluid, r.states.pc, h1 + w / m, d.t2aNoOil,
                                 CelsiusToKelvin(inp.t2aEst), d.h2a);
    }
    OilLoadSign(m, h1, w, d);
  }

  /**
   * Nothing stops a negative speed: with a positive displacement it passes the
   * flow stage and gives a negative theoretical flow.
   */
  lemma NegativeSpeedAccepted(inp: Inputs)
    requires inp.flowMode == ByRpm && inp.rpm.Fin? && inp.rpm.v < 0.0
    requires inp.displacement.Fin? && inp.displacement.v > 0.0
    ensures TheoreticalFlow(inp).Ok?
    ensures TheoreticalFlow(inp).value.Fin? && TheoreticalFlow(inp).value.v < 0.0
  {
    SpeedFlowSpellingsAgree(inp.rpm.v, inp.displacement.v);
    assert inp.rpm.v * inp.displacement.v < 0.0;
  }

  /** A negative theoretical flow with positive η_v and ρ1 gives a negative mass flow. */
  lemma NegativeFlowReversesMassFlow(inp: Inputs, r: Prediction)
    requires Flows(inp, r)
    requires r.vTh.Fin? && r.vTh.v < 0.0
    requires inp.etaV.Fin? && inp.etaV.v > 0.0 && r.states.rho1.Fin? && r.states.rho1.v > 0.0
    ensures r.mDot.Fin? && r.mDot.v < 0.0
  {
    assert r.vAct.v < 0.0;
  }

  /**
   * The positive mass flow in `OilLoadNonNegative` is needed: with a backend
   * whose temperature is its enthalpy (increasing, and inverting the enthalpy
   * lookup), a mass flow of −1 kg/s, h1 = 500, W_shaft = 1 W and an estimate
   * of 100 °C, the discharge state is found without error and its oil load is
   * negative.
   */
  lemma NegativeMassFlowGivesNegativeOilLoad(inp: Inputs, st: States)
    requires inp.t2aEst == Fin(100.0) && st.h1 == Fin(500.0)
    ensures EnthalpyIncreasesWithTemperature(EnthalpyIsTemperature(), inp.fluid, st.pc)
    ensures TemperatureInvertsEnthalpy(EnthalpyIsTemperature(), inp.fluid, st.pc)
    ensures var r := DischargeState(inp, EnthalpyIsTemperature(), st, Fin(-1.0), Fin(1.0));
      r.Ok? && !r.value.noOil && r.value.qOil.Fin? && r.value.qOil.v < 0.0
  {
    IdentityBackendIsMonotone(inp.fluid, st.pc);
    IdentityBackendInverts(inp.fluid, st.pc);
    IdentityBackendNegativeOilLoad(inp, st);
  }

  lemma IdentityBackendNegativeOilLoad(inp: Inputs, st: States)
    requires inp.t2aEst == Fin(100.0) && st.h1 == Fin(500.0)
    ensures var r := DischargeState(inp, EnthalpyIsTemperature(), st, Fin(-1.0), Fin(1.0));
      r.Ok? && !r.value.noOil && r.value.qOil.Fin? && r.value.qOil.v < 0.0
  {
    var props := EnthalpyIsTemperature();
    assert props(TemperatureAt(st.pc, Fin(499.0), inp.fluid)) == Some(Fin(499.0));
    assert props(EnthalpyAt(Fin(373.15), st.pc, inp.fluid)) == Some(Fin(373.15));
  }

  lemma IdentityBackendIsMonotone(fluid: string, p: Num)
    ensures EnthalpyIncreasesWithTemperature(EnthalpyIsTemperature(), fluid, p)
  {
    var props := EnthalpyIsTemperature();
    forall t1: real, t2: real | t1 <= t2 && FiniteAt(props, EnthalpyAt(Fin(t1), p, fluid)) && FiniteAt(props, EnthalpyAt(Fin(t2), p, fluid))
      ensures props(EnthalpyAt(Fin(t1), p, fluid)).value.v <= props(EnthalpyAt(Fin(t2), p, fluid)).value.v
    {
      assert props(EnthalpyAt(Fin(t1), p, fluid)) == Some(Fin(t1));
      assert props(EnthalpyAt(Fin(t2), p, fluid)) == Some(Fin(t2));
    }
  }

  lemma IdentityBackendInverts(fluid: string, p: Num)
    ensures TemperatureInvertsEnthalpy(EnthalpyIsTemperature(), fluid, p)
  {
    var props := EnthalpyIsTemperature();
    forall h: real | FiniteAt(props, TemperatureAt(p, Fin(h), fluid))
      ensures props(EnthalpyAt(props(TemperatureAt(p, Fin(h), fluid)).value, p, fluid)) == Some(Fin(h))
    {
      assert props(TemperatureAt(p, Fin(h), fluid)) == Some(Fin(h));
    }
  }

  /** A backend in which a temperature and its enthalpy are the same number. */
  function EnthalpyIsTemperature(): PropsSI {
    (q: Query) =>
      if q.output == T && q.key2 == H then Some(q.value2)
      else if q.output == H && q.key1 == T then Some(q.value1)
      else None
  }

  // ---------------------------------------------------------------------------
  // Module state: the cached report and the calculate/print buttons

  /**
   * `lastMode2ResultText` with the print button and the calculate button's
   * stale look. The cached report text is represented by the prediction it
   * was printed from.
   */
  class Panel {
    var lastResult: Option<Prediction>
    var printDisabled: bool
    var stale: bool

    /** A cached result means a fresh button and an enabled print button. */
    ghost predicate Valid()
      reads this
    {
      && printDisabled == lastResult.None?
      && (lastResult.Some? ==> !stale)
    }

    /** The page as loaded: nothing cached, print disabled, calculate button fresh. */
    constructor ()
      ensures Valid() && lastResult == None && !stale
    {
      lastResult := None;
      printDisabled := true;
      stale := false;
    }

    /**
     * `setButtonStale2`: acts only when the button does not already show the
     * stale text; either way nothing stays cached.
     */
    method SetButtonStale()
      requires Valid()
      modifies this
      ensures Valid() && stale && lastResult == None && printDisabled
      ensures old(stale) ==> unchanged(this)
    {
      if !stale {
        stale := true;
        printDisabled := true;
        lastResult := None;
      }
    }

    /** `setButtonFresh2`. */
    method SetButtonFresh()
      modifies this`stale
      ensures !stale
    {
      stale := false;
    }

    /**
     * `calculateMode2`: a success caches the prediction, freshens the button
     * and enables printing; an error clears the cache, disables printing and
     * leaves the button as it was.
     */
    method Calculate(inp: Inputs, props: PropsSI)
      requires Valid()
      modifies this
      ensures Valid()
      ensures Solve(inp, props).Ok? ==> lastResult == Some(Solve(inp, props).value) && !stale
      ensures Solve(inp, props).Err? ==> lastResult == None && stale == old(stale)
    {
      var outcome := Solve(inp, props);
      if outcome.Ok? {
        lastResult := Some(outcome.value);
        SetButtonFresh();
        printDisabled := false;
      } else {
        lastResult := None;
        printDisabled := true;
      }
    }
  }
}
