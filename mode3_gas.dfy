/**
 * Mode 3: gas compression with an oil-injected compressor
 * (js/mode3_oil_gas.js). From suction and discharge pressures, suction
 * temperature, volumetric and isothermal efficiencies, the solver predicts
 * mass flow, isothermal, shaft and input power, the adiabatic discharge state
 * and the heat rejected, with an optional aftercooler duty.
 */
module GasMode {
  import opened Results
  import opened JsNumber
  import opened Props
  import opened Conversions
  import opened Efficiency

  /**
   * The form fields read by `calculateMode3`, as `parseFloat` returns them;
   * pressures in bar, temperatures in °C. The aftercooler target is read only
   * when the aftercooler checkbox is ticked.
   */
  datatype Inputs = Inputs(
    fluid: string,
    peBar: Field,
    te: Field,
    pcBar: Field,
    flowMode: FlowMode,
    rpm: Field,
    displacement: Field,
    flowM3h: Field,
    etaV: Field,
    basis: Basis,
    etaIso: Field,
    motorEff: Field,
    coolerEnabled: bool,
    targetTemp: Field)

  /** The errors `calculateMode3` throws, one per throw site. */
  datatype Error =
    | InvalidPressureOrTemperature
    | DischargeNotAboveSuction
    | InvalidEfficiency
    | InputMotorInvalid
    | InvalidSpeedOrDisplacement
    | InvalidFlow
    | LookupFailed(q: Query)
    | IsothermalWorkFailed(q: Query)
    | MotorInvalid

  /** A property lookup outside the isothermal-work block: a failure aborts the solve as it is. */
  function Fetch(props: PropsSI, q: Query): (r: Result<Num, Error>)
    ensures r.Ok? <==> props(q).Some?
    ensures r.Ok? ==> r.value == props(q).value
    ensures r.Err? ==> r.error == LookupFailed(q)
  {
    match props(q)
    case Some(x) => Ok(x)
    case None => Err(LookupFailed(q))
  }

  /** A number that is neither NaN nor ≤ 0 (the source's `isNaN(x) || x <= 0` negated). */
  predicate Positive(x: Num) {
    !x.NaN? && !Le(x, Zero)
  }

  /** The four up-front checks, in the order the source makes them. */
  function Validate(inp: Inputs): Result<(), Error> {
    if inp.peBar.NaN? || inp.pcBar.NaN? || inp.te.NaN? || Le(inp.peBar, Zero) || Le(inp.pcBar, Zero) then
      Err(InvalidPressureOrTemperature)
    else if Le(inp.pcBar, inp.peBar) then Err(DischargeNotAboveSuction)
    else if !Positive(inp.etaV) || !Positive(inp.etaIso) then Err(InvalidEfficiency)
    else if inp.basis == InputBasis && !Positive(inp.motorEff) then Err(InputMotorInvalid)
    else Ok(())
  }

  /**
   * Theoretical flow in m³/s. It is accepted exactly for a positive speed and
   * displacement (speed mode) or a positive volumetric flow (volume mode), and
   * is then positive: rpm·disp/6e7 or flow/3600.
   */
  function TheoreticalFlow(inp: Inputs): (r: Result<Num, Error>)
    ensures r.Ok? <==>
      if inp.flowMode == ByRpm then Positive(inp.rpm) && Positive(inp.displacement) else Positive(inp.flowM3h)
    ensures r.Err? ==> r.error == if inp.flowMode == ByRpm then InvalidSpeedOrDisplacement else InvalidFlow
    ensures r.Ok? && inp.flowMode == ByRpm ==> r.value == Fin(inp.rpm.v * inp.displacement.v / 60000000.0)
    ensures r.Ok? && inp.flowMode == ByVolume ==> r.value == Fin(inp.flowM3h.v / 3600.0)
    ensures r.Ok? ==> r.value.Fin? && r.value.v > 0.0
  {
    match inp.flowMode
    case ByRpm =>
      if !Positive(inp.rpm) || !Positive(inp.displacement) then Err(InvalidSpeedOrDisplacement)
      else
        SpeedFlowSpellingsAgree(inp.rpm.v, inp.displacement.v);
        Ok(SpeedFlow(inp.rpm, inp.displacement))
    case ByVolume =>
      if !Positive(inp.flowM3h) then Err(InvalidFlow)
      else Ok(VolumeFlow(inp.flowM3h))
  }

  /** A constant lookup inside the isothermal-work block: its failure is rethrown as a work failure. */
  function FetchConstant(props: PropsSI, k: Key, fluid: string): Result<Num, Error> {
    match props(ConstantQuery(k, fluid))
    case Some(x) => Ok(x)
    case None => Err(IsothermalWorkFailed(ConstantQuery(k, fluid)))
  }

  /**
   * The specific gas constant R_universal / molar mass, in J/(kg·K). It fails
   * exactly when one of the two constant lookups fails, the gas constant being
   * asked first, and the failure names the lookup.
   */
  function SpecificGasConstant(props: PropsSI, fluid: string): (r: Result<Num, Error>)
    ensures var ru, mm := props(ConstantQuery(GasConstant, fluid)), props(ConstantQuery(MolarMass, fluid));
      && (r.Ok? <==> ru.Some? && mm.Some?)
      && (r.Ok? ==> r.value == Div(ru.value, mm.value))
      && (ru.None? ==> r == Err(IsothermalWorkFailed(ConstantQuery(GasConstant, fluid))))
      && (ru.Some? && mm.None? ==> r == Err(IsothermalWorkFailed(ConstantQuery(MolarMass, fluid))))
  {
    var ru :- FetchConstant(props, GasConstant, fluid);
    var mm :- FetchConstant(props, MolarMass, fluid);
    Ok(Div(ru, mm))
  }

  /** The motor-efficiency checks made after the isothermal work, one per basis. */
  function MotorCheck(inp: Inputs): Result<(), Error> {
    if Positive(inp.motorEff) then Ok(())
    else if inp.basis == ShaftBasis then Err(MotorInvalid)
    else Err(InputMotorInvalid)
  }

  /** The aftercooler section of the report: absent, a soft error text, or a duty. */
  datatype Cooler =
    | NoCooler
    | InvalidTarget
    | TargetNotBelowDischarge
    | Cooled(targetK: Num, hOut: Num, qCooler: Num)

  /**
   * The optional aftercooler: a NaN target or a target not below T2a is
   * reported inside a successful result; otherwise the gas is cooled at Pc
   * to the target, and a failed lookup there aborts the whole solve. A duty
   * is m·(h2a − h_out) with h_out looked up at the target and Pc, for a
   * target (in K) below T2a.
   */
  function Aftercooler(inp: Inputs, props: PropsSI, pcPa: Num, t2a: Num, h2a: Num, mDot: Num): (r: Result<Cooler, Error>)
    ensures !inp.coolerEnabled ==> r == Ok(NoCooler)
    ensures inp.coolerEnabled && inp.targetTemp.NaN? ==> r == Ok(InvalidTarget)
    ensures r == Ok(TargetNotBelowDischarge) <==>
      inp.coolerEnabled && !inp.targetTemp.NaN? && Le(t2a, CelsiusToKelvin(inp.targetTemp))
    ensures r.Err? ==>
      && inp.coolerEnabled && !inp.targetTemp.NaN?
      && r.error == LookupFailed(EnthalpyAt(CelsiusToKelvin(inp.targetTemp), pcPa, inp.fluid))
      && props(r.error.q).None?
    ensures r.Ok? && r.value.Cooled? ==>
      && inp.coolerEnabled && !inp.targetTemp.NaN?
      && r.value.targetK == CelsiusToKelvin(inp.targetTemp)
      && (t2a.Fin? ==> r.value.targetK.v < t2a.v)
      && props(EnthalpyAt(r.value.targetK, pcPa, inp.fluid)) == Some(r.value.hOut)
      && r.value.qCooler == Mul(mDot, Sub(h2a, r.value.hOut))
  {
    if !inp.coolerEnabled then Ok(NoCooler)
    else if inp.targetTemp.NaN? then Ok(InvalidTarget)
    else
      var targetK := CelsiusToKelvin(inp.targetTemp);
      if Le(t2a, targetK) then Ok(TargetNotBelowDischarge)
      else
        var hOut :- Fetch(props, EnthalpyAt(targetK, pcPa, inp.fluid));
        Ok(Cooled(targetK, hOut, Mul(mDot, Sub(h2a, hOut))))
  }

  /** Everything `calculateMode3` reports (pressures in Pa, temperatures in K, powers in W). */
  datatype Prediction = Prediction(
    vTh: Num, vAct: Num, mDot: Num,
    pePa: Num, pcPa: Num, t1: Num, h1: Num, rho1: Num,
    rGas: Num, wIso: Num,
    power: PowerSplit,
    h2a: Num, t2a: Num, qDischarge: Num,
    cooler: Cooler)

  /** `calculateMode3` without the DOM: the prediction, or the error it throws. */
  function Solve(inp: Inputs, props: PropsSI, ln: real -> real): (r: Result<Prediction, Error>)
    ensures r.Ok? ==> Validate(inp) == Ok(()) && MotorCheck(inp) == Ok(()) && TheoreticalFlow(inp) == Ok(r.value.vTh)
    ensures r.Err? && (r.error.LookupFailed? || r.error.IsothermalWorkFailed?) ==> props(r.error.q).None?
    ensures r.Err? && r.error.MotorInvalid? ==> inp.basis == ShaftBasis && !Positive(inp.motorEff)
  {
    var _ :- Validate(inp);
    var vTh :- TheoreticalFlow(inp);
    var pePa := BarToPa(inp.peBar);
    var pcPa := BarToPa(inp.pcBar);
    var t1 := CelsiusToKelvin(inp.te);
    var h1 :- Fetch(props, EnthalpyAt(t1, pePa, inp.fluid));
    var rho1 :- Fetch(props, Query(D, T, t1, P, pePa, inp.fluid));
    var vAct := Mul(vTh, inp.etaV);
    var mDot := Mul(vAct, rho1);
    var rGas :- SpecificGasConstant(props, inp.fluid);
    var wIso := Mul(Mul(Mul(mDot, rGas), t1), Log(Div(pcPa, pePa), ln));
    var _ :- MotorCheck(inp);
    var power := Resolve(inp.basis, inp.etaIso, inp.motorEff, wIso);
    var h2a := Add(h1, Div(power.wShaft, mDot));
    var t2a :- Fetch(props, TemperatureAt(pcPa, h2a, inp.fluid));
    var qDischarge := Mul(mDot, Sub(h2a, h1));
    var cooler :- Aftercooler(inp, props, pcPa, t2a, h2a, mDot);
    Ok(Prediction(vTh, vAct, mDot, pePa, pcPa, t1, h1, rho1, rGas, wIso, power, h2a, t2a, qDischarge, cooler))
  }

  // ---------------------------------------------------------------------------
  // Properties of the solver

  /**
   * The solve rejects, in this order: a NaN or non-positive pressure or a NaN
   * temperature; Pc ≤ Pe; a NaN or non-positive η_v or η_iso; on the input
   * basis, a NaN or non-positive motor efficiency.
   */
  lemma RejectionOrder(inp: Inputs, props: PropsSI, ln: real -> real)
    ensures !Positive(inp.peBar) || !Positive(inp.pcBar) || inp.te.NaN? ==>
      Solve(inp, props, ln) == Err(InvalidPressureOrTemperature)
    ensures Positive(inp.peBar) && Positive(inp.pcBar) && !inp.te.NaN? && !Lt(inp.peBar, inp.pcBar) ==>
      Solve(inp, props, ln) == Err(DischargeNotAboveSuction)
    ensures (Positive(inp.peBar) && Lt(inp.peBar, inp.pcBar) && !inp.te.NaN?
             && (!Positive(inp.etaV) || !Positive(inp.etaIso))) ==>
      Solve(inp, props, ln) == Err(InvalidEfficiency)
    ensures (Positive(inp.peBar) && Lt(inp.peBar, inp.pcBar) && !inp.te.NaN?
             && Positive(inp.etaV) && Positive(inp.etaIso)
             && inp.basis == InputBasis && !Positive(inp.motorEff)) ==>
      Solve(inp, props, ln) == Err(InputMotorInvalid)
  {
  }

  /**
   * The checks passed and the work follows from them: the flow is the
   * theoretical flow, Pa = bar·1e5, T1 = Te + 273.15, V_act = V_th·η_v,
   * m = V_act·ρ1 and W_iso = m·R·T1·ln(Pc/Pe).
   */
  ghost predicate Work(inp: Inputs, ln: real -> real, r: Prediction) {
    && Validate(inp) == Ok(())
    && TheoreticalFlow(inp) == Ok(r.vTh)
    && r.pePa == BarToPa(inp.peBar)
    && r.pcPa == BarToPa(inp.pcBar)
    && r.t1 == CelsiusToKelvin(inp.te)
    && r.vAct == Mul(r.vTh, inp.etaV)
    && r.mDot == Mul(r.vAct, r.rho1)
    && r.wIso == Mul(Mul(Mul(r.mDot, r.rGas), r.t1), Log(Div(r.pcPa, r.pePa), ln))
  }

  /** η_iso and the motor efficiency are positive numbers and the basis resolves W_iso into shaft and input power. */
  ghost predicate Powers(inp: Inputs, r: Prediction) {
    && Positive(inp.etaIso)
    && Positive(inp.motorEff)
    && r.power == Resolve(inp.basis, inp.etaIso, inp.motorEff, r.wIso)
  }

  /** The adiabatic discharge: h2a = h1 + W_shaft/m and Q_discharge = m·(h2a − h1). */
  ghost predicate Discharge(r: Prediction) {
    && r.h2a == Add(r.h1, Div(r.power.wShaft, r.mDot))
    && r.qDischarge == Mul(r.mDot, Sub(r.h2a, r.h1))
  }

  /** The arithmetic that ties a prediction together. */
  ghost predicate Layout(inp: Inputs, ln: real -> real, r: Prediction) {
    Work(inp, ln, r) && Powers(inp, r) && Discharge(r)
  }

  /** Every prediction the solver returns is laid out as `Layout` says. */
  lemma SolveLayout(inp: Inputs, props: PropsSI, ln: real -> real)
    requires Solve(inp, props, ln).Ok?
    ensures Layout(inp, ln, Solve(inp, props, ln).value)
  {
  }

  /** The suction lookups: h1 and ρ1 at (T1, Pe), and R from the fluid's gas constant and molar mass. */
  ghost predicate SuctionLookups(inp: Inputs, props: PropsSI, r: Prediction) {
    && props(EnthalpyAt(r.t1, r.pePa, inp.fluid)) == Some(r.h1)
    && props(Query(D, T, r.t1, P, r.pePa, inp.fluid)) == Some(r.rho1)
    && SpecificGasConstant(props, inp.fluid) == Ok(r.rGas)
  }

  /** The discharge lookups: T2a at (Pc, h2a), and the aftercooler section as `Aftercooler` decides it. */
  ghost predicate DischargeLookups(inp: Inputs, props: PropsSI, r: Prediction) {
    && props(TemperatureAt(r.pcPa, r.h2a, inp.fluid)) == Some(r.t2a)
    && Aftercooler(inp, props, r.pcPa, r.t2a, r.h2a, r.mDot) == Ok(r.cooler)
  }

  /** The lookups behind a prediction. */
  ghost predicate Lookups(inp: Inputs, props: PropsSI, r: Prediction) {
    SuctionLookups(inp, props, r) && DischargeLookups(inp, props, r)
  }

  lemma SolveLookups(inp: Inputs, props: PropsSI, ln: real -> real)
    requires Solve(inp, props, ln).Ok?
    ensures Lookups(inp, props, Solve(inp, props, ln).value)
  {
  }

  /**
   * A failure of either constant lookup aborts the solve; the only failures
   * reported as isothermal-work failures are those two lookups, gas constant
   * first, and the motor check after the work cannot raise the input-basis
   * error (the up-front check already did).
   */
  lemma ConstantFailuresAbort(inp: Inputs, props: PropsSI, ln: real -> real)
    ensures props(ConstantQuery(GasConstant, inp.fluid)).None? || props(ConstantQuery(MolarMass, inp.fluid)).None? ==>
      Solve(inp, props, ln).Err?
    ensures Solve(inp, props, ln).Err? && Solve(inp, props, ln).error.IsothermalWorkFailed? ==>
      var q := Solve(inp, props, ln).error.q;
      && props(q).None?
      && (q == ConstantQuery(GasConstant, inp.fluid) || q == ConstantQuery(MolarMass, inp.fluid))
      && (q == ConstantQuery(MolarMass, inp.fluid) ==> props(ConstantQuery(GasConstant, inp.fluid)).Some?)
    ensures Solve(inp, props, ln) == Err(InputMotorInvalid) ==> Validate(inp) == Err(InputMotorInvalid)
    ensures Solve(inp, props, ln) == Err(MotorInvalid) ==> inp.basis == ShaftBasis && !Positive(inp.motorEff)
  {
  }

  /**
   * The isothermal work in closed form: W_iso = m·R·(Te + 273.15)·ln(Pc/Pe)
   * with the pressures in either unit, whenever m and R are finite; Pc/Pe > 1,
   * and W_iso is positive when m, R and T1 are and ln is positive above 1.
   */
  lemma IsothermalWork(inp: Inputs, ln: real -> real, r: Prediction)
    requires Work(inp, ln, r)
    requires r.mDot.Fin? && r.rGas.Fin?
    ensures r.wIso == Fin(r.mDot.v * r.rGas.v * (inp.te.v + 273.15) * ln(inp.pcBar.v / inp.peBar.v))
    ensures inp.pcBar.v / inp.peBar.v > 1.0
    ensures r.mDot.v > 0.0 && r.rGas.v > 0.0 && inp.te.v + 273.15 > 0.0 && ln(inp.pcBar.v / inp.peBar.v) > 0.0 ==>
      r.wIso.v > 0.0
  {
    var pe, pc := inp.peBar.v, inp.pcBar.v;
    PressureRatio(pe, pc);
    assert Div(r.pcPa, r.pePa) == Fin(pc / pe);
    WorkProduct(r.mDot.v, r.rGas.v, inp.te.v + 273.15, ln(pc / pe));
  }

  /** The pressure ratio is unit-free and above 1 when 0 < Pe < Pc. */
  lemma PressureRatio(pe: real, pc: real)
    requires 0.0 < pe < pc
    ensures (pc * 100000.0) / (pe * 100000.0) == pc / pe
    ensures pc / pe > 1.0
  {
    assert pc / pe * pe == pc;
  }

  /** The product m·R·T1·ln(ratio) as the source groups it, and its sign. */
  lemma WorkProduct(m: real, rGas: real, t1: real, l: real)
    ensures Mul(Mul(Mul(Fin(m), Fin(rGas)), Fin(t1)), Fin(l)) == Fin(m * rGas * t1 * l)
    ensures m > 0.0 && rGas > 0.0 && t1 > 0.0 && l > 0.0 ==> m * rGas * t1 * l > 0.0
  {
    if m > 0.0 && rGas > 0.0 && t1 > 0.0 && l > 0.0 {
      assert m * rGas > 0.0;
      assert m * rGas * t1 > 0.0;
    }
  }

  /** Q_discharge = W_shaft: the heat the gas carries away is the whole shaft power (finite, nonzero m). */
  lemma DischargeEqualsShaft(r: Prediction)
    requires Discharge(r)
    requires r.mDot.Fin? && r.mDot.v != 0.0 && r.h1.Fin? && r.power.wShaft.Fin?
    ensures r.qDischarge == r.power.wShaft
  {
    var m, h1, w := r.mDot.v, r.h1.v, r.power.wShaft.v;
    assert r.h2a == Fin(h1 + w / m);
    assert m * (h1 + w / m - h1) == w;
  }

  /**
   * The aftercooler never turns a failure into a success and only adds its
   * own lookup as a new way to fail: with the checkbox ticked the solve gives
   * the unticked solve's prediction with the aftercooler section filled in
   * (a soft error text for a NaN target or a target not below T2a), or the
   * failure of the lookup of h(target, Pc).
   */
  lemma AftercoolerOnlyAdds(inp: Inputs, props: PropsSI, ln: real -> real)
    requires inp.coolerEnabled
    ensures var off := Solve(inp.(coolerEnabled := false), props, ln);
      && (off.Err? ==> Solve(inp, props, ln) == off)
      && (off.Ok? && inp.targetTemp.NaN? ==> Solve(inp, props, ln) == Ok(off.value.(cooler := InvalidTarget)))
      && (off.Ok? && !inp.targetTemp.NaN? && Le(off.value.t2a, CelsiusToKelvin(inp.targetTemp)) ==>
            Solve(inp, props, ln) == Ok(off.value.(cooler := TargetNotBelowDischarge)))
      && (off.Ok? && !inp.targetTemp.NaN? && !Le(off.value.t2a, CelsiusToKelvin(inp.targetTemp)) ==>
            var q := EnthalpyAt(CelsiusToKelvin(inp.targetTemp), off.value.pcPa, inp.fluid);
            Solve(inp, props, ln) ==
              match props(q)
              case None => Err(LookupFailed(q))
              case Some(hOut) =>
                Ok(off.value.(cooler := Cooled(CelsiusToKelvin(inp.targetTemp), hOut,
                                               Mul(off.value.mDot, Sub(off.value.h2a, hOut))))))
  {
  }

  /**
   * The aftercooler duty is not negative, provided the backend's enthalpy
   * increases with temperature at Pc and its temperature lookup inverts the
   * enthalpy lookup, the mass flow is positive and the values are finite.
   */
  lemma CoolerLoadNonNegative(inp: Inputs, props: PropsSI, r: Prediction)
    requires DischargeLookups(inp, props, r) && r.cooler.Cooled?
    requires EnthalpyIncreasesWithTemperature(props, inp.fluid, r.pcPa)
    requires TemperatureInvertsEnthalpy(props, inp.fluid, r.pcPa)
    requires r.mDot.Fin? && r.mDot.v > 0.0 && r.h2a.Fin? && r.t2a.Fin? && r.cooler.hOut.Fin?
    ensures r.cooler.qCooler.Fin? && r.cooler.qCooler.v >= 0.0
  {
    var c := r.cooler;
    CoolerEnthalpyBelowDischarge(props, inp.fluid, r.pcPa, r.h2a.v, r.t2a, c.targetK, c.hOut);
    NonNegativeDuty(r.mDot.v, r.h2a.v, c.hOut.v);
  }

  /** m·(h2a − h_out) ≥ 0 for m > 0 and h_out ≤ h2a, as the source computes it. */
  lemma NonNegativeDuty(m: real, h2a: real, hOut: real)
    requires m > 0.0 && hOut <= h2a
    ensures Mul(Fin(m), Sub(Fin(h2a), Fin(hOut))) == Fin(m * (h2a - hOut))
    ensures m * (h2a - hOut) >= 0.0
  {
  }

  /** With a monotone, inverting backend, cooling below T2a at Pc does not raise the enthalpy above h2a. */
  lemma CoolerEnthalpyBelowDischarge(props: PropsSI, fluid: string, pc: Num, h2a: real, t2a: Num, target: Num, hOut: Num)
    requires EnthalpyIncreasesWithTemperature(props, fluid, pc)
    requires TemperatureInvertsEnthalpy(props, fluid, pc)
    requires props(TemperatureAt(pc, Fin(h2a), fluid)) == Some(t2a)
    requires props(EnthalpyAt(target, pc, fluid)) == Some(hOut)
    requires t2a.Fin? && target.Fin? && hOut.Fin? && target.v < t2a.v
    ensures hOut.v <= h2a
  {
    assert props(EnthalpyAt(t2a, pc, fluid)) == Some(Fin(h2a));
    assert FiniteAt(props, EnthalpyAt(Fin(target.v), pc, fluid));
    assert FiniteAt(props, EnthalpyAt(Fin(t2a.v), pc, fluid));
  }

  // ---------------------------------------------------------------------------
  // Module state: the cached report and the calculate/print buttons

  /**
   * `lastMode3ResultText` with the print button and the calculate button's
   * stale look. The cached report text is represented by the prediction it
   * was printed from.
   */
  class Panel {
    var lastResult: Option<Prediction>
    var printDisabled: bool
    var stale: bool

    /** A cached result means a fresh button and an enabled print button. */
    ghost predicate Valid()
      reads this
    {
      && printDisabled == lastResult.None?
      && (lastResult.Some? ==> !stale)
    }

    /** The page as loaded: nothing cached, print disabled, calculate button fresh. */
    constructor ()
      ensures Valid() && lastResult == None && !stale
    {
      lastResult := None;
      printDisabled := true;
      stale := false;
    }

    /**
     * `setButtonStale3`: acts only when the button does not already show the
     * stale text; either way nothing stays cached.
     */
    method SetButtonStale()
      requires Valid()
      modifies this
      ensures Valid() && stale && lastResult == None && printDisabled
      ensures old(stale) ==> unchanged(this)
    {
      if !stale {
        stale := true;
        printDisabled := true;
        lastResult := None;
      }
    }

    /** `setButtonFresh3`. */
    method SetButtonFresh()
      modifies this`stale
      ensures !stale
    {
      stale := false;
    }

    /**
     * `calculateMode3`: a success caches the prediction, freshens the button
     * and enables printing; an error clears the cache, disables printing and
     * leaves the button as it was.
     */
    method Calculate(inp: Inputs, props: PropsSI, ln: real -> real)
      requires Valid()
      modifies this
      ensures Valid()
      ensures Solve(inp, props, ln).Ok? ==> lastResult == Some(Solve(inp, props, ln).value) && !stale
      ensures Solve(inp, props, ln).Err? ==> lastResult == None && stale == old(stale)
    {
      var outcome := Solve(inp, props, ln);
      if outcome.Ok? {
        lastResult := Some(outcome.value);
        SetButtonFresh();
        printDisabled := false;
      } else {
        lastResult := None;
        printDisabled := true;
      }
    }
  }
}
