# Oil-injected compressor calculator: a Dafny model of its three solvers

The calculator works out the performance of oil-injected compressors in three modes:

- **Mode 1, evaluation** (`calculateMode1`). From a measured capacity, power and discharge temperature it back-calculates:
  - the mass flow;
  - the volumetric efficiency η_v;
  - the split of the shaft power into the heat the gas takes (Q_gas) and the heat the oil takes (Q_oil).

  The last result can be copied into the Mode 2 form (`transferToMode2`).
- **Mode 2, refrigeration / heat-pump prediction** (`calculateMode2`). From η_v, the isentropic efficiency and an estimated discharge temperature it predicts:
  - mass flow, shaft power and input power;
  - the oil-cooling load, clamped to 0 when no oil cooling is needed;
  - the evaporator and condenser duties and the three COPs.
- **Mode 3, gas compression** (`calculateMode3`). From η_v and the isothermal efficiency it predicts:
  - the isothermal work m·(R/M)·T1·ln(Pc/Pe);
  - shaft and input power;
  - the adiabatic discharge state and the heat it carries;
  - optionally, an aftercooler duty.

Each mode also keeps a little state:
- a cached result;
- the print button, plus the transfer button in Mode 1;
- the calculate button's "stale" look, set by any input change.

How the model is built:

- **Numbers.** Numbers are JavaScript numbers (`JsNumber.Num`): NaN, ±Infinity, or a finite value held as an exact real. A form field read with `parseFloat` is a `Field`, which is NaN or finite. The arithmetic and the comparisons follow JavaScript on these three kinds. A comparison with NaN is false, zero over zero is NaN, and a nonzero value over zero is an infinity. This matters because several checks in the source are not made: Mode 2 never checks the motor efficiency, the superheat or the divisors.
- **Property library.** The property library (`PropsSI`) is an oracle passed to each solver as a function from a query to `Some(value)` or `None` (it throws). The fluid's gas constant and molar mass are queries of the same oracle. `Math.log` is a parameter `ln` on positive reals.
- **Solvers.** Each solver is a function `Solve` that returns the full result or the error of the throw site that stopped it. Errors that come from a lookup carry the query, so the order of the lookups is visible.
- **State.** Each mode's module state is a class `Panel`. Its methods model the stale handler, the fresh handler and the calculate handler's success and catch paths. The cached report text is represented by the result it was printed from.
- **Mode 1 page.** The Mode 1 page is also described as a pure state machine. `Step` gives the effect of one event: an input edit, a submit, or a print or transfer click. `Replay` runs a whole sequence of events. The `Panel` methods are proved to take exactly those steps.

Most properties are stated in two steps, so that no proof has to unfold a whole solver:
- `SolveLayout` (and `OilClamp`, `SolveLookups`) says that every result of `Solve` satisfies the predicates that describe how the result hangs together (`Layout` and its parts).
- The property lemmas are then proved for every result that satisfies those predicates.

Three behaviours of the code are easy to miss:
- **Q_oil is never rejected.** Mode 2 clamps Q_oil to 0 when the no-oil discharge temperature is below the estimate. Mode 1 never checks the sign of Q_oil.
- **Mode 2 does not always use the estimate.** Mode 2 takes the no-oil state as state 2a when that state is cooler than the estimated discharge temperature.
- **η_v is rounded on transfer.** The transfer to Mode 2 writes η_v with three decimals, and writes 0.85 when it is missing.

## Model

| member | source | states |
|---|---|---|
| JsNumber.ToFixed3 | js/mode1_oil_eval.js:368 | η_v written with three decimals is within 0.0005 of η_v and a whole number of thousandths; NaN and infinities are left as they are |
| Conversions.SpeedFlowSpellingsAgree | js/mode1_oil_eval.js:125 | Mode 1's `(disp/1e6)·(rpm/60)` and Modes 2/3's `rpm·(disp/1e6)/60` are the same flow, rpm·disp/6e7 m³/s |
| Conversions.SpeedFlowMatchesVolumeFlow | js/mode3_oil_gas.js:95-102 | the speed flow equals the volume flow of rpm·disp·60/1e6 m³/h, so both flow modes agree |
| Conversions.SpeedFlowPositive | js/mode3_oil_gas.js:92-95 | a positive speed and displacement give a positive flow in both spellings |
| Efficiency.Resolve | js/mode2_oil_refrig.js:98-105 | for finite nonzero inputs, on either basis: W_shaft·η_shaft = W_input·η_total = W_ideal, W_input·η_motor = W_shaft and η_total = η_shaft·η_motor, with the given efficiency kept on its own basis |
| Efficiency.BasisRoundTrip | js/mode3_oil_gas.js:143-166 | the shaft basis with η gives the same powers and efficiencies as the input basis with η·η_motor |
| EvaluationMode.RejectionOrder | js/mode1_oil_eval.js:77-85 | a NaN capacity, power, Te, Tc, superheat, subcooling or T2a is rejected first; then a NaN speed in speed mode; then a NaN motor efficiency in input-power mode; a success passed all three |
| EvaluationMode.Solve | js/mode1_oil_eval.js:53-275 | a success passed the up-front checks and has a positive finite Qe and V_th; a lookup error names a query the backend could not answer; the other properties of a result are in `SolveLayout`, `SolveLookups`, `MassFlowAndEfficiency`, `OilHeatSplit` and `OilSplitIsSoft` |
| EvaluationMode.PowerAndCapacityMeaning | js/mode1_oil_eval.js:91-115 | W_shaft is the entered power (shaft mode) or power·η_motor (input mode); Qh = Qe + W_shaft in both capacity modes; the stage fails exactly when Qe ≤ 0 |
| EvaluationMode.FlowMeaning | js/mode1_oil_eval.js:119-132 | speed mode: V_th = (disp/1e6)·(rpm/60) with the m³/h figure V_th·3600, and rpm ≤ 0 is rejected; volume mode: V_th = flow/3600; V_th > 0 on success |
| EvaluationMode.SolveLayout | js/mode1_oil_eval.js:135-150 | every evaluation passed the checks, has h4 = h3, h1 − h4 not ≤ 0 (a NaN difference is not caught), m = Qe/(h1 − h4), v1 = 1/ρ1, V_act = m·v1 and η_v = V_act/V_th |
| EvaluationMode.SolveLookups | js/mode1_oil_eval.js:135-143 | Pe is looked up at quality 1 and Pc at quality 0; h1 and ρ1 at (Te + 273.15 + superheat, Pe); h3 at (Tc + 273.15 − subcooling, Pc); the split is the one `OilHeatSplit` makes |
| EvaluationMode.MassFlowAndEfficiency | js/mode1_oil_eval.js:146-150 | m > 0 and m·(h1 − h4) = Qe; η_v is positive exactly when ρ1 is; V_th·η_v·ρ1 gives m back, the forward relation Modes 2 and 3 use |
| EvaluationMode.BackCalculation | js/mode1_oil_eval.js:148-150 | the same back-calculation over reals |
| EvaluationMode.OilHeatSplit | js/mode1_oil_eval.js:153-171 | the split is missing exactly when m ≤ 0 or the h2a lookup fails; otherwise h2a is looked up at (T2a, Pc), Q_gas = m·(h2a − h1)/1000 and Q_gas + Q_oil = W_shaft in kW; Q_oil's sign is not constrained |
| EvaluationMode.OilSplitIsSoft | js/mode1_oil_eval.js:153-171 | two backends that differ only in the h2a lookup (when that query is not also the h1 or h3 query) give the same outcome and the same evaluation apart from the split |
| EvaluationMode.CacheRecordCached | js/mode1_oil_eval.js:244-260 | the cached record of a success holds numbers for the operating point and the active flow fields, and η_v only when it is not NaN |
| EvaluationMode.Transfer | js/mode1_oil_eval.js:333-397 | no transfer without a cached record; otherwise always shaft basis with η_s = 0.7, operating point and active flow fields copied, η_v rounded to a whole number of thousandths within 0.0005 of the cached one, NaN when the cached one is infinite, 0.85 when missing, T2a estimate, motor efficiency and the other flow mode's fields untouched |
| EvaluationMode.TransferPassesNumberChecks | js/mode1_oil_eval.js:339-369 | a Mode 2 form seeded from a success (finite or missing η_v) passes Mode 2's NaN check and its flow check |
| EvaluationMode.Step | js/mode1_oil_eval.js:441-475 | an input edit leaves no report cached and the button stale; print and transfer clicks change nothing; after a submit a report is cached exactly when the solve succeeded |
| EvaluationMode.ReplayShowsLastSuccess | js/mode1_oil_eval.js:441-475 | after any sequence of edits, submits and clicks since the page loaded, both caches hold the last successful submit not followed by an edit (and nothing otherwise), transfer and print are enabled exactly then, and the button is then fresh |
| EvaluationMode.Panel.constructor | js/mode1_oil_eval.js:13-14 | the page state as loaded: nothing cached, transfer and print disabled |
| EvaluationMode.Panel.SetButtonStale | js/mode1_oil_eval.js:30-38 | the panel takes the step of an input edit and keeps its invariant |
| EvaluationMode.Panel.SetButtonFresh | js/mode1_oil_eval.js:43-47 | the button shows fresh |
| EvaluationMode.Panel.Calculate | js/mode1_oil_eval.js:240-274 | the panel takes the step of a submit and keeps its invariant: the caches and buttons stay in step and a cached record is one a success leaves |
| EvaluationMode.Panel.TransferTo | js/mode1_oil_eval.js:333-337 | the Mode 2 form is unchanged without a cached record and seeded from it otherwise |
| RefrigerationMode.RejectionOrder | js/mode2_oil_refrig.js:69-85 | T2a_est ≤ Tc is rejected first, then subcooling < 0, then a NaN Te, η_v or η_s; a success also had numbers in its flow fields |
| RefrigerationMode.Solve | js/mode2_oil_refrig.js:55-172 | a success passed the up-front checks and has the flow stage's V_th; a lookup error names a query the backend could not answer; any other error comes from the checks or the flow stage; the other properties of a result are in `SolveLayout`, `OilClamp`, `StateProvenance`, `EnergyBalance`, `CopRelation` and `OilLoadNonNegative` |
| RefrigerationMode.UncheckedFields | js/mode2_oil_refrig.js:69-71 | the checks ignore superheat and motor efficiency, and a NaN T2a_est passes the first check |
| RefrigerationMode.NaNMotorEfficiencyReachesReport | js/mode2_oil_refrig.js:99-120 | on the shaft basis a NaN motor efficiency yields a successful report with NaN input power, total efficiency and COPs |
| RefrigerationMode.FlowHasNoPositivityCheck | js/mode2_oil_refrig.js:73-85 | V_th = rpm·(disp/1e6)/60 or flow/3600 with no sign check; a zero speed gives a zero flow |
| RefrigerationMode.StateProvenance | js/mode2_oil_refrig.js:87-93 | Pe and Pc both at quality 1; t1 = Te + 273.15 + superheat; h1, s1, ρ1 at (t1, Pe); h2s at (Pc, s1); h3 at (Tc + 273.15 − subcooling, Pc) |
| RefrigerationMode.SolveLayout | js/mode2_oil_refrig.js:95-120 | every prediction has V_act = V_th·η_v, m = V_act·ρ1, Ws = m·(h2s − h1), the basis-resolved powers, the discharge shape, Q_evap = m·(h1 − h4), Q_cond = m·(h2a − h3), Q_total_heat = W_shaft + Q_evap and COPs that divide by W_input |
| RefrigerationMode.OilClamp | js/mode2_oil_refrig.js:107-117 | the no-oil branch is taken exactly when T(Pc, h1 + W_shaft/m) < T2a_est; otherwise h2a = h(T2a_est, Pc) at T2a_est |
| RefrigerationMode.DischargeState | js/mode2_oil_refrig.js:107-117 | h2a_no_oil = h1 + W_shaft/m and its temperature is looked up at Pc; no oil cooling exactly when that temperature is below T2a_est (in K), and then Q_oil = 0 and state 2a is the no-oil state; otherwise state 2a is h(T2a_est, Pc) at T2a_est and Q_oil = W_shaft − m·(h2a − h1); a failure is one of those two lookups, unanswered |
| RefrigerationMode.DischargeBalance | js/mode2_oil_refrig.js:107-117 | in both branches m·(h2a − h3) + Q_oil = W_shaft + m·(h1 − h3) |
| RefrigerationMode.EnergyBalance | js/mode2_oil_refrig.js:107-119 | Q_total_heat = W_shaft + Q_evap = Q_cond + Q_oil in both branches, for finite values |
| RefrigerationMode.CopRelation | js/mode2_oil_refrig.js:119-120 | COP_H_total = COP_R + W_shaft/W_input = COP_H_cond + Q_oil/W_input |
| RefrigerationMode.OilLoadSign | js/mode2_oil_refrig.js:116 | Q_oil ≥ 0 when h2a ≤ h1 + W_shaft/m and m > 0 |
| RefrigerationMode.EstimateEnthalpyBelowNoOil | js/mode2_oil_refrig.js:108-115 | with a monotone, inverting backend an estimate not below the no-oil temperature has an enthalpy not above the no-oil enthalpy |
| RefrigerationMode.OilLoadNonNegative | js/mode2_oil_refrig.js:107-117 | for a positive mass flow, the oil load is never negative, given enthalpy increasing with temperature and a temperature lookup that inverts it |
| RefrigerationMode.NegativeSpeedAccepted | js/mode2_oil_refrig.js:74-78 | a negative speed with a positive displacement passes the flow stage and gives a negative V_th |
| RefrigerationMode.NegativeFlowReversesMassFlow | js/mode2_oil_refrig.js:95-96 | a negative V_th with positive η_v and ρ1 gives a negative mass flow |
| RefrigerationMode.NegativeMassFlowGivesNegativeOilLoad | js/mode2_oil_refrig.js:107-117 | with a backend that is monotone and inverting (temperature equals enthalpy), m = −1 kg/s gives a discharge state without error and a negative Q_oil, so the positive mass flow of `OilLoadNonNegative` is needed |
| RefrigerationMode.Panel.constructor | js/mode2_oil_refrig.js:9 | nothing cached at load |
| RefrigerationMode.Panel.SetButtonStale | js/mode2_oil_refrig.js:19-27 | acts only when the button is not already stale; afterwards nothing is cached and print is disabled |
| RefrigerationMode.Panel.SetButtonFresh | js/mode2_oil_refrig.js:29-35 | the button shows fresh |
| RefrigerationMode.Panel.Calculate | js/mode2_oil_refrig.js:161-171 | success caches the prediction, freshens the button and enables print; an error clears the cache and disables print |
| GasMode.RejectionOrder | js/mode3_oil_gas.js:72-83 | a NaN or non-positive pressure or NaN Te is rejected first, then Pc ≤ Pe, then a NaN or non-positive η_v or η_iso, then (input basis) a NaN or non-positive motor efficiency |
| GasMode.Solve | js/mode3_oil_gas.js:52-248 | a success passed the up-front checks and the motor check and has the flow stage's positive V_th; a lookup or isothermal-work error names a query the backend could not answer; a motor error on the shaft basis means a NaN or non-positive motor efficiency; the other properties of a result are in `SolveLayout`, `SolveLookups`, `IsothermalWork`, `DischargeEqualsShaft` and `CoolerLoadNonNegative` |
| GasMode.TheoreticalFlow | js/mode3_oil_gas.js:86-104 | accepted exactly for a positive speed and displacement, or a positive flow, with the matching error otherwise; the flow is then rpm·disp/6e7 or flow/3600 and positive |
| GasMode.SolveLayout | js/mode3_oil_gas.js:107-174 | every prediction passed the checks, has Pa = bar·1e5, T1 = Te + 273.15, V_act = V_th·η_v, m = V_act·ρ1, W_iso = m·R·T1·ln(Pc/Pe), positive η_iso and motor efficiency, the basis-resolved powers, h2a = h1 + W_shaft/m and Q_discharge = m·(h2a − h1) |
| GasMode.SolveLookups | js/mode3_oil_gas.js:112-196 | h1 and ρ1 at (T1, Pe), R = gas constant / molar mass, T2a at (Pc, h2a), and the aftercooler section as decided |
| GasMode.ConstantFailuresAbort | js/mode3_oil_gas.js:126-166 | a failed gas-constant or molar-mass lookup aborts the solve, and only those two lookups give the wrapped error; the post-work motor check can only fail on the shaft basis |
| GasMode.SpecificGasConstant | js/mode3_oil_gas.js:124-136 | R = gas constant / molar mass; it fails exactly when one of the two lookups fails, the gas constant being asked first, and the failure names that lookup |
| GasMode.IsothermalWork | js/mode3_oil_gas.js:107-131 | W_iso = m·R·(Te + 273.15)·ln(Pc/Pe) with Pc/Pe > 1, and W_iso > 0 when m, R, T1 and ln(Pc/Pe) are positive |
| GasMode.PressureRatio | js/mode3_oil_gas.js:107-131 | the ratio of the pressures in Pa is the ratio in bar, and it is above 1 |
| GasMode.WorkProduct | js/mode3_oil_gas.js:131 | the grouped product m·R·T1·ln is finite and positive for positive factors |
| GasMode.DischargeEqualsShaft | js/mode3_oil_gas.js:171-174 | Q_discharge = W_shaft for a finite nonzero mass flow |
| GasMode.Aftercooler | js/mode3_oil_gas.js:178-196 | unticked gives no section, a NaN target a soft error, a target not below T2a exactly the other soft error; a failure is the lookup of h(target, Pc); a duty has its target below T2a and is m·(h2a − h_out) |
| GasMode.AftercoolerOnlyAdds | js/mode3_oil_gas.js:178-196 | ticking the aftercooler never changes a failure; a NaN target or a target not below T2a gives the same prediction with a soft error; otherwise the same prediction with Q_cooler = m·(h2a − h(target, Pc)), or the failure of that lookup |
| GasMode.NonNegativeDuty | js/mode3_oil_gas.js:189 | m·(h2a − h_out) ≥ 0 for m > 0 and h_out ≤ h2a |
| GasMode.CoolerEnthalpyBelowDischarge | js/mode3_oil_gas.js:185-188 | with a monotone, inverting backend a target below T2a has an enthalpy not above h2a |
| GasMode.CoolerLoadNonNegative | js/mode3_oil_gas.js:184-189 | the aftercooler duty is never negative under those backend properties and m > 0 |
| GasMode.Panel.constructor | js/mode3_oil_gas.js:13 | nothing cached at load |
| GasMode.Panel.SetButtonStale | js/mode3_oil_gas.js:31-39 | acts only when the button is not already stale; afterwards nothing is cached and print is disabled |
| GasMode.Panel.SetButtonFresh | js/mode3_oil_gas.js:41-47 | the button shows fresh |
| GasMode.Panel.Calculate | js/mode3_oil_gas.js:237-247 | success caches the prediction, freshens the button and enables print; an error clears the cache and disables print |

## Left out

- Report strings, `toFixed` formatting of the report and `trim`: the cached text is represented by the result value it was printed from.
- Printing (`printReportMode1/2/3`, `callPrint`, `window.print`, `setTimeout`): I/O and timers.
- The DOM side effects of `transferToMode2` (radio `change` events, the tab click, alerts, the message in the Mode 2 results box, the stale event it sends to Mode 2): only the values it writes are modelled.
- `updateFluidInfo`: coolprop_loader.js is not part of this model.
- `updateAndDisplayEfficienciesM2` and `triggerMode2EfficiencyUpdate`: `calculateEmpiricalEfficiencies` comes from efficiency_models.js, which is not part of this model.
- js/ui.js and js/main.js: tab switching, show/hide and the asynchronous loading of the property library.
- The property library's internals and `Math.log`: they are parameters. The oil-load and aftercooler sign lemmas take monotonicity and inversion of the backend as explicit hypotheses.
- IEEE-754 rounding and signed zero: finite numbers are exact reals, so identities hold exactly, not to within rounding.
- Infinite form values: a form field is NaN or finite. A number written into a Mode 2 number field reads back as NaN when it is an infinity (`FormValue`), which assumes the Mode 2 fields are number inputs (the HTML is not part of this model).
- HTML form validation (`required`, `min`): the model treats every field as whatever `parseFloat` returns.
- The buttons' initial state (the HTML is not part of this model): each `Panel` starts with nothing cached, its buttons disabled and the calculate button fresh. The null checks on the button elements are not modelled.
