/**
 * The efficiency basis shared by the two prediction modes: the user gives
 * either the efficiency referred to shaft power or the one referred to motor
 * input power, and the solver derives the other together with both powers.
 */
module Efficiency {
  import opened JsNumber

  /** The efficiency radio button: 'shaft' or 'input'. */
  datatype Basis = ShaftBasis | InputBasis

  datatype PowerSplit = PowerSplit(wShaft: Num, wInput: Num, etaShaft: Num, etaTotal: Num)

  /**
   * Shaft and input power from the ideal power `wIdeal`, the given efficiency
   * `eta` and the motor efficiency, and the efficiency on the other basis.
   * For finite, nonzero inputs the four results are consistent whichever
   * basis is chosen: W_shaft·η_shaft = W_input·η_total = W_ideal,
   * W_input·η_motor = W_shaft and η_total = η_shaft·η_motor; the given
   * efficiency is kept on its own basis.
   */
  function Resolve(basis: Basis, eta: Num, motor: Num, wIdeal: Num): (s: PowerSplit)
    ensures eta.Fin? && motor.Fin? && wIdeal.Fin? && eta.v != 0.0 && motor.v != 0.0 && wIdeal.v != 0.0 ==>
      && s.wShaft.Fin? && s.wInput.Fin? && s.etaShaft.Fin? && s.etaTotal.Fin?
      && s.wShaft.v * s.etaShaft.v == wIdeal.v
      && s.wInput.v * s.etaTotal.v == wIdeal.v
      && s.wInput.v * motor.v == s.wShaft.v
      && s.etaTotal.v == s.etaShaft.v * motor.v
      && (basis == ShaftBasis ==> s.etaShaft == eta)
      && (basis == InputBasis ==> s.etaTotal == eta)
  {
    match basis
    case ShaftBasis =>
      var wShaft := Div(wIdeal, eta);
      var wInput := Div(wShaft, motor);
      PowerSplit(wShaft, wInput, eta, Div(wIdeal, wInput))
    case InputBasis =>
      var wInput := Div(wIdeal, eta);
      var wShaft := Mul(wInput, motor);
      PowerSplit(wShaft, wInput, Div(wIdeal, wShaft), eta)
  }

  /**
   * Resolving on the shaft basis with η, or on the input basis with the
   * total efficiency η·η_motor, gives the same powers and efficiencies.
   */
  lemma BasisRoundTrip(eta: real, motor: real, wIdeal: real)
    requires eta != 0.0 && motor != 0.0 && wIdeal != 0.0
    ensures Resolve(ShaftBasis, Fin(eta), Fin(motor), Fin(wIdeal))
         == Resolve(InputBasis, Fin(eta * motor), Fin(motor), Fin(wIdeal))
  {
    NonzeroProduct(eta, motor);
    var s1 := Resolve(ShaftBasis, Fin(eta), Fin(motor), Fin(wIdeal));
    var s2 := Resolve(InputBasis, Fin(eta * motor), Fin(motor), Fin(wIdeal));
    CancelFactor(s2.etaShaft.v, eta, motor);
    CancelFactor(s1.wShaft.v, s2.wShaft.v, eta);
    CancelFactor(s1.wInput.v, s2.wInput.v, motor);
  }

  /** A product of nonzero reals is nonzero. */
  lemma NonzeroProduct(a: real, b: real)
    requires a != 0.0 && b != 0.0
    ensures a * b != 0.0
  {
  }

  /** A nonzero common factor cancels. */
  lemma CancelFactor(x: real, y: real, c: real)
    requires c != 0.0 && x * c == y * c
    ensures x == y
  {
    assert (x - y) * c == 0.0;
  }
}
