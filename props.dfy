/**
 * The fluid-property backend as the solvers call it: CoolProp's
 * `PropsSI(output, key1, value1, key2, value2, fluid)`. Its equation of state is
 * not modelled; a solver receives it as a total function that answers None
 * where the library throws.
 */
module Props {
  import opened Results
  import opened JsNumber

  /** The keys the solvers pass; NoKey is the empty string used with the fluid constants. */
  datatype Key = P | T | H | S | D | Q | GasConstant | MolarMass | NoKey

  datatype Query = Query(output: Key, key1: Key, value1: Num, key2: Key, value2: Num, fluid: string)

  type PropsSI = Query -> Option<Num>

  /** `PropsSI(k, '', 0, '', 0, fluid)`: a constant of the fluid. */
  function ConstantQuery(k: Key, fluid: string): Query {
    Query(k, NoKey, Zero, NoKey, Zero, fluid)
  }

  /** The query answers with a finite number. */
  predicate FiniteAt(props: PropsSI, q: Query) {
    props(q).Some? && props(q).value.Fin?
  }

  /** `PropsSI('H', 'T', t, 'P', p, fluid)`. */
  function EnthalpyAt(t: Num, p: Num, fluid: string): Query {
    Query(H, T, t, P, p, fluid)
  }

  /** `PropsSI('T', 'P', p, 'H', h, fluid)`. */
  function TemperatureAt(p: Num, h: Num, fluid: string): Query {
    Query(T, P, p, H, h, fluid)
  }

  /** At pressure p, the enthalpy the backend gives for finite temperatures increases with the temperature. */
  ghost predicate EnthalpyIncreasesWithTemperature(props: PropsSI, fluid: string, p: Num) {
    forall t1: real, t2: real ::
      t1 <= t2 && FiniteAt(props, EnthalpyAt(Fin(t1), p, fluid)) && FiniteAt(props, EnthalpyAt(Fin(t2), p, fluid)) ==>
        props(EnthalpyAt(Fin(t1), p, fluid)).value.v <= props(EnthalpyAt(Fin(t2), p, fluid)).value.v
  }

  /** At pressure p, looking up the temperature of an enthalpy and then the enthalpy of that temperature gives it back. */
  ghost predicate TemperatureInvertsEnthalpy(props: PropsSI, fluid: string, p: Num) {
    forall h: real ::
      FiniteAt(props, TemperatureAt(p, Fin(h), fluid)) ==>
        props(EnthalpyAt(props(TemperatureAt(p, Fin(h), fluid)).value, p, fluid)) == Some(Fin(h))
  }
}
