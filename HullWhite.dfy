/**
 * HullWhiteFunction.HullWhiteCompiledFunction: the property handling shared
 * by the pricing functions that use Hull-White one-factor curves: which
 * constraints must be set, which properties the curves are asked for, what
 * properties the results carry, and how curve-building blocks are merged
 * from the function's inputs.
 */
module HullWhiteFunctions {

  import opened Base
  import opened Values

  // Property and value names (defined outside this model; only their distinctness matters).
  const CURRENCY: string := "Currency"
  const CURVE_EXPOSURES: string := "CurveExposures"
  const PROPERTY_CURVE_TYPE: string := "CurveType"
  const HULL_WHITE_DISCOUNTING: string := "HullWhiteDiscounting"
  const PROPERTY_HULL_WHITE_PARAMETERS: string := "HullWhiteOneFactorParameters"
  const PROPERTY_HULL_WHITE_CURRENCY: string := "HullWhiteCurrency"
  const CURVE_BUNDLE: string := "CurveBundle"
  const JACOBIAN_BUNDLE: string := "JacobianBundle"

  /** The notional of a swap leg. */
  datatype Notional = InterestRateNotional(currency: string) | OtherNotional

  /**
   * The trade's security, reduced to what the currency choice looks at.
   * `currency` is what FinancialSecurityUtils.getCurrency answers (null for
   * a security without a single currency); `payCurrency` is what the forex
   * pay-currency visitor answers.
   */
  datatype Security =
    | SwapSecurity(isCrossCurrency: bool, payLegNotional: Notional, currency: Option<string>)
    | FXForwardSecurity(payCurrency: string)
    | NonDeliverableFXForwardSecurity(payCurrency: string)
    | OtherSecurity(currency: Option<string>)

  /** The compiled function's own state: whether results carry a CURRENCY property. */
  datatype HullWhiteCompiledFunction = HullWhiteCompiledFunction(withCurrency: bool)

  /** The property holds exactly one value (a wildcard holds none). */
  predicate HasSingleValue(constraints: Properties, name: string)
  {
    name in constraints && |constraints[name]| == 1
  }

  /**
   * requirementsSet: curve exposures are named (any values, even a wildcard),
   * and the Hull-White parameters and currency are each pinned to one value.
   */
  function RequirementsSet(constraints: Properties): (ok: bool)
    ensures CURVE_EXPOSURES !in constraints ==> !ok
    ensures ok <==> CURVE_EXPOSURES in constraints
                    && HasSingleValue(constraints, PROPERTY_HULL_WHITE_PARAMETERS)
                    && HasSingleValue(constraints, PROPERTY_HULL_WHITE_CURRENCY)
  {
    var curveExposureConfigs := GetValues(constraints, CURVE_EXPOSURES);
    if curveExposureConfigs.None? then false
    else
      var hullWhiteParameters := GetValues(constraints, PROPERTY_HULL_WHITE_PARAMETERS);
      if hullWhiteParameters.None? || |hullWhiteParameters.value| != 1 then false
      else
        var hullWhiteCurrencies := GetValues(constraints, PROPERTY_HULL_WHITE_CURRENCY);
        !(hullWhiteCurrencies.None? || |hullWhiteCurrencies.value| != 1)
  }

  /**
   * getCurveProperties: exactly the two Hull-White properties, their value
   * sets copied from the constraints. The builder refuses a null value set,
   * the parameters being added first.
   */
  function GetCurveProperties(constraints: Properties): (r: Result<Properties>)
    ensures r.Success? <==> PROPERTY_HULL_WHITE_PARAMETERS in constraints && PROPERTY_HULL_WHITE_CURRENCY in constraints
    ensures PROPERTY_HULL_WHITE_PARAMETERS !in constraints ==> r == Failure(NullArgument(PROPERTY_HULL_WHITE_PARAMETERS))
    ensures r.Success? ==> r.value.Keys == {PROPERTY_HULL_WHITE_PARAMETERS, PROPERTY_HULL_WHITE_CURRENCY}
    ensures r.Success? ==> forall n :: n in r.value ==> r.value[n] == constraints[n]
  {
    var currency := GetValues(constraints, PROPERTY_HULL_WHITE_CURRENCY);
    var hullWhiteParameters := GetValues(constraints, PROPERTY_HULL_WHITE_PARAMETERS);
    if hullWhiteParameters.None? then Failure(NullArgument(PROPERTY_HULL_WHITE_PARAMETERS))
    else if currency.None? then Failure(NullArgument(PROPERTY_HULL_WHITE_CURRENCY))
    else Success(map[PROPERTY_HULL_WHITE_PARAMETERS := hullWhiteParameters.value,
                     PROPERTY_HULL_WHITE_CURRENCY := currency.value])
  }

  /** Once the requirements are set, the curve properties exist and pin each Hull-White property to one value. */
  lemma CurvePropertiesOfSetRequirements(constraints: Properties)
    requires RequirementsSet(constraints)
    ensures GetCurveProperties(constraints).Success?
    ensures var p := GetCurveProperties(constraints).value;
      HasSingleValue(p, PROPERTY_HULL_WHITE_PARAMETERS) && HasSingleValue(p, PROPERTY_HULL_WHITE_CURRENCY)
      && RequirementsSet(p[CURVE_EXPOSURES := constraints[CURVE_EXPOSURES]])
  {
    var p := GetCurveProperties(constraints).value;
    var q := p[CURVE_EXPOSURES := constraints[CURVE_EXPOSURES]];
    assert q[PROPERTY_HULL_WHITE_PARAMETERS] == constraints[PROPERTY_HULL_WHITE_PARAMETERS];
    assert q[PROPERTY_HULL_WHITE_CURRENCY] == constraints[PROPERTY_HULL_WHITE_CURRENCY];
  }

  /**
   * The CURRENCY a result carries, by security kind: the pay leg's currency
   * for a cross-currency swap with an interest-rate notional pay leg, the
   * pay currency for an FX forward (deliverable or not), the security's
   * currency otherwise (a NullPointerException when it has none).
   */
  function ResultCurrency(security: Security): (r: Result<string>)
    ensures security.SwapSecurity? && security.isCrossCurrency && security.payLegNotional.InterestRateNotional?
            ==> r == Success(security.payLegNotional.currency)
    ensures security.FXForwardSecurity? || security.NonDeliverableFXForwardSecurity? ==> r == Success(security.payCurrency)
    ensures security.OtherSecurity? || (security.SwapSecurity? && !(security.isCrossCurrency && security.payLegNotional.InterestRateNotional?))
            ==> r == (if security.currency.Some? then Success(security.currency.value) else Failure(NullPointer))
    ensures r.Failure? ==> r.error == NullPointer && (security.SwapSecurity? || security.OtherSecurity?) && security.currency.None?
  {
    if security.SwapSecurity? && security.isCrossCurrency && security.payLegNotional.InterestRateNotional? then
      Success(security.payLegNotional.currency)
    else if security.FXForwardSecurity? || security.NonDeliverableFXForwardSecurity? then
      Success(security.payCurrency)
    else if security.currency.Some? then
      Success(security.currency.value)
    else
      Failure(NullPointer)
  }

  /** The names getResultProperties always sets. */
  function FixedResultNames(): (names: set<string>)
  {
    {PROPERTY_CURVE_TYPE, CURVE_EXPOSURES, PROPERTY_HULL_WHITE_PARAMETERS, PROPERTY_HULL_WHITE_CURRENCY}
  }

  /**
   * getResultProperties: `base` is what createValueProperties() gives. The
   * curve type is fixed to Hull-White discounting, the exposures and both
   * Hull-White properties become wildcards, and with `withCurrency` the
   * CURRENCY chosen by security kind is set.
   */
  method GetResultProperties(fn: HullWhiteCompiledFunction, base: Properties, security: Security)
    returns (r: Result<Properties>)
    ensures r.Failure? <==> fn.withCurrency && ResultCurrency(security).Failure?
    ensures r.Success? ==> r.value.Keys == base.Keys + FixedResultNames() + (if fn.withCurrency then {CURRENCY} else {})
    ensures r.Success? ==> r.value[PROPERTY_CURVE_TYPE] == {HULL_WHITE_DISCOUNTING}
    ensures r.Success? ==> r.value[CURVE_EXPOSURES] == {} && r.value[PROPERTY_HULL_WHITE_PARAMETERS] == {}
                           && r.value[PROPERTY_HULL_WHITE_CURRENCY] == {}
    ensures r.Success? && fn.withCurrency ==> r.value[CURRENCY] == {ResultCurrency(security).value}
    ensures r.Success? ==> forall n :: n in base && n !in FixedResultNames() && (fn.withCurrency ==> n != CURRENCY)
                                       ==> r.value[n] == base[n]
  {
    var properties := With(base, PROPERTY_CURVE_TYPE, HULL_WHITE_DISCOUNTING);
    properties := WithAny(properties, CURVE_EXPOSURES);
    properties := WithAny(properties, PROPERTY_HULL_WHITE_PARAMETERS);
    properties := WithAny(properties, PROPERTY_HULL_WHITE_CURRENCY);
    if fn.withCurrency {
      if security.SwapSecurity? && security.isCrossCurrency {
        if security.payLegNotional.InterestRateNotional? {
          properties := With(properties, CURRENCY, security.payLegNotional.currency);
          return Success(properties);
        }
      }
      if security.FXForwardSecurity? || security.NonDeliverableFXForwardSecurity? {
        properties := With(properties, CURRENCY, security.payCurrency);
      } else {
        if security.currency.None? {
          return Failure(NullPointer);
        }
        properties := With(properties, CURRENCY, security.currency.value);
      }
    }
    return Success(properties);
  }

  /** The input is a Jacobian bundle by name. */
  predicate IsJacobianInput(c: ComputedValue)
  {
    c.specification.valueName == JACOBIAN_BUNDLE
  }

  /**
   * The merged bundle of the inputs in iteration order: each Jacobian input's
   * blocks are added (a later block replaces an earlier one of the same
   * curve); a Jacobian input that does not hold a bundle fails the cast.
   */
  function MergedBlocks(inputs: seq<ComputedValue>): (r: Result<map<string, int>>)
    ensures r.Failure? ==> r.error == ClassCast
    decreases |inputs|
  {
    if inputs == [] then Success(map[])
    else
      var acc := MergedBlocks(inputs[..|inputs| - 1]);
      var last := inputs[|inputs| - 1];
      if acc.Failure? then acc
      else if !IsJacobianInput(last) then acc
      else if last.value.BuildingBlocks? then Success(acc.value + last.value.blocks)
      else Failure(ClassCast)
  }

  /** getMergedCurveBuildingBlocks. */
  method GetMergedCurveBuildingBlocks(inputs: seq<ComputedValue>) returns (r: Result<map<string, int>>)
    ensures r == MergedBlocks(inputs)
  {
    var result: map<string, int> := map[];
    var k := 0;
    while k < |inputs|
      invariant 0 <= k <= |inputs|
      invariant MergedBlocks(inputs[..k]) == Success(result)
      decreases |inputs| - k
    {
      var input := inputs[k];
      assert inputs[..k + 1][..k] == inputs[..k];
      if input.specification.valueName == JACOBIAN_BUNDLE {
        if !input.value.BuildingBlocks? {
          MergedBlocksFailureSticks(inputs, k + 1);
          return Failure(ClassCast);
        }
        result := result + input.value.blocks;
      }
      k := k + 1;
    }
    assert inputs[..k] == inputs;
    return Success(result);
  }

  /** Once a prefix fails, the whole sequence fails the same way. */
  lemma {:induction false} MergedBlocksFailureSticks(inputs: seq<ComputedValue>, k: nat)
    requires k <= |inputs| && MergedBlocks(inputs[..k]).Failure?
    ensures MergedBlocks(inputs) == MergedBlocks(inputs[..k])
    decreases |inputs| - k
  {
    if k < |inputs| {
      assert inputs[..k + 1][..k] == inputs[..k];
      MergedBlocksFailureSticks(inputs, k + 1);
    } else {
      assert inputs[..k] == inputs;
    }
  }

  /** The merge fails exactly when some Jacobian input holds something other than a bundle. */
  lemma {:induction false} MergedBlocksFailsIff(inputs: seq<ComputedValue>)
    ensures MergedBlocks(inputs).Failure?
        <==> exists i :: 0 <= i < |inputs| && IsJacobianInput(inputs[i]) && !inputs[i].value.BuildingBlocks?
    decreases |inputs|
  {
    if inputs != [] {
      var init := inputs[..|inputs| - 1];
      MergedBlocksFailsIff(init);
      assert forall i :: 0 <= i < |init| ==> inputs[i] == init[i];
    }
  }

  /** Exactly the curves named by some Jacobian input are in the merged bundle. */
  lemma {:induction false} MergedBlocksCurves(inputs: seq<ComputedValue>, curve: string)
    requires MergedBlocks(inputs).Success?
    ensures curve in MergedBlocks(inputs).value
        <==> exists i :: 0 <= i < |inputs| && IsJacobianInput(inputs[i]) && inputs[i].value.BuildingBlocks?
                         && curve in inputs[i].value.blocks
    decreases |inputs|
  {
    if inputs != [] {
      var init := inputs[..|inputs| - 1];
      MergedBlocksCurves(init, curve);
      assert forall i :: 0 <= i < |init| ==> inputs[i] == init[i];
    }
  }

  /** Input `i` is a Jacobian bundle holding `curve`, and no later Jacobian bundle holds it. */
  predicate LastHolder(inputs: seq<ComputedValue>, curve: string, i: int)
  {
    0 <= i < |inputs| && IsJacobianInput(inputs[i]) && inputs[i].value.BuildingBlocks?
    && curve in inputs[i].value.blocks
    && forall j :: i < j < |inputs| && IsJacobianInput(inputs[j]) && inputs[j].value.BuildingBlocks?
                   ==> curve !in inputs[j].value.blocks
  }

  /** A merged curve keeps the block of the last Jacobian bundle holding it: later bundles win. */
  lemma {:induction false} MergedBlocksValues(inputs: seq<ComputedValue>, curve: string)
    requires MergedBlocks(inputs).Success? && curve in MergedBlocks(inputs).value
    ensures exists i :: LastHolder(inputs, curve, i) && inputs[i].value.blocks[curve] == MergedBlocks(inputs).value[curve]
    decreases |inputs|
  {
    var n := |inputs|;
    var init := inputs[..n - 1];
    var last := inputs[n - 1];
    assert forall k :: 0 <= k < |init| ==> inputs[k] == init[k];
    if IsJacobianInput(last) && curve in last.value.blocks {
      assert LastHolder(inputs, curve, n - 1);
    } else {
      MergedBlocksValues(init, curve);
      var i :| LastHolder(init, curve, i) && init[i].value.blocks[curve] == MergedBlocks(init).value[curve];
      assert LastHolder(inputs, curve, i);
    }
  }

  /** An input that is not a Jacobian bundle, appended, does not affect the merge. */
  lemma MergedBlocksIgnoresAppended(inputs: seq<ComputedValue>, other: ComputedValue)
    requires !IsJacobianInput(other)
    ensures MergedBlocks(inputs + [other]) == MergedBlocks(inputs)
  {
    assert (inputs + [other])[..|inputs|] == inputs;
  }

  /** An input that is not a Jacobian bundle, prepended, does not affect the merge. */
  lemma {:induction false} MergedBlocksIgnoresPrepended(inputs: seq<ComputedValue>, other: ComputedValue)
    requires !IsJacobianInput(other)
    ensures MergedBlocks([other] + inputs) == MergedBlocks(inputs)
    decreases |inputs|
  {
    var s := [other] + inputs;
    if inputs == [] {
      assert s[..0] == [];
    } else {
      var init := inputs[..|inputs| - 1];
      MergedBlocksIgnoresPrepended(init, other);
      assert s[..|s| - 1] == [other] + init;
      assert s[|s| - 1] == inputs[|inputs| - 1];
    }
  }

  /**
   * getMergedProviders: collects the curve-bundle inputs as providers, then
   * answers null; a curve-bundle input that is not a provider fails the cast.
   */
  method GetMergedProviders(inputs: seq<ComputedValue>) returns (r: Result<Option<int>>)
    ensures r.Failure? <==> exists i :: 0 <= i < |inputs| && inputs[i].specification.valueName == CURVE_BUNDLE
                                        && !inputs[i].value.MulticurveProvider?
    ensures r.Failure? ==> r.error == ClassCast
    ensures r.Success? ==> r.value.None?
  {
    var providers: set<int> := {};
    var k := 0;
    while k < |inputs|
      invariant 0 <= k <= |inputs|
      invariant forall i :: 0 <= i < k && inputs[i].specification.valueName == CURVE_BUNDLE
                            ==> inputs[i].value.MulticurveProvider?
      decreases |inputs| - k
    {
      var input := inputs[k];
      if input.specification.valueName == CURVE_BUNDLE {
        if !input.value.MulticurveProvider? {
          return Failure(ClassCast);
        }
        providers := providers + {input.value.token};
      }
      k := k + 1;
    }
    return Success(None);
  }
}
