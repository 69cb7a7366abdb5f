/**
 * RawSoybeanFutureOptionVolatilitySurfaceDataFunction: applies to targets
 * identified by a currency, and finds the surface definition and the
 * surface specification named after the configured name and that currency.
 */
module SoybeanSurfaceData {

  import opened Base
  import opened Values

  /** Currency.OBJECT_SCHEME (defined outside this model). */
  const CURRENCY_OBJECT_SCHEME: string := "CurrencyISO"

  /** InstrumentTypeProperties.COMMODITY_FUTURE_OPTION (defined outside this model). */
  const COMMODITY_FUTURE_OPTION: string := "COMMODITY_FUTURE_OPTION"

  /**
   * A definition or specification source: a lookup by (name, instrument
   * type), absent keys standing for a null answer.
   */
  type Source<T> = map<(string, string), T>

  /** isCorrectIdType: the target has a unique id, and its scheme is the currency scheme. */
  predicate IsCorrectIdType(target: ComputationTarget)
    ensures target.uniqueId.None? ==> !IsCorrectIdType(target)
    ensures target.uniqueId.Some? ==> (IsCorrectIdType(target) <==> target.uniqueId.value.scheme == CURRENCY_OBJECT_SCHEME)
  {
    target.uniqueId.Some? && target.uniqueId.value.scheme == CURRENCY_OBJECT_SCHEME
  }

  /** The configured name qualified by the target's id value: `name + "_" + idValue`. */
  function FullName(name: string, idValue: string): (full: string)
    ensures |full| == |name| + 1 + |idValue|
    ensures full[..|name|] == name && full[|name|] == '_' && full[|name| + 1..] == idValue
  {
    name + "_" + idValue
  }

  /** The position of the last '_' in a string, or -1 when it has none. */
  function LastUnderscore(s: string): (k: int)
    ensures -1 <= k < |s|
    ensures k >= 0 ==> s[k] == '_'
    ensures k < 0 ==> '_' !in s
    ensures forall j :: k < j < |s| ==> s[j] != '_'
  {
    if s == [] then -1
    else if s[|s| - 1] == '_' then |s| - 1
    else LastUnderscore(s[..|s| - 1])
  }

  /** Splits at the last '_': the inverse of FullName, the id value (a currency code) holding no '_'. */
  function SplitFullName(full: string): (parts: (string, string))
  {
    var k := LastUnderscore(full);
    if k >= 0 then (full[..k], full[k + 1..]) else (full, "")
  }

  /** Any configured name and a currency code can both be read back from the full name. */
  lemma SplitFullNameRoundTrip(name: string, idValue: string)
    requires '_' !in idValue
    ensures SplitFullName(FullName(name, idValue)) == (name, idValue)
  {
    var full := FullName(name, idValue);
    forall j | |name| < j < |full| ensures full[j] != '_' {
      assert full[j] == idValue[j - |name| - 1];
    }
    assert LastUnderscore(full) == |name|;
  }

  /** Distinct currencies on the same configured name give distinct full names. */
  lemma FullNameDistinguishesIds(name: string, id1: string, id2: string)
    requires id1 != id2
    ensures FullName(name, id1) != FullName(name, id2)
  {
    assert FullName(name, id1)[|name| + 1..] == id1;
    assert FullName(name, id2)[|name| + 1..] == id2;
  }

  /**
   * getDefinition: looks up `definitionName + "_" + idValue` for commodity
   * future options; a null unique id fails on dereference, a missing
   * definition is an OpenGammaRuntimeException.
   */
  function GetDefinition<D>(definitionSource: Source<D>, target: ComputationTarget, definitionName: string): (r: Result<D>)
    ensures target.uniqueId.None? ==> r == Failure(NullPointer)
    ensures target.uniqueId.Some? ==>
      var key := (FullName(definitionName, target.uniqueId.value.value), COMMODITY_FUTURE_OPTION);
      (key in definitionSource ==> r == Success(definitionSource[key])) &&
      (key !in definitionSource ==> r.Failure? && r.error.Runtime?)
  {
    if target.uniqueId.None? then Failure(NullPointer)
    else
      var fullDefinitionName := definitionName + "_" + target.uniqueId.value.value;
      if (fullDefinitionName, COMMODITY_FUTURE_OPTION) in definitionSource then
        Success(definitionSource[(fullDefinitionName, COMMODITY_FUTURE_OPTION)])
      else
        Failure(Runtime("Could not get volatility surface definition named " + fullDefinitionName
                        + " for instrument type " + COMMODITY_FUTURE_OPTION))
  }

  /**
   * getSpecification: looks up `specificationName + "_" + idValue` for
   * commodity future options; a null unique id fails on dereference, a
   * missing specification is an OpenGammaRuntimeException.
   */
  function GetSpecification<S>(specificationSource: Source<S>, target: ComputationTarget, specificationName: string): (r: Result<S>)
    ensures target.uniqueId.None? ==> r == Failure(NullPointer)
    ensures target.uniqueId.Some? ==>
      var key := (FullName(specificationName, target.uniqueId.value.value), COMMODITY_FUTURE_OPTION);
      (key in specificationSource ==> r == Success(specificationSource[key])) &&
      (key !in specificationSource ==> r.Failure? && r.error.Runtime?)
  {
    if target.uniqueId.None? then Failure(NullPointer)
    else
      var fullSpecificationName := specificationName + "_" + target.uniqueId.value.value;
      if (fullSpecificationName, COMMODITY_FUTURE_OPTION) in specificationSource then
        Success(specificationSource[(fullSpecificationName, COMMODITY_FUTURE_OPTION)])
      else
        Failure(Runtime("Could not get volatility surface specification named " + fullSpecificationName
                        + " for instrument type " + COMMODITY_FUTURE_OPTION))
  }

  /** For a target the function accepts, the lookups never fail on the id itself. */
  lemma AcceptedTargetHasIdValue<D>(definitionSource: Source<D>, target: ComputationTarget, definitionName: string)
    requires IsCorrectIdType(target)
    ensures GetDefinition(definitionSource, target, definitionName).Failure?
        ==> GetDefinition(definitionSource, target, definitionName).error.Runtime?
  {
  }
}
