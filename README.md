# OG-Platform engine and analytics pieces, modelled in Dafny

This project models six small parts of the OpenGamma OG-Platform and proves
properties about them:

- **MockFunction** is the engine's test function. It is built for one target.
  It declares requirements, results and required live data. It applies to its
  own target, and `execute` returns the stored results that satisfy a desired
  value.
- **AvailableImplementationsImpl** is the set-multimap from an interface type to
  the concrete types registered as implementing it. A registration stops at the
  first interface or primitive type.
- **HullWhiteFunction.HullWhiteCompiledFunction** is the property handling shared
  by the Hull-White one-factor pricing functions:
  - which constraints must be set;
  - which curve properties are requested;
  - which properties results carry, including the CURRENCY choice by security kind;
  - how inputs are merged into a curve-building-block bundle.
- **NodalDoublesCurve.getYValue** looks up a y value by binary search over the
  ascending x nodes. An x that is not a node is refused.
- **RawSoybeanFutureOptionVolatilitySurfaceDataFunction** accepts currency
  targets. It looks up the surface definition and specification under the name
  `<configured name>_<currency>`.
- **BondFutureOptionBlackCalculator** is the constructor's null checks, and the
  choice of the last margin price. On the trade date that price is the premium;
  otherwise it is the latest value of the price series.

## Modelling choices

- Java `null` arguments and thrown exceptions are values. Absent arguments are
  `Option`. Results are `Result` with an `Error` naming the exception kind
  (`Base.dfy`).
- `ValueProperties` is a map from a property name to the set of its values. An
  empty set is a wildcard, as written by `withAny`.
- `ValueRequirement.isSatisfiedBy` is not part of this model's sources. It is
  defined in `Values.IsSatisfiedBy`: the value name and the target
  specification must be equal, and every constrained property must be offered.
  A wildcard constraint accepts anything. Otherwise the offered values must be
  a non-empty subset of the acceptable ones.
- Objects whose fields change become classes with `modifies` clauses:
  `MockFunctions.MockFunction` and
  `AvailableImplementations.AvailableImplementationsImpl`. Their Java `for`
  loops become `while` loops, proved against the specification functions
  `SpecificationsOf` and `Registered`.
- The Hull-White merge loops become `while` loops in methods that change
  nothing. `GetMergedCurveBuildingBlocks` is proved equal to the
  specification function `MergedBlocks`.
- Java hash sets are unordered. Iterating over them is modelled by picking an
  arbitrary element (`:|`), so the proofs hold for every iteration order.
- Some constants are defined outside the modelled files. Each is given a
  literal value, and only their distinctness matters:
  - `LiveDataSourcingFunction.UNIQUE_ID`
  - `Currency.OBJECT_SCHEME`
  - `InstrumentTypeProperties.COMMODITY_FUTURE_OPTION`
  - `MarketDataRequirementNames.MARKET_VALUE`
  - the Hull-White property names

## Model

| member | source | states |
|---|---|---|
| MockFunctions.MockFunction.constructor | projects/OG-Engine/src/com/opengamma/engine/test/MockFunction.java:82-85 | a new function holds the given id and target and declares no requirement, result or live data |
| MockFunctions.MockFunction.WithDefaultId | projects/OG-Engine/src/com/opengamma/engine/test/MockFunction.java:87-89 | as the constructor, with the id `UNIQUE_ID` ("mock") |
| MockFunctions.MockFunction.AddRequirement | projects/OG-Engine/src/com/opengamma/engine/test/MockFunction.java:91-93 | the requirement set gains exactly the one requirement; results and live data are unchanged |
| MockFunctions.MockFunction.AddRequirements | projects/OG-Engine/src/com/opengamma/engine/test/MockFunction.java:95-97 | the requirement set becomes the union with the given set; nothing else changes |
| MockFunctions.MockFunction.GetRequirementSpecifications | projects/OG-Engine/src/com/opengamma/engine/test/MockFunction.java:99-105 | every declared requirement appears as this function's specification of it, and every returned specification comes from a declared requirement and has this function as producer |
| MockFunctions.MockFunction.ToValueSpecification | projects/OG-Engine/src/com/opengamma/engine/test/MockFunction.java:107-109 | the specification is produced by this function, satisfies the requirement, and converts back to exactly that requirement |
| MockFunctions.MockFunction.MakeResult | projects/OG-Engine/src/com/opengamma/engine/test/MockFunction.java:111-113 | the computed value pairs the given specification with the given payload |
| MockFunctions.MockFunction.AddResultFor | projects/OG-Engine/src/com/opengamma/engine/test/MockFunction.java:115-119 | the results gain the payload under this function's specification of the requirement; the result specifications gain the specifications of every stored result; the invariant "result specs are the specs of the results" is kept |
| MockFunctions.MockFunction.AddComputedResult | projects/OG-Engine/src/com/opengamma/engine/test/MockFunction.java:121-123 | the results gain the computed value; the result specifications gain the specs of all stored results; the invariant is kept |
| MockFunctions.MockFunction.AddResults | projects/OG-Engine/src/com/opengamma/engine/test/MockFunction.java:125-130 | the results become the union; the loop over all stored results (old and new) adds each one's specification; the invariant is kept |
| MockFunctions.MockFunction.AddRequiredLiveDataFor | projects/OG-Engine/src/com/opengamma/engine/test/MockFunction.java:132-134 | the live data gains the requirement as a specification produced by the live-data sourcing function |
| MockFunctions.MockFunction.AddRequiredLiveData | projects/OG-Engine/src/com/opengamma/engine/test/MockFunction.java:136-140 | the live data gains the live-data specification of every given requirement, and nothing else changes |
| MockFunctions.LiveDataSpecification | projects/OG-Engine/src/com/opengamma/engine/test/MockFunction.java:138 | the live-data specification has the live-data sourcing producer and converts back to the requirement |
| MockFunctions.MockFunction.CanApplyTo | projects/OG-Engine/src/com/opengamma/engine/test/MockFunction.java:142-145 | applies exactly to targets whose kind and unique id equal the function's own |
| MockFunctions.CanApplyToBySpecification | projects/OG-Engine/src/com/opengamma/engine/test/MockFunction.java:142-145 | the function applies to its own target, and the answer ignores the resolved object behind a target |
| MockFunctions.MockFunction.GetRequirementsFor | projects/OG-Engine/src/com/opengamma/engine/test/MockFunction.java:147-150 | the declared requirements, whatever the target asked about |
| MockFunctions.MockFunction.GetResultSpecs | projects/OG-Engine/src/com/opengamma/engine/test/MockFunction.java:152-159 | under the class invariant, the result specifications are exactly the specifications of the stored results |
| MockFunctions.SpecificationsOf | projects/OG-Engine/src/com/opengamma/engine/test/MockFunction.java:127-129 | contains a result's specification iff some stored result carries it |
| MockFunctions.AddSpecificationsOf | projects/OG-Engine/src/com/opengamma/engine/test/MockFunction.java:127-129 | the loop of addResults: the given specifications plus the specification of each given result, exactly |
| MockFunctions.SpecificationsOfUnion | projects/OG-Engine/src/com/opengamma/engine/test/MockFunction.java:125-130 | the specifications of a union are the union of the specifications |
| MockFunctions.MockFunction.GetResultSpec | projects/OG-Engine/src/com/opengamma/engine/test/MockFunction.java:161-166 | succeeds iff there is exactly one result specification, and then returns it; otherwise IllegalStateException |
| MockFunctions.MockFunction.GetResultRequirements | projects/OG-Engine/src/com/opengamma/engine/test/MockFunction.java:168-174 | exactly the requirement form of each result specification |
| MockFunctions.MockFunction.GetResults | projects/OG-Engine/src/com/opengamma/engine/test/MockFunction.java:176-178 | the stored results |
| MockFunctions.MockFunction.GetResult | projects/OG-Engine/src/com/opengamma/engine/test/MockFunction.java:180-185 | succeeds iff there is exactly one stored result, and then returns it; otherwise IllegalStateException |
| MockFunctions.MockFunction.GetTargetType | projects/OG-Engine/src/com/opengamma/engine/test/MockFunction.java:192-195 | the kind of the function's target |
| MockFunctions.MockFunction.Execute | projects/OG-Engine/src/com/opengamma/engine/test/MockFunction.java:201-212 | the returned values are stored results; each satisfies some desired value; every stored result satisfying a desired value is returned |
| MockFunctions.MockFunction.GetRequiredLiveData | projects/OG-Engine/src/com/opengamma/engine/test/MockFunction.java:214-217 | the declared live-data specifications |
| MockFunctions.GetOutputRequirement | projects/OG-Engine/src/com/opengamma/engine/test/MockFunction.java:61-64 | an unconstrained "OUTPUT" requirement on the target's specification |
| MockFunctions.OutputResult | projects/OG-Engine/src/com/opengamma/engine/test/MockFunction.java:49-55 | the single result of a factory-made function: "OUTPUT" on the target, produced by the given id, holding the output |
| MockFunctions.OutputResultSatisfiesOutputRequirement | projects/OG-Engine/src/com/opengamma/engine/test/MockFunction.java:49-64 | the output result satisfies the output requirement of any target with the same specification |
| MockFunctions.GetMockFunction | projects/OG-Engine/src/com/opengamma/engine/test/MockFunction.java:49-55 | a fresh, valid function for the target whose only result is the output under "OUTPUT", with no requirements |
| MockFunctions.GetDefaultMockFunction | projects/OG-Engine/src/com/opengamma/engine/test/MockFunction.java:57-59 | as GetMockFunction with the default id "mock" |
| MockFunctions.GetMockFunctionWithInput | projects/OG-Engine/src/com/opengamma/engine/test/MockFunction.java:66-71 | as GetMockFunction, and the only requirement is the given input |
| MockFunctions.GetMockFunctionFromInputFunction | projects/OG-Engine/src/com/opengamma/engine/test/MockFunction.java:73-80 | as GetMockFunction, and the requirements are exactly the requirement forms of the input function's result specifications |
| Values.ToSpecification | projects/OG-Engine/src/com/opengamma/engine/test/MockFunction.java:108 | the specification is produced by the given function id and satisfies the requirement |
| Values.ToRequirement | projects/OG-Engine/src/com/opengamma/engine/test/MockFunction.java:171 | the requirement form of a specification is satisfied by that specification |
| Values.RequirementRoundTrip | projects/OG-Engine/src/com/opengamma/engine/test/MockFunction.java:73-80 | requirement to specification to requirement is the identity |
| Values.SpecificationRoundTrip | projects/OG-Engine/src/com/opengamma/engine/test/MockFunction.java:168-174 | specification to requirement to specification (same producer) is the identity |
| Values.ToTargetSpecification | projects/OG-Engine/src/com/opengamma/engine/test/MockFunction.java:144 | the target specification keeps the kind and unique id |
| Values.IsSatisfiedBy | projects/OG-Engine/src/com/opengamma/engine/test/MockFunction.java:206 | same value name and target specification, every constrained property offered, a wildcard accepting anything and otherwise a non-empty subset of the acceptable values; a satisfied requirement's constrained properties are all offered |
| Values.With | projects/OG-Financial/src/main/java/com/opengamma/financial/analytics/model/hullwhitediscounting/HullWhiteFunction.java:79 | `with(name, value)` pins the property to that one value and leaves every other property as it was |
| Values.WithAny | projects/OG-Financial/src/main/java/com/opengamma/financial/analytics/model/hullwhitediscounting/HullWhiteFunction.java:80-82 | `withAny(name)` makes the property a wildcard and leaves every other property as it was |
| Values.GetValues | projects/OG-Financial/src/main/java/com/opengamma/financial/analytics/model/hullwhitediscounting/HullWhiteFunction.java:104 | null iff the property is absent, else its value set |
| Values.UnconstrainedIsSatisfied | projects/OG-Engine/src/com/opengamma/engine/test/MockFunction.java:206 | a requirement without constraints is satisfied exactly by the specifications of its name and target |
| Values.WeakerConstraintsStillSatisfied | projects/OG-Engine/src/com/opengamma/engine/test/MockFunction.java:206 | dropping a constraint never loses a match |
| Values.MismatchedValueNotSatisfied | projects/OG-Engine/src/com/opengamma/engine/test/MockFunction.java:206 | an offered value outside the acceptable set defeats satisfaction |
| AvailableImplementations.AvailableImplementationsImpl.constructor | src/main/java/com/opengamma/sesame/function/AvailableImplementationsImpl.java:19 | the multimap starts empty |
| AvailableImplementations.AvailableImplementationsImpl.GetImplementationTypes | src/main/java/com/opengamma/sesame/function/AvailableImplementationsImpl.java:27-30 | a type is returned iff it is registered under the interface; under the multimap invariant the set is empty iff the interface was never registered under |
| AvailableImplementations.AvailableImplementationsImpl.GetDefaultImplementation | src/main/java/com/opengamma/sesame/function/AvailableImplementationsImpl.java:40-47 | non-null iff exactly one type is registered under the interface, and then it is that type |
| AvailableImplementations.AvailableImplementationsImpl.PutUnderInterfaces | src/main/java/com/opengamma/sesame/function/AvailableImplementationsImpl.java:55-58 | the type is put under every one of its interfaces and nothing else changes; keys stay non-empty |
| AvailableImplementations.AvailableImplementationsImpl.Register | src/main/java/com/opengamma/sesame/function/AvailableImplementationsImpl.java:49-60 | the new multimap is the registration function of the old one and the types, with the early return at the first interface or primitive type |
| AvailableImplementations.PutAll | src/main/java/com/opengamma/sesame/function/AvailableImplementationsImpl.java:56-58 | the keys gain the interfaces, and each interface's set gains the type |
| AvailableImplementations.StopsRegistration | src/main/java/com/opengamma/sesame/function/AvailableImplementationsImpl.java:52 | a type that is an interface or primitive ends the registration |
| AvailableImplementations.Registered | src/main/java/com/opengamma/sesame/function/AvailableImplementationsImpl.java:49-60 | the multimap after register: every old key stays, and non-empty sets stay non-empty |
| AvailableImplementations.ConcretePrefix | src/main/java/com/opengamma/sesame/function/AvailableImplementationsImpl.java:51-54 | the longest prefix of the types without an interface or primitive type |
| AvailableImplementations.RegisteredKeepsPairs | src/main/java/com/opengamma/sesame/function/AvailableImplementationsImpl.java:49-60 | registration only adds pairs |
| AvailableImplementations.RegisteredIsPrefixPut | src/main/java/com/opengamma/sesame/function/AvailableImplementationsImpl.java:49-60 | a type is registered under an interface iff it was before, or it is in the concrete prefix and implements the interface |
| AvailableImplementations.RegisteredConcreteIsFound | src/main/java/com/opengamma/sesame/function/AvailableImplementationsImpl.java:55-58 | after registering a concrete type, it is found under each of its interfaces |
| AvailableImplementations.StopsAtFirstRefusedType | src/main/java/com/opengamma/sesame/function/AvailableImplementationsImpl.java:52-54 | the types from the first interface or primitive type onward have no effect |
| AvailableImplementations.RegisterTwiceIsIdempotent | src/main/java/com/opengamma/sesame/function/AvailableImplementationsImpl.java:49-60 | registering the same types twice gives the same multimap as once |
| AvailableImplementations.RegisteredKeys | src/main/java/com/opengamma/sesame/function/AvailableImplementationsImpl.java:49-60 | the keys afterwards are the old keys plus the interfaces of the concrete prefix |
| AvailableImplementations.NeverRegisteredStaysEmpty | src/main/java/com/opengamma/sesame/function/AvailableImplementationsImpl.java:49-60 | an interface without implementations that no registered type implements still has none afterwards |
| HullWhiteFunctions.RequirementsSet | projects/OG-Financial/src/main/java/com/opengamma/financial/analytics/model/hullwhitediscounting/HullWhiteFunction.java:102-117 | true iff curve exposures are named and the Hull-White parameters and currency each hold exactly one value |
| HullWhiteFunctions.GetCurveProperties | projects/OG-Financial/src/main/java/com/opengamma/financial/analytics/model/hullwhitediscounting/HullWhiteFunction.java:119-126 | succeeds iff both Hull-White properties are present (parameters checked first); the result holds exactly those two with their values copied |
| HullWhiteFunctions.CurvePropertiesOfSetRequirements | projects/OG-Financial/src/main/java/com/opengamma/financial/analytics/model/hullwhitediscounting/HullWhiteFunction.java:102-126 | once requirements are set, the curve properties exist and, with the exposures added back, still satisfy requirementsSet |
| HullWhiteFunctions.ResultCurrency | projects/OG-Financial/src/main/java/com/opengamma/financial/analytics/model/hullwhitediscounting/HullWhiteFunction.java:84-97 | a cross-currency swap whose pay leg has an interest-rate notional gives the pay-leg currency; an FX forward (deliverable or not) gives its pay currency; every other security gives its own currency, or NullPointerException when it has none |
| HullWhiteFunctions.GetResultProperties | projects/OG-Financial/src/main/java/com/opengamma/financial/analytics/model/hullwhitediscounting/HullWhiteFunction.java:76-100 | curve type is Hull-White discounting; exposures and both Hull-White properties are wildcards; with `withCurrency` CURRENCY is the currency chosen by security kind, and the call fails only when that currency is null; other properties are kept |
| HullWhiteFunctions.MergedBlocks | projects/OG-Financial/src/main/java/com/opengamma/financial/analytics/model/hullwhitediscounting/HullWhiteFunction.java:139-148 | the left-to-right merge of the Jacobian-bundle inputs; its only failure is the ClassCastException of a non-bundle value |
| HullWhiteFunctions.GetMergedCurveBuildingBlocks | projects/OG-Financial/src/main/java/com/opengamma/financial/analytics/model/hullwhitediscounting/HullWhiteFunction.java:139-148 | the loop computes the left-to-right merge of the Jacobian-bundle inputs |
| HullWhiteFunctions.MergedBlocksFailureSticks | projects/OG-Financial/src/main/java/com/opengamma/financial/analytics/model/hullwhitediscounting/HullWhiteFunction.java:141-146 | a failed cast ends the merge with that failure |
| HullWhiteFunctions.MergedBlocksFailsIff | projects/OG-Financial/src/main/java/com/opengamma/financial/analytics/model/hullwhitediscounting/HullWhiteFunction.java:143-144 | the merge fails iff some Jacobian-bundle input does not hold a bundle |
| HullWhiteFunctions.MergedBlocksCurves | projects/OG-Financial/src/main/java/com/opengamma/financial/analytics/model/hullwhitediscounting/HullWhiteFunction.java:139-148 | a curve is in the merged bundle iff some Jacobian-bundle input holds it |
| HullWhiteFunctions.MergedBlocksValues | projects/OG-Financial/src/main/java/com/opengamma/financial/analytics/model/hullwhitediscounting/HullWhiteFunction.java:143-144 | a merged curve holds the block of a Jacobian bundle that holds it, and no later Jacobian bundle holds it, so later bundles win |
| HullWhiteFunctions.MergedBlocksIgnoresAppended | projects/OG-Financial/src/main/java/com/opengamma/financial/analytics/model/hullwhitediscounting/HullWhiteFunction.java:142-143 | an input of any other value name, appended, does not change the merge |
| HullWhiteFunctions.MergedBlocksIgnoresPrepended | projects/OG-Financial/src/main/java/com/opengamma/financial/analytics/model/hullwhitediscounting/HullWhiteFunction.java:142-143 | an input of any other value name, prepended, does not change the merge |
| HullWhiteFunctions.GetMergedProviders | projects/OG-Financial/src/main/java/com/opengamma/financial/analytics/model/hullwhitediscounting/HullWhiteFunction.java:128-137 | fails with ClassCastException iff some curve-bundle input is not a provider; otherwise returns null |
| NodalCurves.BinarySearch | projects/OG-Analytics/src/main/java/com/opengamma/analytics/math/curve/NodalDoublesCurve.java:448 | `Arrays.binarySearch`: a non-negative index holds the key; a negative one means the key is absent and encodes the insertion point, with smaller elements before it and larger ones after |
| NodalCurves.GetYValue | projects/OG-Analytics/src/main/java/com/opengamma/analytics/math/curve/NodalDoublesCurve.java:445-453 | a null x is refused; succeeds iff x is a node, giving the y value at a node equal to x; with strictly ascending x it is the y value at the node's only index; otherwise IllegalArgumentException |
| NodalCurves.NodeIsUnique | projects/OG-Analytics/src/main/java/com/opengamma/analytics/math/curve/NodalDoublesCurve.java:448-452 | with strictly ascending x a node occurs at one index only |
| NodalCurves.GetYValueParameterSensitivity | projects/OG-Analytics/src/main/java/com/opengamma/analytics/math/curve/NodalDoublesCurve.java:455-458 | always UnsupportedOperationException |
| NodalCurves.GetDyDx | projects/OG-Analytics/src/main/java/com/opengamma/analytics/math/curve/NodalDoublesCurve.java:460-463 | always NotImplementedException |
| NodalCurves.From | projects/OG-Analytics/src/main/java/com/opengamma/analytics/math/curve/NodalDoublesCurve.java:30-32 | the data is passed on, marked not sorted |
| NodalCurves.FromSorted | projects/OG-Analytics/src/main/java/com/opengamma/analytics/math/curve/NodalDoublesCurve.java:169-171 | the data is passed on, marked sorted |
| SoybeanSurfaceData.IsCorrectIdType | projects/OG-Financial/src/main/java/com/opengamma/financial/analytics/volatility/surface/RawSoybeanFutureOptionVolatilitySurfaceDataFunction.java:31-40 | false for a target without unique id; otherwise true iff the id's scheme is the currency scheme |
| SoybeanSurfaceData.FullName | projects/OG-Financial/src/main/java/com/opengamma/financial/analytics/volatility/surface/RawSoybeanFutureOptionVolatilitySurfaceDataFunction.java:44 | the name, one '_', then the id value |
| SoybeanSurfaceData.SplitFullNameRoundTrip | projects/OG-Financial/src/main/java/com/opengamma/financial/analytics/volatility/surface/RawSoybeanFutureOptionVolatilitySurfaceDataFunction.java:44 | the full name splits at its last '_' into the configured name and the currency code, for every configured name |
| SoybeanSurfaceData.FullNameDistinguishesIds | projects/OG-Financial/src/main/java/com/opengamma/financial/analytics/volatility/surface/RawSoybeanFutureOptionVolatilitySurfaceDataFunction.java:44 | different currencies give different full names |
| SoybeanSurfaceData.GetDefinition | projects/OG-Financial/src/main/java/com/opengamma/financial/analytics/volatility/surface/RawSoybeanFutureOptionVolatilitySurfaceDataFunction.java:42-50 | a null unique id fails on dereference; otherwise the definition stored under (full name, commodity future option), or an OpenGammaRuntimeException when there is none |
| SoybeanSurfaceData.GetSpecification | projects/OG-Financial/src/main/java/com/opengamma/financial/analytics/volatility/surface/RawSoybeanFutureOptionVolatilitySurfaceDataFunction.java:52-60 | the same lookup for the surface specification |
| SoybeanSurfaceData.AcceptedTargetHasIdValue | projects/OG-Financial/src/main/java/com/opengamma/financial/analytics/volatility/surface/RawSoybeanFutureOptionVolatilitySurfaceDataFunction.java:31-50 | for a target isCorrectIdType accepts, the lookup can fail only with the missing-definition error |
| BondFutureOptionBlack.LatestDate | sesame/sesame-function/src/main/java/com/opengamma/sesame/bondfutureoption/BondFutureOptionBlackCalculator.java:143 | the largest date of a non-empty series, reached by some point |
| BondFutureOptionBlack.LatestValue | sesame/sesame-function/src/main/java/com/opengamma/sesame/bondfutureoption/BondFutureOptionBlackCalculator.java:143 | `getLatestValue`: the value of the last stored point, which LatestValueIsAtLatestDate shows is the value at the latest date |
| BondFutureOptionBlack.SeriesKey | sesame/sesame-function/src/main/java/com/opengamma/sesame/bondfutureoption/BondFutureOptionBlackCalculator.java:131 | the price series is sought under the market-value field and the security's external-id bundle |
| BondFutureOptionBlack.LatestValueIsAtLatestDate | sesame/sesame-function/src/main/java/com/opengamma/sesame/bondfutureoption/BondFutureOptionBlackCalculator.java:143 | in a chronological series the last point is at the latest date, so `getLatestValue` is the value at the latest date |
| BondFutureOptionBlack.LastMarginPrice | sesame/sesame-function/src/main/java/com/opengamma/sesame/bondfutureoption/BondFutureOptionBlackCalculator.java:130-144 | the premium on the trade date; otherwise a missing or empty series is an OpenGammaRuntimeException, and a non-empty series gives its latest value |
| BondFutureOptionBlack.CreateInstrumentDerivative | sesame/sesame-function/src/main/java/com/opengamma/sesame/bondfutureoption/BondFutureOptionBlackCalculator.java:122-149 | a definition with data gives a derivative of that definition with the valuation time and the last margin price, and fails exactly when the price does, with the price's own OpenGammaRuntimeException; any other definition gets the valuation time only |
| BondFutureOptionBlack.TradeDateIgnoresSeries | sesame/sesame-function/src/main/java/com/opengamma/sesame/bondfutureoption/BondFutureOptionBlackCalculator.java:133-134 | on the trade date the derivative always succeeds and does not depend on the series bundle |
| BondFutureOptionBlack.NewCalculator | sesame/sesame-function/src/main/java/com/opengamma/sesame/bondfutureoption/BondFutureOptionBlackCalculator.java:67-78 | trade, converter, valuation time and fixings are checked for null in that order, then the derivative is built, then black is checked; success holds the derivative, black and the security's currency |
| BondFutureOptionBlack.NewCalculatorSucceedsIff | sesame/sesame-function/src/main/java/com/opengamma/sesame/bondfutureoption/BondFutureOptionBlackCalculator.java:67-78 | a calculator is built iff every argument is non-null and, for a definition with data, the margin price is found |

## Left out

- MockFunction `getShortName` (a display string) and `getTarget` (the target is the class's `target` constant) have no members of their own.
- MockFunction `setUniqueIdentifier` and the `AbstractFunction` superclass are not part of this model. The unique id is the constant field `uniqueId`.
- MockFunctions.MockFunction.Execute: the execution context, the function inputs and the target are ignored, as in the source, so they are not modelled.
- MockFunctions.MockFunction.GetResultSpecs, GetRequiredLiveData, GetResults and GetRequirementsFor: the source returns the live sets (for `getRequirements(context, target)` an unmodifiable view of them), so later changes show through the returned reference. The model returns values, so that aliasing is not captured.
- The `synchronized` keyword on AvailableImplementationsImpl has no counterpart: the model is sequential.
- `EngineFunctionUtils.getInterfaces` is reflection and is not part of this model. `Register` takes it as the parameter `interfacesOf`.
- The HashMultimap is a map from interface to a non-empty set. The model does not represent the `Set` that `get` returns as a live view.
- `ResultCurrency` follows the source's choice of currency. The instrument-type classification (`InterestRateInstrumentType.getInstrumentTypeFromSecurity`), the forex pay-currency visitor and `FinancialSecurityUtils.getCurrency` are not part of this model. The security carries their answers as fields.
- `createValueProperties()` of the superclass is not part of this model. GetResultProperties takes its result as `base`.
- `ValueProperties.Builder.with` on a name that already has values is modelled as replacing them; the builder's own merge rule is not part of this model.
- `CurveBuildingBlockBundle.addAll` is not part of this model. MergedBlocks takes it as a map union in which a later curve replaces an earlier one.
- `FunctionInputs.getAllValues()` has no order; the model takes the inputs as a sequence in iteration order.
- HullWhiteFunctions.GetMergedProviders: the collected providers are unused in the source and the method returns null; the model keeps the cast failures and the null result, and does not model a null input value (a null passes the cast).
- NodalCurves.GetYValue: doubles are modelled as exact reals, so NaN and signed zero, which `Arrays.binarySearch` orders specially, are not covered.
- NodalCurves.GetYValue requires the x data to be ascending and parallel to the y data. The ArraysDoublesCurve superclass establishes this invariant; its constructors, its sorting and its data checks are not part of this model.
- NodalCurves.From and NodalCurves.FromSorted: the models return the constructor's arguments; building the curve (and sorting unsorted data) is the superclass's work and is not modelled. The overloads that take names, `Double[]`, lists, maps or pairs are not modelled.
- The other curve operations inherited from the superclass (data access, size, name) are not part of this model.
- SoybeanSurfaceData: the superclass RawVolatilitySurfaceDataFunction, which calls the lookups, is not part of this model. Logging in `isCorrectIdType` is not modelled.
- BondFutureOptionBlack: the Black pricing methods (`calculatePV`, `calculatePV01`, the Greeks, `calculateBucketedPV01`) are foreign analytics and are not modelled.
- BondFutureOptionBlack: the converter and derivative conversion are abstract (`toDerivative` is recorded by its arguments). The model's premium is a `real` and never null; in the source a null premium would be passed on, boxed, to `toDerivative` unchanged.
- BondFutureOptionBlack.LastMarginPrice: `getLatestValue` is taken as the value of the last stored point; LatestValueIsAtLatestDate shows that this is the value at the latest date for a chronological series.
