/**
 * The engine's value model: computation targets, property constraints,
 * value requirements, value specifications and computed values, and the
 * rule by which a specification satisfies a requirement.
 */
module Values {

  import opened Base

  /** A unique identifier: an object scheme and a value within it. */
  datatype UniqueId = UniqueId(scheme: string, value: string)

  /** The kinds of thing a computation can be about. */
  datatype TargetType = Primitive | Security | Position | Trade | PortfolioNode

  /**
   * The canonical key of a target: its type and its (possibly null) unique id.
   * Two targets denote the same subject iff their specifications are equal.
   */
  datatype TargetSpecification = TargetSpecification(kind: TargetType, uniqueId: Option<UniqueId>)

  /** A resolved target: the key plus the underlying object, kept opaque. */
  datatype ComputationTarget = ComputationTarget(kind: TargetType, uniqueId: Option<UniqueId>, subject: int)

  /** ComputationTarget.toSpecification: forgets the resolved object. */
  function ToTargetSpecification(t: ComputationTarget): (s: TargetSpecification)
    ensures s.kind == t.kind && s.uniqueId == t.uniqueId
  {
    TargetSpecification(t.kind, t.uniqueId)
  }

  /**
   * ValueProperties: property name to its set of values. As in the engine's
   * own representation, a property whose value set is empty is a wildcard
   * (`withAny`): any value is acceptable. An absent name is unconstrained.
   */
  type Properties = map<string, set<string>>

  /** `with(name, value)`: the property takes exactly the one value. */
  function With(p: Properties, name: string, value: string): (r: Properties)
    ensures r.Keys == p.Keys + {name}
    ensures r[name] == {value}
    ensures forall n :: n in p && n != name ==> r[n] == p[n]
  {
    p[name := {value}]
  }

  /** `withAny(name)`: the property is present as a wildcard. */
  function WithAny(p: Properties, name: string): (r: Properties)
    ensures r.Keys == p.Keys + {name}
    ensures r[name] == {}
    ensures forall n :: n in p && n != name ==> r[n] == p[n]
  {
    p[name := {}]
  }

  /** `getValues(name)`: null when absent, the value set otherwise (empty for a wildcard). */
  function GetValues(p: Properties, name: string): (r: Option<set<string>>)
    ensures r.None? <==> name !in p
    ensures r.Some? ==> r.value == p[name]
  {
    if name in p then Some(p[name]) else None
  }

  /**
   * Offered properties `offered` satisfy constraints `c` when every
   * constrained property is offered, and for one that is not a wildcard the
   * offered values are a non-empty selection from the acceptable ones.
   */
  predicate PropertiesSatisfied(c: Properties, offered: Properties)
  {
    forall n :: n in c ==>
      n in offered && (c[n] == {} || (offered[n] != {} && offered[n] <= c[n]))
  }

  /** A desired value: a value name on a target, under property constraints. */
  datatype ValueRequirement = ValueRequirement(valueName: string, target: TargetSpecification, constraints: Properties)

  /** The identity of a producible value: name, target, properties and the producing function's id. */
  datatype ValueSpecification = ValueSpecification(valueName: string, target: TargetSpecification, properties: Properties, producer: string)

  /** The payload of a computed value; only the kinds the model inspects are told apart. */
  datatype Payload =
    | Opaque(token: int)
    | BuildingBlocks(blocks: map<string, int>)   // a CurveBuildingBlockBundle, curve name to block
    | MulticurveProvider(token: int)             // a MulticurveProviderDiscount

  /** A specification paired with the value computed for it. */
  datatype ComputedValue = ComputedValue(specification: ValueSpecification, value: Payload)

  /** ValueRequirement.isSatisfiedBy. */
  predicate IsSatisfiedBy(r: ValueRequirement, s: ValueSpecification)
    ensures IsSatisfiedBy(r, s) ==> r.constraints.Keys <= s.properties.Keys
  {
    r.valueName == s.valueName && r.target == s.target && PropertiesSatisfied(r.constraints, s.properties)
  }

  /** `new ValueSpecification(requirement, functionId)`: the requirement as produced by `producer`. */
  function ToSpecification(r: ValueRequirement, producer: string): (s: ValueSpecification)
    ensures s.producer == producer
    ensures IsSatisfiedBy(r, s)
  {
    ValueSpecification(r.valueName, r.target, r.constraints, producer)
  }

  /** ValueSpecification.toRequirementSpecification: the requirement a specification was made from. */
  function ToRequirement(s: ValueSpecification): (r: ValueRequirement)
    ensures IsSatisfiedBy(r, s)
  {
    ValueRequirement(s.valueName, s.target, s.properties)
  }

  /** Turning a requirement into a specification and back loses nothing. */
  lemma RequirementRoundTrip(r: ValueRequirement, producer: string)
    ensures ToRequirement(ToSpecification(r, producer)) == r
  {
  }

  /** Turning a specification into a requirement and back, under its own producer, loses nothing. */
  lemma SpecificationRoundTrip(s: ValueSpecification)
    ensures ToSpecification(ToRequirement(s), s.producer) == s
  {
  }

  /** A requirement with no constraints is satisfied by every specification of its name and target. */
  lemma UnconstrainedIsSatisfied(r: ValueRequirement, s: ValueSpecification)
    requires r.constraints == map[]
    ensures IsSatisfiedBy(r, s) <==> r.valueName == s.valueName && r.target == s.target
  {
  }

  /** Satisfaction is monotone in the constraints: dropping a constraint never loses a match. */
  lemma WeakerConstraintsStillSatisfied(r: ValueRequirement, s: ValueSpecification, name: string)
    requires IsSatisfiedBy(r, s)
    ensures IsSatisfiedBy(ValueRequirement(r.valueName, r.target, r.constraints - {name}), s)
  {
  }

  /** A concrete property value outside the acceptable set defeats satisfaction. */
  lemma MismatchedValueNotSatisfied(r: ValueRequirement, s: ValueSpecification, name: string, v: string)
    requires name in r.constraints && r.constraints[name] != {} && v !in r.constraints[name]
    requires name in s.properties && s.properties[name] == {v}
    ensures !IsSatisfiedBy(r, s)
  {
  }
}
