/**
 * MockFunction: the reference function used in engine tests. It applies to
 * one target, declares accumulated requirements, holds a set of canned
 * results and, on execution, hands back those results that some desired
 * value is satisfied by.
 */
module MockFunctions {

  import opened Base
  import opened Values

  /** MockFunction.UNIQUE_ID, the default function identifier. */
  const DEFAULT_UNIQUE_ID: string := "mock"

  /**
   * LiveDataSourcingFunction.UNIQUE_ID, the producer recorded on live-data
   * specifications (the constant is defined outside this model).
   */
  const LIVE_DATA_SOURCING_ID: string := "LiveDataSourcingFunction"

  /** The value name of the single output a factory-made mock produces. */
  const OUTPUT: string := "OUTPUT"

  /** The specifications of a set of computed values. */
  function SpecificationsOf(rs: set<ComputedValue>): (specs: set<ValueSpecification>)
    ensures forall r :: r in rs ==> r.specification in specs
    ensures forall s :: s in specs ==> exists r :: r in rs && r.specification == s
  {
    set r | r in rs :: r.specification
  }

  /** The live-data specification recorded for a requirement. */
  function LiveDataSpecification(r: ValueRequirement): (s: ValueSpecification)
    ensures s.producer == LIVE_DATA_SOURCING_ID
    ensures ToRequirement(s) == r
  {
    ToSpecification(r, LIVE_DATA_SOURCING_ID)
  }

  /** True iff some desired value is satisfied by `s`. */
  predicate SatisfiesSome(desired: set<ValueRequirement>, s: ValueSpecification)
  {
    exists d :: d in desired && IsSatisfiedBy(d, s)
  }

  lemma SpecificationsOfUnion(a: set<ComputedValue>, b: set<ComputedValue>)
    ensures SpecificationsOf(a + b) == SpecificationsOf(a) + SpecificationsOf(b)
  {
  }

  /** Adding one stored result adds exactly its specification. */
  lemma SpecificationsOfAdd(done: set<ComputedValue>, r: ComputedValue)
    ensures SpecificationsOf(done + {r}) == SpecificationsOf(done) + {r.specification}
  {
    SpecificationsOfUnion(done, {r});
    assert SpecificationsOf({r}) == {r.specification};
  }

  /** The loop of addResults: adds the specification of each value in `rs` to `specs`. */
  method AddSpecificationsOf(specs: set<ValueSpecification>, rs: set<ComputedValue>)
    returns (r: set<ValueSpecification>)
    ensures r == specs + SpecificationsOf(rs)
  {
    r := specs;
    var pending := rs;
    while pending != {}
      invariant pending <= rs
      invariant r == specs + SpecificationsOf(rs - pending)
      decreases |pending|
    {
      var c :| c in pending;
      SpecificationsOfAdd(rs - pending, c);
      assert (rs - pending) + {c} == rs - (pending - {c});
      r := r + {c.specification};
      pending := pending - {c};
    }
    assert rs - pending == rs;
  }

  class MockFunction {
    const uniqueId: string
    const target: ComputationTarget
    var requirements: set<ValueRequirement>
    var resultSpecs: set<ValueSpecification>
    var results: set<ComputedValue>
    var requiredLiveData: set<ValueSpecification>

    /** Every stored result's specification is a result specification, and nothing else is. */
    ghost predicate Valid()
      reads this
    {
      resultSpecs == SpecificationsOf(results)
    }

    /** `new MockFunction(uniqueIdentifier, target)`: a function with nothing declared yet. */
    constructor (uniqueIdentifier: string, t: ComputationTarget)
      ensures Valid()
      ensures uniqueId == uniqueIdentifier && target == t
      ensures requirements == {} && resultSpecs == {} && results == {} && requiredLiveData == {}
    {
      uniqueId := uniqueIdentifier;
      target := t;
      requirements := {};
      resultSpecs := {};
      results := {};
      requiredLiveData := {};
    }

    /** `new MockFunction(target)`: the same, under the default identifier. */
    constructor WithDefaultId(t: ComputationTarget)
      ensures Valid()
      ensures uniqueId == DEFAULT_UNIQUE_ID && target == t
      ensures requirements == {} && resultSpecs == {} && results == {} && requiredLiveData == {}
    {
      uniqueId := DEFAULT_UNIQUE_ID;
      target := t;
      requirements := {};
      resultSpecs := {};
      results := {};
      requiredLiveData := {};
    }

    method AddRequirement(requirement: ValueRequirement)
      modifies this
      ensures requirements == old(requirements) + {requirement}
      ensures resultSpecs == old(resultSpecs) && results == old(results)
      ensures requiredLiveData == old(requiredLiveData)
    {
      AddRequirements({requirement});
    }

    method AddRequirements(reqs: set<ValueRequirement>)
      modifies this
      ensures requirements == old(requirements) + reqs
      ensures resultSpecs == old(resultSpecs) && results == old(results)
      ensures requiredLiveData == old(requiredLiveData)
    {
      requirements := requirements + reqs;
    }

    /** The specification this function commits to for a requirement. */
    function ToValueSpecification(requirement: ValueRequirement): (s: ValueSpecification)
      ensures s.producer == uniqueId
      ensures IsSatisfiedBy(requirement, s)
      ensures ToRequirement(s) == requirement
    {
      ToSpecification(requirement, uniqueId)
    }

    /** The parameterless getRequirements: every requirement as committed to by this function. */
    method GetRequirementSpecifications() returns (specs: set<ValueSpecification>)
      ensures forall q :: q in requirements ==> ToValueSpecification(q) in specs
      ensures forall s :: s in specs ==> ToRequirement(s) in requirements && s.producer == uniqueId
    {
      specs := {};
      var pending := requirements;
      while pending != {}
        invariant pending <= requirements
        invariant forall q :: q in requirements - pending ==> ToValueSpecification(q) in specs
        invariant forall s :: s in specs ==> ToRequirement(s) in requirements && s.producer == uniqueId
        decreases |pending|
      {
        var q :| q in pending;
        specs := specs + {ToValueSpecification(q)};
        pending := pending - {q};
      }
    }

    /** getResult(spec, result): pairs a specification with a payload. */
    function MakeResult(spec: ValueSpecification, result: Payload): (c: ComputedValue)
      ensures c.specification == spec && c.value == result
    {
      ComputedValue(spec, result)
    }

    /** addResult(requirement, result): stores the payload against this function's specification of the requirement. */
    method AddResultFor(value: ValueRequirement, result: Payload)
      modifies this
      ensures results == old(results) + {ComputedValue(ToValueSpecification(value), result)}
      ensures resultSpecs == old(resultSpecs) + SpecificationsOf(old(results)) + {ToValueSpecification(value)}
      ensures requirements == old(requirements) && requiredLiveData == old(requiredLiveData)
      ensures old(Valid()) ==> Valid()
    {
      var computed := MakeResult(ToValueSpecification(value), result);
      AddComputedResult(computed);
    }

    method AddComputedResult(result: ComputedValue)
      modifies this
      ensures results == old(results) + {result}
      ensures resultSpecs == old(resultSpecs) + SpecificationsOf(old(results)) + {result.specification}
      ensures requirements == old(requirements) && requiredLiveData == old(requiredLiveData)
      ensures old(Valid()) ==> Valid()
    {
      AddResults({result});
    }

    /**
     * addResults: the results are added, then the specification of EVERY
     * stored result (old and new) is added to the result specifications.
     */
    method AddResults(rs: set<ComputedValue>)
      modifies this
      ensures results == old(results) + rs
      ensures resultSpecs == old(resultSpecs) + SpecificationsOf(old(results) + rs)
      ensures requirements == old(requirements) && requiredLiveData == old(requiredLiveData)
      ensures old(Valid()) ==> Valid()
    {
      results := results + rs;
      resultSpecs := AddSpecificationsOf(resultSpecs, results);
      SpecificationsOfUnion(old(results), rs);
    }

    method AddRequiredLiveDataFor(liveData: ValueRequirement)
      modifies this
      ensures requiredLiveData == old(requiredLiveData) + {LiveDataSpecification(liveData)}
      ensures requirements == old(requirements) && results == old(results) && resultSpecs == old(resultSpecs)
    {
      AddRequiredLiveData({liveData});
    }

    /** addRequiredLiveData: one live-data-sourced specification per requirement. */
    method AddRequiredLiveData(liveData: set<ValueRequirement>)
      modifies this
      ensures requiredLiveData == old(requiredLiveData) + set r | r in liveData :: LiveDataSpecification(r)
      ensures requirements == old(requirements) && results == old(results) && resultSpecs == old(resultSpecs)
    {
      var pending := liveData;
      while pending != {}
        invariant pending <= liveData
        invariant requiredLiveData == old(requiredLiveData) + set r | r in liveData - pending :: LiveDataSpecification(r)
        invariant requirements == old(requirements) && results == old(results) && resultSpecs == old(resultSpecs)
        decreases |pending|
      {
        var r :| r in pending;
        assert (set q | q in liveData - (pending - {r}) :: LiveDataSpecification(q))
            == (set q | q in liveData - pending :: LiveDataSpecification(q)) + {LiveDataSpecification(r)};
        requiredLiveData := requiredLiveData + {LiveDataSpecification(r)};
        pending := pending - {r};
      }
      assert liveData - pending == liveData;
    }

    /** canApplyTo: the target is the stored one, compared by specification. */
    predicate CanApplyTo(t: ComputationTarget)
      ensures CanApplyTo(t) <==> t.kind == target.kind && t.uniqueId == target.uniqueId
    {
      ToTargetSpecification(t) == ToTargetSpecification(target)
    }

    /** getRequirements(context, target): the stored requirements, whatever the target. */
    function GetRequirementsFor(t: ComputationTarget): (reqs: set<ValueRequirement>)
      reads this
      ensures reqs == requirements
    {
      requirements
    }

    /** getResults(context, target) and getResultSpecs: the stored result specifications. */
    function GetResultSpecs(): (specs: set<ValueSpecification>)
      reads this
      ensures Valid() ==> specs == SpecificationsOf(results)
    {
      resultSpecs
    }

    /** getResultSpec: the sole result specification, or IllegalStateException. */
    method GetResultSpec() returns (r: Result<ValueSpecification>)
      ensures r.Success? <==> |resultSpecs| == 1
      ensures r.Success? ==> resultSpecs == {r.value}
      ensures r.Failure? ==> r.error.IllegalState?
    {
      if |resultSpecs| != 1 {
        return Failure(IllegalState("Result count must be 1"));
      }
      var s :| s in resultSpecs;
      SingletonIs(resultSpecs, s);
      r := Success(s);
    }

    /** getResultRequirements: each result specification turned back into a requirement. */
    method GetResultRequirements() returns (reqs: set<ValueRequirement>)
      ensures reqs == set s | s in resultSpecs :: ToRequirement(s)
    {
      reqs := {};
      var pending := resultSpecs;
      while pending != {}
        invariant pending <= resultSpecs
        invariant reqs == set s | s in resultSpecs - pending :: ToRequirement(s)
        decreases |pending|
      {
        var s :| s in pending;
        assert (set x | x in resultSpecs - (pending - {s}) :: ToRequirement(x))
            == (set x | x in resultSpecs - pending :: ToRequirement(x)) + {ToRequirement(s)};
        reqs := reqs + {ToRequirement(s)};
        pending := pending - {s};
      }
      assert resultSpecs - pending == resultSpecs;
    }

    /** getResults(): the stored computed values. */
    function GetResults(): (rs: set<ComputedValue>)
      reads this
      ensures rs == results
    {
      results
    }

    /** getResult(): the sole computed value, or IllegalStateException. */
    method GetResult() returns (r: Result<ComputedValue>)
      ensures r.Success? <==> |results| == 1
      ensures r.Success? ==> results == {r.value}
      ensures r.Failure? ==> r.error.IllegalState?
    {
      if |results| != 1 {
        return Failure(IllegalState("Result count must be 1"));
      }
      var c :| c in results;
      SingletonIs(results, c);
      r := Success(c);
    }

    function GetTargetType(): (k: TargetType)
      ensures k == target.kind
    {
      target.kind
    }

    function GetRequiredLiveData(): (specs: set<ValueSpecification>)
      reads this
      ensures specs == requiredLiveData
    {
      requiredLiveData
    }

    /**
     * execute: every stored result that some desired value is satisfied by,
     * and nothing else. The inputs and the target are not consulted.
     */
    method Execute(t: ComputationTarget, desired: set<ValueRequirement>) returns (found: set<ComputedValue>)
      ensures found <= results
      ensures forall c :: c in found ==> SatisfiesSome(desired, c.specification)
      ensures forall c, d :: c in results && d in desired && IsSatisfiedBy(d, c.specification) ==> c in found
    {
      found := {};
      var remaining := desired;
      while remaining != {}
        invariant remaining <= desired
        invariant found <= results
        invariant forall c :: c in found ==> SatisfiesSome(desired, c.specification)
        invariant forall c, d :: c in results && d in desired - remaining && IsSatisfiedBy(d, c.specification) ==> c in found
        decreases |remaining|
      {
        var d :| d in remaining;
        var pending := results;
        while pending != {}
          invariant pending <= results
          invariant found <= results
          invariant forall c :: c in found ==> SatisfiesSome(desired, c.specification)
          invariant forall c, d' :: c in results && d' in desired - remaining && IsSatisfiedBy(d', c.specification) ==> c in found
          invariant forall c :: c in results - pending && IsSatisfiedBy(d, c.specification) ==> c in found
          decreases |pending|
        {
          var c :| c in pending;
          if IsSatisfiedBy(d, c.specification) {
            found := found + {c};
          }
          pending := pending - {c};
        }
        assert desired - (remaining - {d}) == (desired - remaining) + {d};
        remaining := remaining - {d};
      }
      assert desired - remaining == desired;
    }
  }

  /** A set of size one is the singleton of any of its elements. */
  lemma SingletonIs<T>(s: set<T>, x: T)
    requires |s| == 1 && x in s
    ensures s == {x}
  {
    assert |s - {x}| == 0;
  }

  /** getOutputRequirement: "OUTPUT" on the target's specification, unconstrained. */
  function GetOutputRequirement(t: ComputationTarget): (r: ValueRequirement)
    ensures r.valueName == OUTPUT && r.target == ToTargetSpecification(t) && r.constraints == map[]
  {
    ValueRequirement(OUTPUT, ToTargetSpecification(t), map[])
  }

  /** The one computed value a factory-made mock holds. */
  function OutputResult(uniqueIdentifier: string, t: ComputationTarget, output: Payload): (c: ComputedValue)
    ensures c.specification.valueName == OUTPUT
    ensures c.specification.target == ToTargetSpecification(t)
    ensures c.specification.producer == uniqueIdentifier
    ensures c.value == output
  {
    ComputedValue(ToSpecification(GetOutputRequirement(t), uniqueIdentifier), output)
  }

  /** getMockFunction(id, target, output): exactly one result, "OUTPUT" on the target, produced by `id`. */
  method GetMockFunction(uniqueIdentifier: string, t: ComputationTarget, output: Payload) returns (fn: MockFunction)
    ensures fresh(fn) && fn.Valid()
    ensures fn.uniqueId == uniqueIdentifier && fn.target == t
    ensures fn.results == {OutputResult(uniqueIdentifier, t, output)}
    ensures fn.resultSpecs == {OutputResult(uniqueIdentifier, t, output).specification}
    ensures fn.requirements == {} && fn.requiredLiveData == {}
  {
    var outputReq := GetOutputRequirement(t);
    fn := new MockFunction(uniqueIdentifier, t);
    fn.AddResultFor(outputReq, output);
  }

  /** getMockFunction(target, output): the same under the default identifier. */
  method GetDefaultMockFunction(t: ComputationTarget, output: Payload) returns (fn: MockFunction)
    ensures fresh(fn) && fn.Valid()
    ensures fn.uniqueId == DEFAULT_UNIQUE_ID && fn.target == t
    ensures fn.results == {OutputResult(DEFAULT_UNIQUE_ID, t, output)}
    ensures fn.requirements == {} && fn.requiredLiveData == {}
  {
    fn := GetMockFunction(DEFAULT_UNIQUE_ID, t, output);
  }

  /** getMockFunction(id, target, output, input): additionally requires `input`. */
  method GetMockFunctionWithInput(uniqueIdentifier: string, t: ComputationTarget, output: Payload, input: ValueRequirement)
    returns (fn: MockFunction)
    ensures fresh(fn) && fn.Valid()
    ensures fn.uniqueId == uniqueIdentifier && fn.target == t
    ensures fn.results == {OutputResult(uniqueIdentifier, t, output)}
    ensures fn.requirements == {input} && fn.requiredLiveData == {}
  {
    fn := GetMockFunction(uniqueIdentifier, t, output);
    fn.AddRequirement(input);
  }

  /**
   * getMockFunction(id, target, output, inputFunction): one requirement per
   * result specification of the input function.
   */
  method GetMockFunctionFromInputFunction(uniqueIdentifier: string, t: ComputationTarget, output: Payload,
                                          inputFunction: MockFunction)
    returns (fn: MockFunction)
    ensures fresh(fn) && fn.Valid()
    ensures fn.uniqueId == uniqueIdentifier && fn.target == t
    ensures fn.results == {OutputResult(uniqueIdentifier, t, output)}
    ensures fn.requirements == set s | s in inputFunction.resultSpecs :: ToRequirement(s)
    ensures fn.requiredLiveData == {}
  {
    fn := GetMockFunction(uniqueIdentifier, t, output);
    var specs := inputFunction.resultSpecs;
    var pending := specs;
    while pending != {}
      invariant pending <= specs
      invariant fn.Valid() && fn.uniqueId == uniqueIdentifier && fn.target == t
      invariant fn.results == {OutputResult(uniqueIdentifier, t, output)}
      invariant fn.requirements == set s | s in specs - pending :: ToRequirement(s)
      invariant fn.requiredLiveData == {}
      decreases |pending|
    {
      var s :| s in pending;
      assert (set x | x in specs - (pending - {s}) :: ToRequirement(x))
          == (set x | x in specs - pending :: ToRequirement(x)) + {ToRequirement(s)};
      fn.AddRequirement(ToRequirement(s));
      pending := pending - {s};
    }
    assert specs - pending == specs;
  }

  /** canApplyTo holds for the stored target and ignores the resolved object behind a target. */
  lemma CanApplyToBySpecification(fn: MockFunction, t: ComputationTarget, subject: int)
    ensures fn.CanApplyTo(fn.target)
    ensures fn.CanApplyTo(t) == fn.CanApplyTo(ComputationTarget(t.kind, t.uniqueId, subject))
  {
  }

  /** The result a factory-made mock holds satisfies the output requirement of its target. */
  lemma OutputResultSatisfiesOutputRequirement(uniqueIdentifier: string, t: ComputationTarget, output: Payload,
                                                t2: ComputationTarget)
    ensures IsSatisfiedBy(GetOutputRequirement(t2), OutputResult(uniqueIdentifier, t, output).specification)
        <==> ToTargetSpecification(t2) == ToTargetSpecification(t)
  {
  }
}
