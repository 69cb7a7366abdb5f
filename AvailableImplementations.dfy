/**
 * AvailableImplementationsImpl: a set-multimap from interface types to the
 * concrete types registered as implementing them.
 */
module AvailableImplementations {

  import opened Base

  /** A Java class object, with the two reflective facts `register` consults. */
  datatype JavaClass = JavaClass(name: string, isInterface: bool, isPrimitive: bool)

  /** The multimap: every key maps to a non-empty set of implementations, as in a HashMultimap. */
  type Multimap = map<JavaClass, set<JavaClass>>

  ghost predicate NoEmptyKeys(m: Multimap)
  {
    forall i :: i in m ==> m[i] != {}
  }

  /** SetMultimap.get: the implementations of `i`, empty when none is registered. */
  function Get(m: Multimap, i: JavaClass): (impls: set<JavaClass>)
    ensures i !in m ==> impls == {}
    ensures i in m ==> impls == m[i]
  {
    if i in m then m[i] else {}
  }

  /** `put(iface, type)` for every interface in `ifaces`. */
  function PutAll(m: Multimap, ifaces: set<JavaClass>, t: JavaClass): (r: Multimap)
    ensures r.Keys == m.Keys + ifaces
    ensures forall i :: Get(r, i) == Get(m, i) + (if i in ifaces then {t} else {})
  {
    map i | i in m.Keys + ifaces :: Get(m, i) + (if i in ifaces then {t} else {})
  }

  /** A type that `register` refuses, stopping the whole call. */
  predicate StopsRegistration(t: JavaClass)
  {
    t.isInterface || t.isPrimitive
  }

  /**
   * The multimap after `register(types...)`: each concrete type is put under
   * each of its interfaces, until the first interface or primitive type,
   * where registration ends (that type and every later one are skipped).
   */
  ghost function Registered(m: Multimap, types: seq<JavaClass>, interfacesOf: JavaClass -> set<JavaClass>): (r: Multimap)
    ensures m.Keys <= r.Keys
    ensures NoEmptyKeys(m) ==> NoEmptyKeys(r)
    decreases |types|
  {
    if types == [] || StopsRegistration(types[0]) then m
    else
      PutAllNoEmptyKeys(m, interfacesOf(types[0]), types[0]);
      Registered(PutAll(m, interfacesOf(types[0]), types[0]), types[1..], interfacesOf)
  }

  /** The longest prefix of `types` with no interface or primitive type: the types that get registered. */
  function ConcretePrefix(types: seq<JavaClass>): (p: seq<JavaClass>)
    ensures |p| <= |types| && p == types[..|p|]
    ensures forall k :: 0 <= k < |p| ==> !StopsRegistration(p[k])
    ensures |p| < |types| ==> StopsRegistration(types[|p|])
  {
    if types == [] || StopsRegistration(types[0]) then [] else [types[0]] + ConcretePrefix(types[1..])
  }

  class AvailableImplementationsImpl {
    var interfaceToImplementations: Multimap

    ghost predicate Valid()
      reads this
    {
      NoEmptyKeys(interfaceToImplementations)
    }

    constructor ()
      ensures Valid() && interfaceToImplementations == map[]
    {
      interfaceToImplementations := map[];
    }

    /** getImplementationTypes: every type registered under the interface. */
    function GetImplementationTypes(interfaceType: JavaClass): (impls: set<JavaClass>)
      reads this
      ensures interfaceType !in interfaceToImplementations ==> impls == {}
      ensures Valid() ==> (impls == {} <==> interfaceType !in interfaceToImplementations)
      ensures forall t :: t in impls <==> interfaceType in interfaceToImplementations && t in interfaceToImplementations[interfaceType]
    {
      Get(interfaceToImplementations, interfaceType)
    }

    /** getDefaultImplementation: the sole implementation, or null for none or several. */
    method GetDefaultImplementation(interfaceType: JavaClass) returns (impl: Option<JavaClass>)
      ensures impl.Some? <==> |GetImplementationTypes(interfaceType)| == 1
      ensures impl.Some? ==> GetImplementationTypes(interfaceType) == {impl.value}
    {
      var impls := Get(interfaceToImplementations, interfaceType);
      if |impls| == 1 {
        var t :| t in impls;
        assert |impls - {t}| == 0;
        return Some(t);
      }
      return None;
    }

    /** The inner loop of register: `put(iface, type)` for each interface of the type. */
    method PutUnderInterfaces(t: JavaClass, interfaces: set<JavaClass>)
      requires Valid()
      modifies this
      ensures Valid()
      ensures interfaceToImplementations == PutAll(old(interfaceToImplementations), interfaces, t)
    {
      ghost var before := interfaceToImplementations;
      var pending := interfaces;
      assert interfaces - pending == {};
      PutAllNothing(before, t);
      while pending != {}
        invariant pending <= interfaces
        invariant interfaceToImplementations == PutAll(before, interfaces - pending, t)
        decreases |pending|
      {
        var iface :| iface in pending;
        PutAllNext(before, interfaces, pending, iface, t);
        interfaceToImplementations := interfaceToImplementations[iface := Get(interfaceToImplementations, iface) + {t}];
        pending := pending - {iface};
      }
      assert interfaces - pending == interfaces;
      PutAllNoEmptyKeys(before, interfaces, t);
    }

    /** register(types...), with EngineFunctionUtils.getInterfaces passed in as `interfacesOf`. */
    method Register(types: seq<JavaClass>, interfacesOf: JavaClass -> set<JavaClass>)
      requires Valid()
      modifies this
      ensures Valid()
      ensures interfaceToImplementations == Registered(old(interfaceToImplementations), types, interfacesOf)
    {
      var k := 0;
      while k < |types|
        invariant 0 <= k <= |types|
        invariant Valid()
        invariant Registered(old(interfaceToImplementations), types, interfacesOf)
               == Registered(interfaceToImplementations, types[k..], interfacesOf)
        decreases |types| - k
      {
        var t := types[k];
        if t.isInterface || t.isPrimitive {
          return;
        }
        PutUnderInterfaces(t, interfacesOf(t));
        assert types[k..][1..] == types[k + 1..];
        k := k + 1;
      }
    }
  }

  /** Putting keeps every key's set non-empty. */
  lemma PutAllNoEmptyKeys(m: Multimap, ifaces: set<JavaClass>, t: JavaClass)
    ensures NoEmptyKeys(m) ==> NoEmptyKeys(PutAll(m, ifaces, t))
  {
    if NoEmptyKeys(m) {
      var r := PutAll(m, ifaces, t);
      forall i | i in r ensures r[i] != {} {
        assert Get(r, i) == Get(m, i) + (if i in ifaces then {t} else {});
      }
    }
  }

  /** Putting under no interface changes nothing. */
  lemma PutAllNothing(m: Multimap, t: JavaClass)
    ensures PutAll(m, {}, t) == m
  {
    var r := PutAll(m, {}, t);
    forall i | i in r.Keys ensures r[i] == m[i] {
      assert Get(r, i) == Get(m, i);
    }
  }

  /** One more `put` extends the interfaces already done by one. */
  lemma PutAllStep(m: Multimap, done: set<JavaClass>, iface: JavaClass, t: JavaClass)
    ensures PutAll(m, done, t)[iface := Get(PutAll(m, done, t), iface) + {t}] == PutAll(m, done + {iface}, t)
  {
    var before := PutAll(m, done, t);
    var lhs := before[iface := Get(before, iface) + {t}];
    var rhs := PutAll(m, done + {iface}, t);
    assert lhs.Keys == rhs.Keys;
    forall i | i in lhs.Keys ensures lhs[i] == rhs[i] {
      if i == iface {
        assert lhs[i] == Get(m, i) + {t};
      } else {
        assert lhs[i] == Get(before, i);
      }
    }
  }

  lemma PutAllNext(m: Multimap, interfaces: set<JavaClass>, pending: set<JavaClass>, iface: JavaClass, t: JavaClass)
    requires pending <= interfaces && iface in pending
    ensures var current := PutAll(m, interfaces - pending, t);
      current[iface := Get(current, iface) + {t}] == PutAll(m, interfaces - (pending - {iface}), t)
  {
    PutAllStep(m, interfaces - pending, iface, t);
    assert (interfaces - pending) + {iface} == interfaces - (pending - {iface});
  }

  /** Registration only adds: every pair present before is present after. */
  lemma {:induction false} RegisteredKeepsPairs(m: Multimap, types: seq<JavaClass>, interfacesOf: JavaClass -> set<JavaClass>,
                                                i: JavaClass)
    ensures Get(m, i) <= Get(Registered(m, types, interfacesOf), i)
    decreases |types|
  {
    if types != [] && !StopsRegistration(types[0]) {
      RegisteredKeepsPairs(PutAll(m, interfacesOf(types[0]), types[0]), types[1..], interfacesOf, i);
    }
  }

  /**
   * Exactly the concrete prefix is registered: `t` is added under `i` iff
   * it was there already or it is a type of the prefix that implements `i`.
   */
  lemma {:induction false} RegisteredIsPrefixPut(m: Multimap, types: seq<JavaClass>, interfacesOf: JavaClass -> set<JavaClass>,
                                                 i: JavaClass, t: JavaClass)
    ensures t in Get(Registered(m, types, interfacesOf), i)
        <==> t in Get(m, i) || (t in ConcretePrefix(types) && i in interfacesOf(t))
    decreases |types|
  {
    if types != [] && !StopsRegistration(types[0]) {
      RegisteredIsPrefixPut(PutAll(m, interfacesOf(types[0]), types[0]), types[1..], interfacesOf, i, t);
    }
  }

  /** After registering a concrete type, it is an implementation of each of its interfaces. */
  lemma RegisteredConcreteIsFound(m: Multimap, t: JavaClass, interfacesOf: JavaClass -> set<JavaClass>, i: JavaClass)
    requires !StopsRegistration(t) && i in interfacesOf(t)
    ensures t in Get(Registered(m, [t], interfacesOf), i)
  {
    RegisteredIsPrefixPut(m, [t], interfacesOf, i, t);
  }

  /** Nothing from the first interface or primitive type onward is registered (unless it was already). */
  lemma StopsAtFirstRefusedType(m: Multimap, types: seq<JavaClass>, interfacesOf: JavaClass -> set<JavaClass>, k: nat)
    requires k < |types| && StopsRegistration(types[k])
    ensures Registered(m, types, interfacesOf) == Registered(m, types[..k], interfacesOf)
  {
    StopsAtFirstRefusedTypeFrom(m, types, interfacesOf, k);
  }

  lemma {:induction false} StopsAtFirstRefusedTypeFrom(m: Multimap, types: seq<JavaClass>, interfacesOf: JavaClass -> set<JavaClass>, k: nat)
    requires k < |types| && StopsRegistration(types[k])
    ensures Registered(m, types, interfacesOf) == Registered(m, types[..k], interfacesOf)
    decreases k
  {
    if k > 0 && !StopsRegistration(types[0]) {
      assert types[1..][..k - 1] == types[..k][1..];
      StopsAtFirstRefusedTypeFrom(PutAll(m, interfacesOf(types[0]), types[0]), types[1..], interfacesOf, k - 1);
    }
  }

  /** Registering the same types a second time changes nothing. */
  lemma RegisterTwiceIsIdempotent(m: Multimap, types: seq<JavaClass>, interfacesOf: JavaClass -> set<JavaClass>)
    ensures Registered(Registered(m, types, interfacesOf), types, interfacesOf) == Registered(m, types, interfacesOf)
  {
    var once := Registered(m, types, interfacesOf);
    var twice := Registered(once, types, interfacesOf);
    RegisteredKeys(m, types, interfacesOf);
    RegisteredKeys(once, types, interfacesOf);
    forall i | i in twice.Keys
      ensures twice[i] == once[i]
    {
      forall t
        ensures t in Get(twice, i) <==> t in Get(once, i)
      {
        RegisteredIsPrefixPut(once, types, interfacesOf, i, t);
        RegisteredIsPrefixPut(m, types, interfacesOf, i, t);
      }
    }
  }

  /** The keys after registration: the old ones plus the interfaces of the concrete prefix. */
  lemma {:induction false} RegisteredKeys(m: Multimap, types: seq<JavaClass>, interfacesOf: JavaClass -> set<JavaClass>)
    ensures Registered(m, types, interfacesOf).Keys == m.Keys + set t, i | t in ConcretePrefix(types) && i in interfacesOf(t) :: i
    decreases |types|
  {
    if types != [] && !StopsRegistration(types[0]) {
      RegisteredKeys(PutAll(m, interfacesOf(types[0]), types[0]), types[1..], interfacesOf);
    }
  }

  /** An interface that no registered type implements, and that had no implementations, still has none. */
  lemma NeverRegisteredStaysEmpty(m: Multimap, types: seq<JavaClass>, interfacesOf: JavaClass -> set<JavaClass>, i: JavaClass)
    requires i !in m
    requires forall t :: t in ConcretePrefix(types) ==> i !in interfacesOf(t)
    ensures Get(Registered(m, types, interfacesOf), i) == {}
  {
    forall t
      ensures t !in Get(Registered(m, types, interfacesOf), i)
    {
      RegisteredIsPrefixPut(m, types, interfacesOf, i, t);
    }
  }
}
