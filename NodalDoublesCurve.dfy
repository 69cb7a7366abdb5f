/**
 * NodalDoublesCurve: a curve defined only at its nodes. A y value exists
 * for an x exactly when x is one of the nodes; it is found by binary search
 * over the ascending x data.
 */
module NodalCurves {

  import opened Base

  /** The curve's data, as held by its ArraysDoublesCurve superclass. */
  datatype NodalDoublesCurve = NodalDoublesCurve(xData: seq<real>, yData: seq<real>, name: Option<string>)

  predicate Ascending(xs: seq<real>)
  {
    forall i, j :: 0 <= i < j < |xs| ==> xs[i] <= xs[j]
  }

  predicate StrictlyAscending(xs: seq<real>)
  {
    forall i, j :: 0 <= i < j < |xs| ==> xs[i] < xs[j]
  }

  /** The superclass invariant: parallel data, x ascending. */
  predicate Valid(c: NodalDoublesCurve)
  {
    |c.xData| == |c.yData| && Ascending(c.xData)
  }

  /**
   * Arrays.binarySearch over an ascending array: the index of a matching
   * element, or -(insertion point) - 1 when there is none, the insertion
   * point being the index of the first element greater than the key.
   */
  method BinarySearch(a: seq<real>, key: real) returns (index: int)
    requires Ascending(a)
    ensures 0 <= index ==> index < |a| && a[index] == key
    ensures index < 0 ==> key !in a
    ensures index < 0 ==> -(index + 1) <= |a|
    ensures index < 0 ==> forall j :: 0 <= j < -(index + 1) ==> a[j] < key
    ensures index < 0 ==> forall j :: -(index + 1) <= j < |a| ==> key < a[j]
  {
    var low := 0;
    var high := |a| - 1;
    while low <= high
      invariant 0 <= low <= high + 1 <= |a|
      invariant forall j :: 0 <= j < low ==> a[j] < key
      invariant forall j :: high < j < |a| ==> key < a[j]
      decreases high - low
    {
      var mid := (low + high) / 2;
      var midVal := a[mid];
      if midVal < key {
        low := mid + 1;
      } else if midVal > key {
        high := mid - 1;
      } else {
        return mid;
      }
    }
    return -(low + 1);
  }

  /** The first index at which `x` occurs: an independent, linear reference. */
  function IndexOf(xs: seq<real>, x: real): (i: nat)
    requires x in xs
    ensures i < |xs| && xs[i] == x
    ensures forall j :: 0 <= j < i ==> xs[j] != x
  {
    if xs[0] == x then 0 else 1 + IndexOf(xs[1..], x)
  }

  /**
   * getYValue: a null x is refused; an x that is not a node is an
   * IllegalArgumentException; otherwise the y value at a matching node.
   */
  method GetYValue(c: NodalDoublesCurve, x: Option<real>) returns (r: Result<real>)
    requires Valid(c)
    ensures x.None? ==> r == Failure(NullArgument("x"))
    ensures x.Some? && x.value !in c.xData ==> r.Failure? && r.error.IllegalArgument?
    ensures r.Success? <==> x.Some? && x.value in c.xData
    ensures r.Success? ==> exists i :: 0 <= i < |c.xData| && c.xData[i] == x.value && c.yData[i] == r.value
    ensures r.Success? && StrictlyAscending(c.xData) ==> r.value == c.yData[IndexOf(c.xData, x.value)]
  {
    if x.None? {
      return Failure(NullArgument("x"));
    }
    var index := BinarySearch(c.xData, x.value);
    if index < 0 {
      return Failure(IllegalArgument("Curve does not contain data for x point"));
    }
    if StrictlyAscending(c.xData) {
      NodeIsUnique(c.xData, index, IndexOf(c.xData, x.value));
    }
    return Success(c.yData[index]);
  }

  /** With strictly ascending x, a node value occurs at one index only. */
  lemma NodeIsUnique(xs: seq<real>, i: nat, j: nat)
    requires StrictlyAscending(xs) && i < |xs| && j < |xs| && xs[i] == xs[j]
    ensures i == j
  {
  }

  /** getYValueParameterSensitivity: not supported for nodal curves. */
  function GetYValueParameterSensitivity(c: NodalDoublesCurve, x: Option<real>): (r: Result<seq<real>>)
    ensures r == Failure(UnsupportedOperation)
  {
    Failure(UnsupportedOperation)
  }

  /** getDyDx: not implemented for nodal curves. */
  function GetDyDx(c: NodalDoublesCurve, x: real): (r: Result<real>)
    ensures r == Failure(NotImplemented)
  {
    Failure(NotImplemented)
  }

  /** The arguments a factory hands to the constructor: the data, whether it is already sorted, and a name. */
  datatype CurveInput = CurveInput(xData: seq<real>, yData: seq<real>, isSorted: bool, name: Option<string>)

  /** The `from` factories: the data is not assumed sorted. */
  function From(xData: seq<real>, yData: seq<real>, name: Option<string>): (input: CurveInput)
    ensures !input.isSorted
    ensures input.xData == xData && input.yData == yData && input.name == name
  {
    CurveInput(xData, yData, false, name)
  }

  /** The `fromSorted` factories: the data is declared sorted ascending in x. */
  function FromSorted(xData: seq<real>, yData: seq<real>, name: Option<string>): (input: CurveInput)
    ensures input.isSorted
    ensures input.xData == xData && input.yData == yData && input.name == name
  {
    CurveInput(xData, yData, true, name)
  }
}
