/** The discharge description of one crossing (Hy8RunnerFlow): the method
    that produces the list of flows, its parameters, and the list itself,
    which `compute_list` recomputes from the parameters before every write.

    The implementing file hy8runner/hy8_runner_flow.py is not part of this
    model; what is modelled here is what its tests pin down. */
module FlowModel {

  const MinDesignMax := "min-design-max"
  const MinMaxIncrement := "min-max-increment"
  const UserDefined := "user-defined"

  /** The fields of one Hy8RunnerFlow, as a value. */
  datatype FlowRecord = FlowRecord(
    flowMethod: string,
    flowMin: real,
    flowDesign: real,
    flowMax: real,
    flowIncrement: real,
    flowList: seq<real>)

  /** A freshly constructed flow: min-design-max, all values zero, no list. */
  function DefaultFlow(): (f: FlowRecord)
    ensures f.flowMethod == MinDesignMax && f.flowList == []
    ensures f.flowMin == f.flowDesign == f.flowMax == f.flowIncrement == 0.0
  {
    FlowRecord(MinDesignMax, 0.0, 0.0, 0.0, 0.0, [])
  }

  /** `value, value + inc, ...` while the value is below `max`, then `max` itself. */
  function IncrementList(value: real, max: real, inc: real): (r: seq<real>)
    requires value < max ==> inc > 0.0
    ensures |r| >= 1
    decreases if value < max then ((max - value) / inc).Floor + 1 else 0
  {
    if value < max then
      StepShrinks(value, max, inc);
      [value] + IncrementList(value + inc, max, inc)
    else [max]
  }

  /** One increment brings the value exactly one step closer to `max`. */
  lemma StepShrinks(value: real, max: real, inc: real)
    requires inc > 0.0 && value < max
    ensures (max - (value + inc)) / inc == (max - value) / inc - 1.0
    ensures ((max - (value + inc)) / inc).Floor == ((max - value) / inc).Floor - 1
    ensures (max - value) / inc > 0.0
  {
    var q := (max - value) / inc;
    var z := (max - (value + inc)) / inc;
    assert q * inc == max - value;
    assert z * inc == max - (value + inc);
    assert (q - 1.0) * inc == q * inc - inc;
    MulCancel(z, q - 1.0, inc);
    if q <= 0.0 { MulMonotone(q, 0.0, inc); }
  }

  lemma MulMonotone(a: real, b: real, c: real)
    requires a <= b && c > 0.0
    ensures a * c <= b * c
  {
  }

  lemma MulCancel(a: real, b: real, c: real)
    requires c > 0.0 && a * c == b * c
    ensures a == b
  {
  }

  /** compute_list would never finish for a min-max-increment flow whose
      increment cannot reach the maximum. */
  predicate Computable(f: FlowRecord) {
    f.flowMethod == MinMaxIncrement && f.flowMin < f.flowMax ==> f.flowIncrement > 0.0
  }

  /** The flow list after compute_list: only `flowList` is recomputed. */
  function ComputedFlow(f: FlowRecord): (r: FlowRecord)
    requires Computable(f)
    ensures r == f.(flowList := r.flowList)
  {
    var list :=
      if f.flowMethod == MinDesignMax then [f.flowMin, f.flowDesign, f.flowMax]
      else if f.flowMethod == MinMaxIncrement then IncrementList(f.flowMin, f.flowMax, f.flowIncrement)
      else f.flowList;
    f.(flowList := list)
  }

  /** Hy8RunnerFlow: a mutable record whose list compute_list refreshes. */
  class Flow {
    var flowMethod: string
    var flowMin: real
    var flowDesign: real
    var flowMax: real
    var flowIncrement: real
    var flowList: seq<real>

    function Record(): FlowRecord
      reads this
    {
      FlowRecord(flowMethod, flowMin, flowDesign, flowMax, flowIncrement, flowList)
    }

    constructor ()
      ensures Record() == DefaultFlow()
    {
      flowMethod := MinDesignMax;
      flowMin, flowDesign, flowMax, flowIncrement := 0.0, 0.0, 0.0, 0.0;
      flowList := [];
    }

    /** Recomputes `flowList` from the method and its parameters. */
    method ComputeList()
      requires Computable(Record())
      modifies this
      ensures Record() == ComputedFlow(old(Record()))
    {
      if flowMethod == MinDesignMax {
        flowList := [flowMin, flowDesign, flowMax];
      } else if flowMethod == MinMaxIncrement {
        var min, max, inc := flowMin, flowMax, flowIncrement;
        var list := [];
        var flow := min;
        while flow < max
          invariant flow < max ==> inc > 0.0
          invariant list + IncrementList(flow, max, inc) == IncrementList(min, max, inc)
          decreases if flow < max then ((max - flow) / inc).Floor + 1 else 0
          modifies {}
        {
          StepShrinks(flow, max, inc);
          list := list + [flow];
          flow := flow + inc;
        }
        assert IncrementList(flow, max, inc) == [max];
        flowList := list + [max];
      }
    }
  }

  // ---------------------------------------------------------------------
  // Properties of the generated lists

  /** The increment list ends with `max`; every earlier entry lies on the
      grid `value + k * inc` and stays strictly below `max`; and the grid
      stops only once its next value reaches `max`, so no grid value below
      `max` is skipped. */
  lemma {:induction false} IncrementListShape(value: real, max: real, inc: real)
    requires value < max ==> inc > 0.0
    ensures var r := IncrementList(value, max, inc);
      |r| >= 1 && r[|r| - 1] == max &&
      (forall k :: 0 <= k < |r| - 1 ==> r[k] == value + (k as real) * inc && r[k] < max) &&
      (value < max ==> value + ((|r| - 1) as real) * inc >= max)
    decreases if value < max then ((max - value) / inc).Floor + 1 else 0
  {
    var r := IncrementList(value, max, inc);
    if value < max {
      var tail := IncrementList(value + inc, max, inc);
      StepShrinks(value, max, inc);
      IncrementListShape(value + inc, max, inc);
      assert r == [value] + tail;
      forall k | 1 <= k < |r| - 1
        ensures r[k] == value + (k as real) * inc
      {
        assert r[k] == tail[k - 1] == value + inc + ((k - 1) as real) * inc;
      }
      if value + inc < max {
        assert value + ((|r| - 1) as real) * inc == value + inc + ((|tail| - 1) as real) * inc;
      }
    }
  }

  /** The increment list is strictly increasing, so `max` never appears twice. */
  lemma IncrementListIncreasing(value: real, max: real, inc: real)
    requires value < max ==> inc > 0.0
    ensures var r := IncrementList(value, max, inc);
      forall i, j :: 0 <= i < j < |r| ==> r[i] < r[j]
  {
    var r := IncrementList(value, max, inc);
    IncrementListShape(value, max, inc);
    forall i, j | 0 <= i < j < |r|
      ensures r[i] < r[j]
    {
      if j < |r| - 1 {
        assert r[j] - r[i] == ((j - i) as real) * inc;
      }
    }
  }

  /** When the increment divides the range exactly (`max == value + n * inc`),
      the list is the grid from `value` to `max` with `n + 1` entries. */
  lemma {:induction false} IncrementListAligned(value: real, inc: real, n: nat)
    requires inc > 0.0
    ensures var r := IncrementList(value, value + (n as real) * inc, inc);
      |r| == n + 1 && forall k :: 0 <= k <= n ==> r[k] == value + (k as real) * inc
    decreases n
  {
    var max := value + (n as real) * inc;
    var r := IncrementList(value, max, inc);
    if n > 0 {
      assert value < max;
      var next := (value + inc) + ((n - 1) as real) * inc;
      assert next == max;
      IncrementListAligned(value + inc, inc, n - 1);
      var tail := IncrementList(value + inc, next, inc);
      assert |tail| == n;
      assert r == [value] + tail;
      forall k | 1 <= k <= n
        ensures r[k] == value + (k as real) * inc
      {
        assert r[k] == tail[k - 1] == (value + inc) + ((k - 1) as real) * inc;
      }
    }
  }

  /** The three fixed methods and the list each produces; any other method
      string leaves the list as it was. */
  lemma ComputedFlowByMethod(f: FlowRecord)
    requires Computable(f)
    ensures var r := ComputedFlow(f);
      r == f.(flowList := r.flowList) &&
      (f.flowMethod == MinDesignMax ==> r.flowList == [f.flowMin, f.flowDesign, f.flowMax]) &&
      (f.flowMethod == MinMaxIncrement ==>
         |r.flowList| >= 1 && r.flowList[0] == (if f.flowMin < f.flowMax then f.flowMin else f.flowMax) &&
         r.flowList[|r.flowList| - 1] == f.flowMax) &&
      (f.flowMethod != MinDesignMax && f.flowMethod != MinMaxIncrement ==> r.flowList == f.flowList)
  {
    if f.flowMethod == MinMaxIncrement {
      IncrementListShape(f.flowMin, f.flowMax, f.flowIncrement);
    }
  }

  /** The four compute_list cases of the flow tests. */
  lemma ComputeListExamples()
    ensures ComputedFlow(FlowRecord(MinDesignMax, 0.0, 100.0, 200.0, 0.0, [])).flowList
            == [0.0, 100.0, 200.0]
    ensures IncrementList(0.0, 200.0, 50.0) == [0.0, 50.0, 100.0, 150.0, 200.0]
    ensures IncrementList(0.0, 200.0, 100.0) == [0.0, 100.0, 200.0]
    ensures IncrementList(0.0, 200.0, 200.0) == [0.0, 200.0]
  {
    IncrementListAligned(0.0, 50.0, 4);
    IncrementListAligned(0.0, 100.0, 2);
    IncrementListAligned(0.0, 200.0, 1);
  }
}
