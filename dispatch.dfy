/**
 * What the 30-qubit scripts hand to the two simulator runs. The counts run takes the
 * circuit as built; the statevector run of thirty-bw2-wcsv11.py and thirty-bw2-wcsv7.py
 * takes `qc.remove_final_measurements(inplace=False)`, the circuit without its
 * trailing measure steps.
 */
module Dispatch {
  import opened Circuits
  import opened Brickwork
  import opened ThirtyQubitScripts

  /** The list ends in a measure step. */
  predicate EndsInMeasure(ops: seq<Op>)
  {
    ops != [] && ops[|ops| - 1].Measure?
  }

  /**
   * `remove_final_measurements`: the trailing measure steps are dropped. The result is a
   * prefix of the list that does not itself end in a measure step, and only measure steps
   * were cut off.
   */
  function StripFinalMeasures(ops: seq<Op>): (r: seq<Op>)
    ensures |r| <= |ops| && r == ops[..|r|]
    ensures !EndsInMeasure(r)
    ensures forall i :: |r| <= i < |ops| ==> ops[i].Measure?
    decreases |ops|
  {
    if EndsInMeasure(ops) then StripFinalMeasures(ops[..|ops| - 1]) else ops
  }

  /** Stripping twice strips nothing more. */
  lemma {:induction false} StripIdempotent(ops: seq<Op>)
    ensures StripFinalMeasures(StripFinalMeasures(ops)) == StripFinalMeasures(ops)
  {
  }

  /** A list with no measure step in it, followed by measure_all's marker, strips back to the list. */
  lemma {:induction false} StripAddedMeasure(ops: seq<Op>, n: nat)
    requires forall i :: 0 <= i < |ops| ==> !ops[i].Measure?
    ensures StripFinalMeasures(ops + [MeasureAll(n)]) == ops
  {
    var full := ops + [MeasureAll(n)];
    assert full[..|full| - 1] == ops;
  }

  /** A list that counts no measure step holds none. */
  lemma {:induction false} NoMeasureStep(ops: seq<Op>)
    requires Count(ops, MeasureStep) == 0
    ensures forall i :: 0 <= i < |ops| ==> !ops[i].Measure?
    decreases |ops|
  {
    if ops != [] {
      var prefix := ops[..|ops| - 1];
      NoMeasureStep(prefix);
      forall i | 0 <= i < |ops| ensures !ops[i].Measure? {
        if i < |prefix| {
          assert ops[i] == prefix[i];
        }
      }
    }
  }

  /**
   * `run_qiskit_simulation` of thirty-bw2-wcsv11.py and thirty-bw2-wcsv7.py: the counts run
   * gets the circuit as built; the statevector run gets a prefix of it that does not end in
   * a measure step, and only measure steps are left off.
   */
  function RunInputs(ops: seq<Op>): (r: (seq<Op>, seq<Op>))
    ensures r.0 == ops
    ensures |r.1| <= |r.0| && r.1 == r.0[..|r.1|]
    ensures !EndsInMeasure(r.1)
    ensures forall i :: |r.1| <= i < |r.0| ==> r.0[i].Measure?
  {
    (ops, StripFinalMeasures(ops))
  }

  /**
   * The statevector run of thirty-bw2-wcsv11.py simulates exactly the seven layers that
   * thirty-bw2-statevec-v4.py builds without a measure step, while its counts run keeps
   * the measure step.
   */
  lemma {:induction false} Wcsv11Dispatch()
    ensures RunInputs(PlotLayers() + [MeasureAll(30)]).1 == PlotLayers()
    ensures EndsInMeasure(RunInputs(PlotLayers() + [MeasureAll(30)]).0)
  {
    PlotCounts(MeasureStep);
    NoMeasureStep(PlotLayers());
    StripAddedMeasure(PlotLayers(), 30);
  }

  /**
   * The statevector run of thirty-bw2-wcsv7.py simulates its seven broadcast layers without
   * the measure step; thirty-bw2-statevec.py hands the same layers to its statevector run
   * with the measure step still on.
   */
  lemma {:induction false} Wcsv7Dispatch()
    ensures RunInputs(BroadcastLayers() + [MeasureAll(30)]).1 == BroadcastLayers()
    ensures EndsInMeasure(RunInputs(BroadcastLayers() + [MeasureAll(30)]).0)
  {
    BroadcastCounts(MeasureStep);
    NoMeasureStep(BroadcastLayers());
    StripAddedMeasure(BroadcastLayers(), 30);
  }
}
