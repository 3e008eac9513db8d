/** `calculate_metrics`: the per-scheme computation over every scheme, a
    failing scheme skipped without stopping the others. */
module Batch {
  import opened MetricTypes
  import opened SchemeCalc
  import opened SeqMap

  /** A scheme's name with the outcome of its computation. */
  datatype SchemeRun = SchemeRun(name: string, outcome: Result<SchemeOutput, SchemeError>)

  /** One scheme's computation, as a function value. */
  function RunScheme(cal: Calculator): Scheme -> SchemeRun
  {
    (s: Scheme) => SchemeRun(s.name, SchemeOutcome(cal, s.name, s.services))
  }

  /** Every scheme run in turn, each on its own. */
  function Runs(cal: Calculator, schemes: seq<Scheme>): seq<SchemeRun>
  {
    Map(RunScheme(cal), schemes)
  }

  /** The summary row of a scheme that succeeded. */
  function SummaryOf(name: string, m: SchemeMetrics): SummaryRow
  {
    SummaryRow(name, m.alcom, m.asgm, m.maxNoo)
  }

  /** The detailed rows of the runs that succeeded, in run order. */
  function CollectRows(runs: seq<SchemeRun>): seq<MetricRow>
  {
    if runs == [] then []
    else
      var last := runs[|runs| - 1];
      CollectRows(runs[..|runs| - 1]) + (if last.outcome.Success? then last.outcome.value.rows else [])
  }

  /** One summary row per run that succeeded, in run order. */
  function CollectSummary(runs: seq<SchemeRun>): seq<SummaryRow>
  {
    if runs == [] then []
    else
      var last := runs[|runs| - 1];
      CollectSummary(runs[..|runs| - 1]) +
        (if last.outcome.Success? then [SummaryOf(last.name, last.outcome.value.metrics)] else [])
  }

  function BatchRows(cal: Calculator, schemes: seq<Scheme>): seq<MetricRow>
  {
    CollectRows(Runs(cal, schemes))
  }

  function BatchSummary(cal: Calculator, schemes: seq<Scheme>): seq<SummaryRow>
  {
    CollectSummary(Runs(cal, schemes))
  }

  /** `calculate_metrics`. */
  method CalculateMetrics(cal: Calculator) returns (allResults: seq<MetricRow>, schemeSummary: seq<SummaryRow>)
    ensures cal.schemes == [] ==> allResults == [] && schemeSummary == []
    ensures allResults == BatchRows(cal, cal.schemes)
    ensures schemeSummary == BatchSummary(cal, cal.schemes)
  {
    allResults, schemeSummary := [], [];
    if cal.schemes == [] {
      return;
    }
    var schemes := cal.schemes;
    ghost var runs := Runs(cal, schemes);
    for i := 0 to |schemes|
      invariant allResults == CollectRows(runs[..i])
      invariant schemeSummary == CollectSummary(runs[..i])
    {
      var scheme := schemes[i];
      assert runs[..i + 1][..i] == runs[..i];
      var r := CalculateSchemeMetrics(cal, scheme.name, scheme.services);
      assert runs[i] == SchemeRun(scheme.name, r);
      match r {
        case Failure(_) =>
          continue;
        case Success(out) =>
          allResults := allResults + out.rows;
          schemeSummary := schemeSummary + [SummaryOf(scheme.name, out.metrics)];
      }
    }
    assert runs[..|schemes|] == runs;
  }

  lemma {:induction false} CollectRowsAppend(r1: seq<SchemeRun>, r2: seq<SchemeRun>)
    ensures CollectRows(r1 + r2) == CollectRows(r1) + CollectRows(r2)
  {
    if r2 == [] {
      assert r1 + r2 == r1;
    } else {
      var n := |r2| - 1;
      var r := r1 + r2;
      assert r[..|r| - 1] == r1 + r2[..n];
      assert r[|r| - 1] == r2[n];
      CollectRowsAppend(r1, r2[..n]);
    }
  }

  lemma {:induction false} CollectSummaryAppend(r1: seq<SchemeRun>, r2: seq<SchemeRun>)
    ensures CollectSummary(r1 + r2) == CollectSummary(r1) + CollectSummary(r2)
  {
    if r2 == [] {
      assert r1 + r2 == r1;
    } else {
      var n := |r2| - 1;
      var r := r1 + r2;
      assert r[..|r| - 1] == r1 + r2[..n];
      assert r[|r| - 1] == r2[n];
      CollectSummaryAppend(r1, r2[..n]);
    }
  }

  /** The batch over two runs of schemes is the two batches side by side. */
  lemma BatchAppend(cal: Calculator, a: seq<Scheme>, b: seq<Scheme>)
    ensures BatchRows(cal, a + b) == BatchRows(cal, a) + BatchRows(cal, b)
    ensures BatchSummary(cal, a + b) == BatchSummary(cal, a) + BatchSummary(cal, b)
  {
    MapAppend(RunScheme(cal), a, b);
    CollectRowsAppend(Runs(cal, a), Runs(cal, b));
    CollectSummaryAppend(Runs(cal, a), Runs(cal, b));
  }

  /** The batch over one scheme: its rows and summary row, or nothing. */
  lemma SingleScheme(cal: Calculator, s: Scheme)
    ensures BatchRows(cal, [s]) ==
              if s.services == [] then [] else SchemeRows(cal, s.name, s.services)
    ensures BatchSummary(cal, [s]) ==
              if s.services == [] then []
              else [SummaryOf(s.name, SchemeOutcome(cal, s.name, s.services).value.metrics)]
  {
    var single := Runs(cal, [s]);
    assert single[..0] == [];
    var out := SchemeOutcome(cal, s.name, s.services);
    assert single[0] == SchemeRun(s.name, out);
    assert CollectRows(single) == CollectRows([]) + (if out.Success? then out.value.rows else []);
    assert CollectSummary(single) ==
      CollectSummary([]) + (if out.Success? then [SummaryOf(s.name, out.value.metrics)] else []);
  }

  /** A scheme with no services contributes neither rows nor a summary row,
      and the schemes around it produce what they would without it. */
  lemma FailingSchemeIsIsolated(cal: Calculator, before: seq<Scheme>, bad: Scheme, after: seq<Scheme>)
    requires bad.services == []
    ensures BatchRows(cal, before + [bad] + after) == BatchRows(cal, before + after)
    ensures BatchSummary(cal, before + [bad] + after) == BatchSummary(cal, before + after)
  {
    SingleScheme(cal, bad);
    BatchAppend(cal, before + [bad], after);
    BatchAppend(cal, before, [bad]);
    BatchAppend(cal, before, after);
  }

  /** A scheme with services adds its own rows and exactly one summary row,
      in its place among the others. */
  lemma SchemeWithServicesContributes(cal: Calculator, before: seq<Scheme>, s: Scheme, after: seq<Scheme>)
    requires s.services != []
    ensures var out := SchemeOutcome(cal, s.name, s.services).value;
      && BatchRows(cal, before + [s] + after) ==
           BatchRows(cal, before) + SchemeRows(cal, s.name, s.services) + BatchRows(cal, after)
      && BatchSummary(cal, before + [s] + after) ==
           BatchSummary(cal, before) + [SummaryOf(s.name, out.metrics)] + BatchSummary(cal, after)
  {
    SingleScheme(cal, s);
    BatchAppend(cal, before + [s], after);
    BatchAppend(cal, before, [s]);
  }
}
