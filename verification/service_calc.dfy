/** The body of the per-service loop of `calculate_scheme_metrics`, pass by
    pass, each pass proved to compute its specification function. */
module ServiceCalc {
  import opened MetricTypes
  import opened ServiceSpec

  /** First pass over the use cases: gathers `all_params`, the access counter
      (`param_access_count`, a multiset), `read_params` and `write_params`.
      Unknown use cases are passed over. */
  method CollectParams(ops: map<string, Op>, useCases: seq<string>)
    returns (allParams: set<string>, counter: multiset<string>,
             readParams: set<string>, writeParams: set<string>)
    ensures readParams == ReadParams(ops, useCases)
    ensures writeParams == WriteParams(ops, useCases)
    ensures allParams == AllParams(ops, useCases)
    ensures counter == AccessCounter(ops, useCases)
  {
    allParams, counter, readParams, writeParams := {}, multiset{}, {}, {};
    for i := 0 to |useCases|
      invariant readParams == ReadParams(ops, useCases[..i])
      invariant writeParams == WriteParams(ops, useCases[..i])
      invariant allParams == readParams + writeParams
      invariant counter == AccessCounter(ops, useCases[..i])
    {
      var uc := useCases[i];
      ParamsStep(ops, useCases, i);
      if uc !in ops {
        continue;
      }
      var op := ops[uc];
      allParams, counter, readParams := RecordAccesses(op.read, allParams, counter, readParams);
      allParams, counter, writeParams := RecordAccesses(op.write, allParams, counter, writeParams);
    }
    assert useCases[..|useCases|] == useCases;
  }

  /** The inner loop of the first pass over one list (`read` or `write`):
      each entry joins `all_params` and the list's direction set, and bumps
      the counter once. */
  method RecordAccesses(params: seq<string>, allParams: set<string>, counter: multiset<string>, dirParams: set<string>)
    returns (allParams': set<string>, counter': multiset<string>, dirParams': set<string>)
    ensures allParams' == allParams + Elems(params)
    ensures counter' == counter + multiset(params)
    ensures dirParams' == dirParams + Elems(params)
  {
    allParams', counter', dirParams' := allParams, counter, dirParams;
    for j := 0 to |params|
      invariant allParams' == allParams + Elems(params[..j])
      invariant counter' == counter + multiset(params[..j])
      invariant dirParams' == dirParams + Elems(params[..j])
    {
      var param := params[j];
      assert params[..j + 1] == params[..j] + [param];
      allParams' := allParams' + {param};
      counter' := counter' + multiset{param};
      dirParams' := dirParams' + {param};
    }
    assert params[..|params|] == params;
  }

  /** Second pass: one detail entry per known use case, and the service weight O. */
  method OperationDetails(cal: Calculator, useCases: seq<string>, readParams: set<string>, writeParams: set<string>)
    returns (details: seq<OpDetail>, serviceWeight: int)
    ensures details == DetailsOf(cal, readParams, writeParams, useCases)
    ensures serviceWeight == ServiceWeight(cal, useCases)
  {
    details, serviceWeight := [], 0;
    for i := 0 to |useCases|
      invariant details == DetailsOf(cal, readParams, writeParams, useCases[..i])
      invariant serviceWeight == ServiceWeight(cal, useCases[..i])
    {
      var uc := useCases[i];
      assert useCases[..i + 1][..i] == useCases[..i];
      if uc !in cal.operations {
        continue;
      }
      var opType := if uc in cal.opTypeMap then cal.opTypeMap[uc] else "Read";
      var ot := if opType in cal.opWeights then cal.opWeights[opType] else 1;
      serviceWeight := serviceWeight + ot;
      var op := cal.operations[uc];
      var ipr := |Elems(op.read)|;
      var opr := |Elems(op.write)|;
      var fp := if |readParams| > 0 then |readParams| else 1;
      var cp := if |writeParams| > 0 then |writeParams| else 1;
      var dgs := Dgs(ipr, opr, fp, cp);
      details := details + [OpDetail(uc, ipr, opr, fp, cp, ot, dgs, 0.0, 0.0)];
    }
    assert useCases[..|useCases|] == useCases;
  }

  /** Third pass: sets FGS and SGM_Operation on each entry in place and sums SGM. */
  method Granularity(details: seq<OpDetail>, serviceWeight: int) returns (graded: seq<OpDetail>, sgm: real)
    ensures graded == Graded(details, serviceWeight)
    ensures sgm == SumSgmOp(graded)
  {
    graded, sgm := details, 0.0;
    for i := 0 to |details|
      invariant |graded| == |details|
      invariant forall k :: 0 <= k < i ==> graded[k] == Graded1(details[k], serviceWeight)
      invariant forall k :: i <= k < |details| ==> graded[k] == details[k]
      invariant sgm == SumSgmOp(graded[..i])
    {
      var op := graded[i];
      var fgs := if serviceWeight > 0 then op.ot as real / serviceWeight as real else 0.0;
      graded := graded[i := op.(fgs := fgs, sgmOp := op.dgs * fgs)];
      assert graded[i] == Graded1(details[i], serviceWeight);
      assert graded[..i + 1][..i] == graded[..i];
      sgm := sgm + graded[i].sgmOp;
    }
    assert graded[..|graded|] == graded;
  }

  /** The whole per-service block: the three passes, then one row per entry,
      every row carrying the service's figures. */
  method ServiceMetrics(cal: Calculator, schemeName: string, service: Service)
    returns (rows: seq<MetricRow>, figures: ServiceFigures)
    ensures figures.noo == figures.m == |service.useCases|
    ensures figures.f == |AllParams(cal.operations, service.useCases)|
    ensures figures.mf == AccessCount(cal.operations, service.useCases)
    ensures figures == ServiceFiguresOf(cal, service.useCases)
    ensures rows == ServiceRows(cal, schemeName, service)
  {
    var useCases := service.useCases;
    var noo := |useCases|;
    var allParams, counter, readParams, writeParams := CollectParams(cal.operations, useCases);
    var mfSum := |counter|;
    MfCountsEveryEntry(cal.operations, useCases);
    var m := noo;
    var f := |allParams|;
    var lcom := if m * f > 0 then 1.0 - (mfSum as real) / ((m * f) as real) else 0.0;

    var details, serviceWeight := OperationDetails(cal, useCases, readParams, writeParams);
    var graded, sgm := Granularity(details, serviceWeight);
    figures := ServiceFigures(noo, lcom, sgm, mfSum, m, f, serviceWeight);

    rows := EmitRows(schemeName, service.name, figures, graded);
  }

  /** The output pass: one row per entry, each carrying the service's figures. */
  method EmitRows(schemeName: string, serviceName: string, figures: ServiceFigures, graded: seq<OpDetail>)
    returns (rows: seq<MetricRow>)
    ensures rows == RowsOf(schemeName, serviceName, figures, graded)
  {
    rows := [];
    for i := 0 to |graded|
      invariant rows == RowsOf(schemeName, serviceName, figures, graded[..i])
    {
      RowsOfStep(schemeName, serviceName, figures, graded, i);
      rows := rows + [MetricRow(schemeName, serviceName, figures, graded[i])];
    }
    assert graded[..|graded|] == graded;
  }
}
