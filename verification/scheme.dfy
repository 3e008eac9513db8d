/** `calculate_scheme_metrics`: every service of one scheme, then the
    scheme-level averages and maximum. */
module SchemeCalc {
  import opened MetricTypes
  import opened ServiceSpec
  import opened ServiceCalc
  import opened SeqMap

  /** What one service contributes to its scheme: nothing when its use-case
      list is empty, otherwise its rows and its figures. */
  datatype ServiceRun = Skipped | Ran(rows: seq<MetricRow>, figures: ServiceFigures)

  function RunOf(cal: Calculator, name: string, svc: Service): ServiceRun
  {
    if svc.useCases == [] then Skipped
    else Ran(ServiceRows(cal, name, svc), ServiceFiguresOf(cal, svc.useCases))
  }

  /** `RunOf` for one scheme, as a function value. */
  function RunFn(cal: Calculator, name: string): Service -> ServiceRun
  {
    (svc: Service) => RunOf(cal, name, svc)
  }

  /** The contribution of each service, in service order. */
  function ServiceRuns(cal: Calculator, name: string, services: seq<Service>): seq<ServiceRun>
  {
    Map(RunFn(cal, name), services)
  }

  /** The rows of consecutive service contributions, concatenated. */
  function RunRows(runs: seq<ServiceRun>): seq<MetricRow>
  {
    if runs == [] then []
    else
      var last := runs[|runs| - 1];
      RunRows(runs[..|runs| - 1]) + (if last.Ran? then last.rows else [])
  }

  /** The running ALCOM numerator: LCOM summed over the services that ran. */
  function RunLcom(runs: seq<ServiceRun>): real
  {
    if runs == [] then 0.0
    else
      var last := runs[|runs| - 1];
      RunLcom(runs[..|runs| - 1]) + (if last.Ran? then last.figures.lcom else 0.0)
  }

  /** The running ASGM numerator: SGM summed over the services that ran. */
  function RunSgm(runs: seq<ServiceRun>): real
  {
    if runs == [] then 0.0
    else
      var last := runs[|runs| - 1];
      RunSgm(runs[..|runs| - 1]) + (if last.Ran? then last.figures.sgm else 0.0)
  }

  /** The detailed rows of a scheme: its services' rows, in service order. */
  function SchemeRows(cal: Calculator, name: string, services: seq<Service>): seq<MetricRow>
  {
    RunRows(ServiceRuns(cal, name, services))
  }

  /** The sum of LCOM over the services with use cases. */
  function LcomSum(cal: Calculator, name: string, services: seq<Service>): real
  {
    RunLcom(ServiceRuns(cal, name, services))
  }

  /** The sum of SGM over the services with use cases. */
  function SgmSum(cal: Calculator, name: string, services: seq<Service>): real
  {
    RunSgm(ServiceRuns(cal, name, services))
  }

  /** The running `Max_NOO`, starting at 0 and updated by each service with use cases. */
  function MaxNoo(services: seq<Service>): nat
  {
    if services == [] then 0
    else
      var svc := services[|services| - 1];
      var before := MaxNoo(services[..|services| - 1]);
      if svc.useCases == [] then before else Max(before, |svc.useCases|)
  }

  /** The scheme-level metrics: the LCOM and SGM sums divided by the number
      of DECLARED services, those skipped for having no use cases included,
      and Max_NOO. */
  function SchemeAverages(cal: Calculator, name: string, services: seq<Service>): SchemeMetrics
    requires services != []
  {
    var n := |services| as real;
    SchemeMetrics(LcomSum(cal, name, services) / n, SgmSum(cal, name, services) / n, MaxNoo(services))
  }

  /** The outcome of one scheme: rejected when it has no services; otherwise
      its rows and its averages. */
  function SchemeOutcome(cal: Calculator, name: string, services: seq<Service>): Result<SchemeOutput, SchemeError>
  {
    if services == [] then Failure(NoServicesDefined)
    else Success(SchemeOutput(SchemeRows(cal, name, services), SchemeAverages(cal, name, services)))
  }

  /** `calculate_scheme_metrics`. */
  method CalculateSchemeMetrics(cal: Calculator, schemeName: string, services: seq<Service>)
    returns (r: Result<SchemeOutput, SchemeError>)
    ensures r.Failure? <==> services == []
    ensures r == SchemeOutcome(cal, schemeName, services)
  {
    if services == [] {
      return Failure(NoServicesDefined);
    }
    var results: seq<MetricRow> := [];
    var alcom: real, asgm: real, maxNoo: nat := 0.0, 0.0, 0;
    var serviceCount := |services|;
    for i := 0 to |services|
      invariant results == SchemeRows(cal, schemeName, services[..i])
      invariant alcom == LcomSum(cal, schemeName, services[..i])
      invariant asgm == SgmSum(cal, schemeName, services[..i])
      invariant maxNoo == MaxNoo(services[..i])
    {
      var service := services[i];
      ServiceStep(cal, schemeName, services, i);
      var useCases := service.useCases;
      if useCases == [] {
        continue;
      }
      var noo := |useCases|;
      maxNoo := if maxNoo < noo then noo else maxNoo;
      var rows, figures := ServiceMetrics(cal, schemeName, service);
      assert LcomSum(cal, schemeName, services[..i + 1]) == alcom + figures.lcom;
      assert SgmSum(cal, schemeName, services[..i + 1]) == asgm + figures.sgm;
      results := results + rows;
      alcom := alcom + figures.lcom;
      asgm := asgm + figures.sgm;
    }
    assert services[..|services|] == services;
    // always true here: the empty list was rejected above
    if serviceCount > 0 {
      alcom := alcom / serviceCount as real;
      asgm := asgm / serviceCount as real;
    }
    return Success(SchemeOutput(results, SchemeMetrics(alcom, asgm, maxNoo)));
  }

  /** The loop step of `calculate_scheme_metrics`: service i adds its rows,
      LCOM and SGM, and raises Max_NOO, unless its use-case list is empty. */
  lemma ServiceStep(cal: Calculator, name: string, services: seq<Service>, i: int)
    requires 0 <= i < |services|
    ensures var svc := services[i];
      && SchemeRows(cal, name, services[..i + 1]) == SchemeRows(cal, name, services[..i]) + ServiceRows(cal, name, svc)
      && LcomSum(cal, name, services[..i + 1]) == LcomSum(cal, name, services[..i]) +
           (if svc.useCases == [] then 0.0 else ServiceFiguresOf(cal, svc.useCases).lcom)
      && SgmSum(cal, name, services[..i + 1]) == SgmSum(cal, name, services[..i]) +
           (if svc.useCases == [] then 0.0 else ServiceFiguresOf(cal, svc.useCases).sgm)
      && MaxNoo(services[..i + 1]) ==
           (if svc.useCases == [] then MaxNoo(services[..i]) else Max(MaxNoo(services[..i]), |svc.useCases|))
  {
    assert services[..i + 1][..i] == services[..i];
    MapPrefix(RunFn(cal, name), services, i);
    RunStep(ServiceRuns(cal, name, services[..i]), RunOf(cal, name, services[i]));
  }

  /** A scheme of one service with use cases reports that service's rows,
      and its LCOM, SGM and NOO as ALCOM, ASGM and Max_NOO. */
  lemma SingleServiceScheme(cal: Calculator, name: string, svc: Service)
    requires svc.useCases != []
    ensures var figures := ServiceFiguresOf(cal, svc.useCases);
      SchemeOutcome(cal, name, [svc]) ==
        Success(SchemeOutput(ServiceRows(cal, name, svc), SchemeMetrics(figures.lcom, figures.sgm, |svc.useCases|)))
  {
    var services, figures := [svc], ServiceFiguresOf(cal, svc.useCases);
    ServiceStep(cal, name, services, 0);
    assert services[..1] == services && services[..0] == [];
    assert ServiceRuns(cal, name, []) == [];
    assert SchemeRows(cal, name, services) == ServiceRows(cal, name, svc);
    assert LcomSum(cal, name, services) == figures.lcom;
    assert SgmSum(cal, name, services) == figures.sgm;
    assert SchemeAverages(cal, name, services) == SchemeMetrics(figures.lcom, figures.sgm, |svc.useCases|);
  }

  /** Max_NOO bounds every service's use-case count and is attained by one
      of them, unless every list is empty and it is 0. */
  lemma {:induction false} MaxNooIsMaximum(services: seq<Service>)
    ensures forall i :: 0 <= i < |services| ==> |services[i].useCases| <= MaxNoo(services)
    ensures MaxNoo(services) == 0 ||
            exists i :: 0 <= i < |services| && |services[i].useCases| == MaxNoo(services)
  {
    if services != [] {
      var n := |services| - 1;
      var init := services[..n];
      MaxNooIsMaximum(init);
      assert forall i :: 0 <= i < n ==> init[i] == services[i];
      if MaxNoo(services) != 0 && MaxNoo(services) != |services[n].useCases| {
        var i :| 0 <= i < n && |init[i].useCases| == MaxNoo(init);
        assert |services[i].useCases| == MaxNoo(services);
      }
    }
  }

  /** Summing LCOM over runs whose every LCOM is at most 1 gives at most one per run. */
  lemma {:induction false} RunLcomBound(runs: seq<ServiceRun>)
    requires forall i :: 0 <= i < |runs| && runs[i].Ran? ==> runs[i].figures.lcom <= 1.0
    ensures RunLcom(runs) <= |runs| as real
  {
    if runs != [] {
      RunLcomBound(runs[..|runs| - 1]);
    }
  }

  /** ALCOM never exceeds 1. */
  lemma AlcomAtMostOne(cal: Calculator, name: string, services: seq<Service>)
    requires services != []
    ensures SchemeOutcome(cal, name, services).value.metrics.alcom <= 1.0
  {
    var runs := ServiceRuns(cal, name, services);
    forall i | 0 <= i < |runs| && runs[i].Ran? ensures runs[i].figures.lcom <= 1.0 {
      LcomAtMostOne(cal.operations, services[i].useCases);
    }
    RunLcomBound(runs);
    AverageAtMostOne(RunLcom(runs), |services| as real);
  }

  /** Summing SGM over runs whose every SGM lies in [0, 1] stays within [0, one per run]. */
  lemma {:induction false} RunSgmBound(runs: seq<ServiceRun>)
    requires forall i :: 0 <= i < |runs| && runs[i].Ran? ==> 0.0 <= runs[i].figures.sgm <= 1.0
    ensures 0.0 <= RunSgm(runs) <= |runs| as real
  {
    if runs != [] {
      RunSgmBound(runs[..|runs| - 1]);
    }
  }

  /** With non-negative type weights, ASGM lies in [0, 1]. */
  lemma AsgmInUnitRange(cal: Calculator, name: string, services: seq<Service>)
    requires services != [] && NonNegativeWeights(cal)
    ensures 0.0 <= SchemeOutcome(cal, name, services).value.metrics.asgm <= 1.0
  {
    var runs := ServiceRuns(cal, name, services);
    forall i | 0 <= i < |runs| && runs[i].Ran? ensures 0.0 <= runs[i].figures.sgm <= 1.0 {
      SgmInUnitRange(cal, services[i].useCases);
    }
    RunSgmBound(runs);
    AverageAtMostOne(RunSgm(runs), |services| as real);
    AverageNonNegative(RunSgm(runs), |services| as real);
  }

  /** A sum of n terms, each at most 1, averages at most 1. */
  lemma AverageAtMostOne(s: real, n: real)
    requires n > 0.0 && s <= n
    ensures s / n <= 1.0
  {
    assert (s / n) * n == s;
  }

  /** A non-negative sum averages non-negative. */
  lemma AverageNonNegative(s: real, n: real)
    requires n > 0.0 && 0.0 <= s
    ensures 0.0 <= s / n
  {
    assert (s / n) * n == s;
  }

  /** Appending a service with no use cases adds no rows. */
  lemma EmptyServiceAddsNoRows(cal: Calculator, name: string, services: seq<Service>, idle: Service)
    requires idle.useCases == []
    ensures SchemeRows(cal, name, services + [idle]) == SchemeRows(cal, name, services)
  {
    IdleServiceRuns(cal, name, services, idle);
    RunStep(ServiceRuns(cal, name, services), Skipped);
  }

  /** Appending a service with no use cases leaves Max_NOO and the LCOM and SGM sums as they were. */
  lemma EmptyServiceKeepsSums(cal: Calculator, name: string, services: seq<Service>, idle: Service)
    requires idle.useCases == []
    ensures LcomSum(cal, name, services + [idle]) == LcomSum(cal, name, services)
    ensures SgmSum(cal, name, services + [idle]) == SgmSum(cal, name, services)
    ensures MaxNoo(services + [idle]) == MaxNoo(services)
  {
    var all := services + [idle];
    IdleServiceRuns(cal, name, services, idle);
    RunStep(ServiceRuns(cal, name, services), Skipped);
    assert all[..|all| - 1] == services;
  }

  /** `after` is an average over n + 1 items of the sum whose average over n items is `before`. */
  predicate Diluted(after: real, before: real, n: nat)
  {
    after * (n as real + 1.0) == before * n as real
  }

  /** A service with no use cases still enters the denominator: ALCOM and
      ASGM keep their sums and are divided by n + 1 instead of n. */
  lemma EmptyServiceDilutesAverages(cal: Calculator, name: string, services: seq<Service>, idle: Service)
    requires services != [] && idle.useCases == []
    ensures Diluted(SchemeAverages(cal, name, services + [idle]).alcom,
                    SchemeAverages(cal, name, services).alcom, |services|)
    ensures Diluted(SchemeAverages(cal, name, services + [idle]).asgm,
                    SchemeAverages(cal, name, services).asgm, |services|)
    ensures SchemeAverages(cal, name, services + [idle]).maxNoo == SchemeAverages(cal, name, services).maxNoo
  {
    EmptyServiceKeepsSums(cal, name, services, idle);
    var n := |services|;
    var lcom, sgm := LcomSum(cal, name, services), SgmSum(cal, name, services);
    Dilution(lcom / (n as real + 1.0), lcom / n as real, lcom, n);
    Dilution(sgm / (n as real + 1.0), sgm / n as real, sgm, n);
  }

  lemma Dilution(after: real, before: real, sum: real, n: nat)
    requires n > 0 && after == sum / (n as real + 1.0) && before == sum / n as real
    ensures Diluted(after, before, n)
  {
    AverageTimesCount(sum, n as real, before);
    AverageTimesCount(sum, n as real + 1.0, after);
  }

  /** A service with no use cases contributes a skipped run. */
  lemma IdleServiceRuns(cal: Calculator, name: string, services: seq<Service>, idle: Service)
    requires idle.useCases == []
    ensures ServiceRuns(cal, name, services + [idle]) == ServiceRuns(cal, name, services) + [Skipped]
  {
    MapAppend(RunFn(cal, name), services, [idle]);
    assert ServiceRuns(cal, name, [idle]) == [Skipped];
  }

  /** One more run adds its rows, LCOM and SGM, or nothing when it was skipped. */
  lemma RunStep(runs: seq<ServiceRun>, run: ServiceRun)
    ensures RunRows(runs + [run]) == RunRows(runs) + (if run.Ran? then run.rows else [])
    ensures RunLcom(runs + [run]) == RunLcom(runs) + (if run.Ran? then run.figures.lcom else 0.0)
    ensures RunSgm(runs + [run]) == RunSgm(runs) + (if run.Ran? then run.figures.sgm else 0.0)
  {
    var r := runs + [run];
    assert r[..|r| - 1] == runs;
  }

  /** An average times the count it was taken over gives back the sum. */
  lemma AverageTimesCount(s: real, n: real, average: real)
    requires n > 0.0 && average == s / n
    ensures average * n == s
  {
  }

  /** The rows of consecutive runs are concatenated in order. */
  lemma {:induction false} RunRowsAppend(a: seq<ServiceRun>, b: seq<ServiceRun>)
    ensures RunRows(a + b) == RunRows(a) + RunRows(b)
  {
    if b == [] {
      assert a + b == a;
    } else {
      var n := |b| - 1;
      var ab := a + b;
      assert ab[..|ab| - 1] == a + b[..n];
      assert ab[|ab| - 1] == b[n];
      RunRowsAppend(a, b[..n]);
    }
  }

  /** A scheme's rows over consecutive lists of services are concatenated in order. */
  lemma SchemeRowsAppend(cal: Calculator, name: string, a: seq<Service>, b: seq<Service>)
    ensures SchemeRows(cal, name, a + b) == SchemeRows(cal, name, a) + SchemeRows(cal, name, b)
  {
    MapAppend(RunFn(cal, name), a, b);
    RunRowsAppend(ServiceRuns(cal, name, a), ServiceRuns(cal, name, b));
  }
}
