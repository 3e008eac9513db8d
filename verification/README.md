# Microservice metrics engine — a Dafny model

This project models the metrics engine of `MicroserviceMetricsCalculator`. The engine scores candidate
microservice decompositions ("schemes"). Each scheme assigns use cases (operations) to services. The
engine computes:

- per service: NOO, LCOM, SGM, MF, M, F and the service weight O;
- per operation: IPR, OPR, FP, CP, OT, DGS, FGS and SGM_Operation;
- per scheme: ALCOM, ASGM and Max_NOO.

The model also covers the entity catalogue builder, which turns declared entities into `Name.attr`
attribute identifiers.

The repository has two copies of the engine:
`Dissertation_MSc_SoftwareEngineering_2025/Cargo/multi/metrics_calculator.py` and
`Dissertation_MSc_SoftwareEngineering_2025/MoneyTransfer/multi/metrics_calculator.py`. They are
identical byte for byte, so one model covers both, and a line number means the same code in either file.
The table below cites one copy per row.

Layout, leaf first:

- `types.dfy` (`MetricTypes`): the inputs and output records.
  - Inputs: operation, service, scheme, and the calculator's read-only state.
  - Outputs: the detailed row, the scheme metrics and the summary row.
  - `Result` stands for the engine's raise.
- `entities.dfy` (`EntityCatalogue`): `_parse_entities`.
- `service_spec.dfy` (`ServiceSpec`): every per-service quantity as a function of the catalogue and the
  use-case list, with the lemmas that say what those quantities satisfy.
- `service_calc.dfy` (`ServiceCalc`): the loops inside the per-service block of
  `calculate_scheme_metrics`, each proved to compute its function in `ServiceSpec`.
- `scheme.dfy` (`SchemeCalc`): `calculate_scheme_metrics`, the scheme aggregates and their lemmas.
- `batch.dfy` (`Batch`): `calculate_metrics` and the lemmas about failure isolation.
- `scenario.dfy` (`Scenario`): a worked example, one service with a create and a read operation,
  with every figure computed.
- `seqs.dfy` (`SeqMap`): applying a function to every element of a sequence, with its append and
  prefix laws.

Modelling choices:

- Ratios (LCOM, DGS, FGS, SGM, ALCOM, ASGM) are exact `real`s. Type weights are `int`s.
- An operation's `read` and `write` are sequences. MF counts their entries, duplicates included. IPR,
  OPR, FP, CP and F count distinct attributes.
- `param_access_count` is a `defaultdict(int)` that is only ever incremented by 1. The model uses a
  `multiset<string>` for it. The sum of its values is then the multiset's size.
- The source first appends an entry to `operation_details` and fills in its FGS and SGM_Operation
  later, in place. The model gives each entry `fgs = sgmOp = 0.0` when it is appended. The granularity
  pass then updates the entry in the sequence.
- Each output row is a `MetricRow` that holds the service's shared `ServiceFigures` plus one
  `OpDetail`. Together these carry the same fields as the source's flat dictionary.
- The dictionary of schemes is a sequence in iteration order. The operation catalogue, the type map and
  the weight table are `map`s.
- A scheme with no services is the engine's only raise. It is a `Failure(NoServicesDefined)`.
  `calculate_metrics` catches it and skips the scheme.
- ALCOM and ASGM divide by the number of declared services, including services skipped for having no
  use cases. The model keeps this as written. `EmptyServiceDilutesAverages` states its effect.

## Model

| member | source | states |
|---|---|---|
| EntityCatalogue.ParseEntities | Dissertation_MSc_SoftwareEngineering_2025/Cargo/multi/metrics_calculator.py:62-76 | A missing `entities` key fails with MissingEntitiesKey. An entity without `name` or `nanoentities` fails with IncompleteEntity. Otherwise the result is the catalogue built entity by entity. |
| EntityCatalogue.QualifyPointwise | Dissertation_MSc_SoftwareEngineering_2025/Cargo/multi/metrics_calculator.py:73 | An entity's identifier list has one entry per attribute, in attribute order. Entry i is `name + "." + attrs[i]`. |
| EntityCatalogue.QualifyRoundTrip | Dissertation_MSc_SoftwareEngineering_2025/Cargo/multi/metrics_calculator.py:73 | Removing the `name.` prefix from every identifier gives back the attribute list. |
| EntityCatalogue.CatalogueKeys | Dissertation_MSc_SoftwareEngineering_2025/Cargo/multi/metrics_calculator.py:68-73 | The catalogue's keys are exactly the declared entity names. |
| EntityCatalogue.LastDeclarationWins | Dissertation_MSc_SoftwareEngineering_2025/Cargo/multi/metrics_calculator.py:68-73 | A name maps to the identifiers of the last entity declared with that name. An earlier entity with the same name is overwritten. |
| ServiceSpec.KnownUseCases | Dissertation_MSc_SoftwareEngineering_2025/Cargo/multi/metrics_calculator.py:249-251 | The use cases that get processed are exactly those that are both in the service's list and in the catalogue. There are never more of them than use cases. |
| ServiceCalc.CollectParams | Dissertation_MSc_SoftwareEngineering_2025/Cargo/multi/metrics_calculator.py:219-237 | The first loop produces read_params, write_params, all_params = read ∪ write, and the access counter, all over the known use cases. Unknown use cases are skipped. |
| ServiceCalc.RecordAccesses | Dissertation_MSc_SoftwareEngineering_2025/Cargo/multi/metrics_calculator.py:230-237 | Walking one read or write list adds every entry to all_params and to that list's direction set. It also adds exactly one count per entry to the counter. |
| ServiceSpec.MfCountsEveryEntry | Dissertation_MSc_SoftwareEngineering_2025/Cargo/multi/metrics_calculator.py:230-240 | MF, the sum of the counter, equals the total length of the known use cases' read and write lists. Duplicates count, and so do a read and a write of the same attribute. |
| ServiceSpec.CounterKeysAreAllParams | Dissertation_MSc_SoftwareEngineering_2025/Cargo/multi/metrics_calculator.py:220-237 | An attribute has a count exactly when it is in all_params. |
| ServiceSpec.ParamsFromKnown | Dissertation_MSc_SoftwareEngineering_2025/Cargo/multi/metrics_calculator.py:220-237 | Every attribute in all_params comes from the read or write list of some use case that is in the catalogue. |
| ServiceSpec.DistinctAtMostEntries | Dissertation_MSc_SoftwareEngineering_2025/Cargo/multi/metrics_calculator.py:230-242 | F, the number of distinct attributes, never exceeds MF. |
| ServiceSpec.LcomRange | Dissertation_MSc_SoftwareEngineering_2025/Cargo/multi/metrics_calculator.py:243 | When MF ≤ M·F, the LCOM formula lies in [0, 1]. It is 0 when MF = M·F. |
| ServiceSpec.LcomAtMostOne | Dissertation_MSc_SoftwareEngineering_2025/Cargo/multi/metrics_calculator.py:239-243 | LCOM ≤ 1 for every service. It is strictly below 1 once the service touches an attribute. It is 0 when F = 0. |
| ServiceSpec.LcomCanBeNegative | Dissertation_MSc_SoftwareEngineering_2025/Cargo/multi/metrics_calculator.py:230-243 | LCOM has no lower bound of 0. One operation that reads one attribute twice gives M = 1, F = 1, MF = 2 and LCOM = −1. |
| ServiceSpec.LcomInUnitRangeWithoutDuplicates | Dissertation_MSc_SoftwareEngineering_2025/Cargo/multi/metrics_calculator.py:230-243 | If no operation lists an attribute twice across its read and write lists, LCOM lies in [0, 1]. |
| ServiceSpec.LcomZeroForFullSharing | Dissertation_MSc_SoftwareEngineering_2025/Cargo/multi/metrics_calculator.py:239-243 | If every use case is known and accesses each attribute of the service exactly once, LCOM = 0. |
| ServiceSpec.OpWeightDefaults | Dissertation_MSc_SoftwareEngineering_2025/Cargo/multi/metrics_calculator.py:253-255 | With the default weight table (lines 19-21), OT is between 1 and 4. A use case missing from the type map is typed "Read" and weighs 1. |
| ServiceSpec.WeightCoversKnownUseCases | Dissertation_MSc_SoftwareEngineering_2025/Cargo/multi/metrics_calculator.py:249-256 | With weights ≥ 1, O is at least the number of known use cases. So O > 0 whenever a use case is known. |
| ServiceSpec.Dgs | Dissertation_MSc_SoftwareEngineering_2025/Cargo/multi/metrics_calculator.py:265 | DGS is min(1.0, IPR/max(1,FP) + OPR/max(1,CP)). It lies in [0, 1], never exceeds the sum, and equals either the sum or the cap 1.0. |
| ServiceCalc.OperationDetails | Dissertation_MSc_SoftwareEngineering_2025/Cargo/multi/metrics_calculator.py:245-275 | The second loop appends one entry per known use case, with IPR, OPR, FP, CP, OT and DGS. It also returns O, the sum of OT over the known use cases. |
| ServiceSpec.DetailsFollowKnownUseCases | Dissertation_MSc_SoftwareEngineering_2025/Cargo/multi/metrics_calculator.py:249-275 | Entry i of operation_details belongs to the i-th known use case, so the order is use-case order and duplicates are repeated. |
| ServiceSpec.DetailBounds | Dissertation_MSc_SoftwareEngineering_2025/Cargo/multi/metrics_calculator.py:259-265 | Every entry has FP ≥ 1, CP ≥ 1, IPR ≤ FP, OPR ≤ CP and 0 ≤ DGS ≤ 1. |
| ServiceSpec.WeightIsSumOfOt | Dissertation_MSc_SoftwareEngineering_2025/Cargo/multi/metrics_calculator.py:253-256 | O equals the sum of the OT column of operation_details. |
| ServiceCalc.Granularity | Dissertation_MSc_SoftwareEngineering_2025/Cargo/multi/metrics_calculator.py:277-283 | The third loop sets FGS = OT/O (or 0 when O ≤ 0) and SGM_Operation = DGS·FGS on every entry in place. It returns SGM, the sum of SGM_Operation. |
| ServiceSpec.FgsSumsToOne | Dissertation_MSc_SoftwareEngineering_2025/Cargo/multi/metrics_calculator.py:277-283 | When O > 0, the FGS values of a service sum to 1. |
| ServiceSpec.NoWeightNoGranularity | Dissertation_MSc_SoftwareEngineering_2025/Cargo/multi/metrics_calculator.py:280-283 | When O ≤ 0, every entry has FGS = 0 and SGM_Operation = 0, so the FGS sum and SGM are 0 as well. |
| ServiceSpec.SgmInUnitRange | Dissertation_MSc_SoftwareEngineering_2025/Cargo/multi/metrics_calculator.py:277-283 | With non-negative type weights, a service's SGM lies in [0, 1]. |
| ServiceCalc.ServiceMetrics | Dissertation_MSc_SoftwareEngineering_2025/Cargo/multi/metrics_calculator.py:216-306 | The per-service block yields NOO = M = the number of use-case names (unknown names included), F = the number of distinct attributes and MF = the number of access entries. It also yields the service's LCOM, SGM and O, and exactly the service's rows. |
| ServiceCalc.EmitRows | Dissertation_MSc_SoftwareEngineering_2025/Cargo/multi/metrics_calculator.py:286-306 | The output loop emits one row per operation_details entry, in order. Each row carries the scheme name, the service name, the service's figures and that entry. |
| ServiceSpec.ServiceRowsShape | Dissertation_MSc_SoftwareEngineering_2025/Cargo/multi/metrics_calculator.py:285-306 | A service emits one row per known use case, in use-case order. Every row carries the scheme name, the service name and the same NOO, LCOM, SGM, MF, M, F and O. |
| ServiceSpec.UnknownUseCasesEmitNothing | Dissertation_MSc_SoftwareEngineering_2025/Cargo/multi/metrics_calculator.py:249-251 | A service whose use cases are all missing from the catalogue emits no rows. |
| SchemeCalc.CalculateSchemeMetrics | Dissertation_MSc_SoftwareEngineering_2025/Cargo/multi/metrics_calculator.py:198-317 | An empty service list fails, and only that fails. Otherwise the result holds the rows of the services in order, ALCOM and ASGM (the LCOM and SGM sums over services with use cases, divided by the number of declared services) and Max_NOO. |
| SchemeCalc.MaxNooIsMaximum | Dissertation_MSc_SoftwareEngineering_2025/Cargo/multi/metrics_calculator.py:204-217 | Max_NOO bounds every service's use-case count and is attained by one service. It is 0 only when every list is empty. |
| SchemeCalc.AlcomAtMostOne | Dissertation_MSc_SoftwareEngineering_2025/Cargo/multi/metrics_calculator.py:309-315 | ALCOM never exceeds 1. |
| SchemeCalc.AsgmInUnitRange | Dissertation_MSc_SoftwareEngineering_2025/Cargo/multi/metrics_calculator.py:309-315 | With non-negative type weights, ASGM lies in [0, 1]. |
| SchemeCalc.ServiceStep | Dissertation_MSc_SoftwareEngineering_2025/Cargo/multi/metrics_calculator.py:209-306 | One pass of the service loop: a service with use cases appends its rows, adds its LCOM and SGM to the running sums and raises Max_NOO to its NOO if that is larger. A service with an empty use-case list changes none of them. |
| SchemeCalc.SingleServiceScheme | Dissertation_MSc_SoftwareEngineering_2025/Cargo/multi/metrics_calculator.py:198-317 | A scheme of one service with use cases reports exactly that service's rows, and its LCOM, SGM and NOO as ALCOM, ASGM and Max_NOO. |
| SchemeCalc.EmptyServiceAddsNoRows | Dissertation_MSc_SoftwareEngineering_2025/Cargo/multi/metrics_calculator.py:212-215 | Appending a service with no use cases leaves the scheme's rows unchanged. |
| SchemeCalc.EmptyServiceKeepsSums | Dissertation_MSc_SoftwareEngineering_2025/Cargo/multi/metrics_calculator.py:212-215 | Appending a service with no use cases leaves Max_NOO and the LCOM and SGM sums unchanged. |
| SchemeCalc.EmptyServiceDilutesAverages | Dissertation_MSc_SoftwareEngineering_2025/Cargo/multi/metrics_calculator.py:207-315 | A service with no use cases still counts in the denominator. With n services before it, the new ALCOM times n + 1 equals the old ALCOM times n, and the same holds for ASGM. Max_NOO is unchanged. |
| SchemeCalc.SchemeRowsAppend | Dissertation_MSc_SoftwareEngineering_2025/Cargo/multi/metrics_calculator.py:285-306 | A scheme's rows are the rows of its services, concatenated in service order. |
| Batch.CalculateMetrics | Dissertation_MSc_SoftwareEngineering_2025/MoneyTransfer/multi/metrics_calculator.py:170-196 | No schemes gives two empty results. Otherwise the results hold every successful scheme's rows and one summary row per successful scheme, in scheme order. |
| Batch.BatchAppend | Dissertation_MSc_SoftwareEngineering_2025/MoneyTransfer/multi/metrics_calculator.py:179-194 | The batch over two runs of schemes equals the two batches side by side, so schemes do not influence each other. |
| Batch.SingleScheme | Dissertation_MSc_SoftwareEngineering_2025/MoneyTransfer/multi/metrics_calculator.py:179-194 | One scheme contributes nothing if it has no services. Otherwise it contributes its rows and exactly one summary row. |
| Batch.FailingSchemeIsIsolated | Dissertation_MSc_SoftwareEngineering_2025/MoneyTransfer/multi/metrics_calculator.py:179-201 | A scheme with no services contributes neither rows nor a summary row. The schemes before and after it produce what they would without it. |
| Batch.SchemeWithServicesContributes | Dissertation_MSc_SoftwareEngineering_2025/MoneyTransfer/multi/metrics_calculator.py:179-194 | A scheme with services adds its own rows and exactly one summary row (ALCOM, ASGM, Max_NOO), in its place among the others. |
| Scenario.OrderServiceParams | Dissertation_MSc_SoftwareEngineering_2025/MoneyTransfer/multi/metrics_calculator.py:219-242 | Worked example, where one operation writes both Order attributes and the other reads both. read_params and write_params are both the two attributes, so F = 2 and MF = 4. |
| Scenario.OrderServiceAccesses | Dissertation_MSc_SoftwareEngineering_2025/MoneyTransfer/multi/metrics_calculator.py:239-256 | Worked example: LCOM = 1 − 4/(2·2) = 0 and O = 4 + 1. |
| Scenario.OrderServiceDetails | Dissertation_MSc_SoftwareEngineering_2025/MoneyTransfer/multi/metrics_calculator.py:245-275 | Worked example: both operations have IPR or OPR 2 against FP = CP = 2, so DGS = 1. CreateOrder has OT 4 and GetOrder has OT 1. |
| Scenario.OrderServiceGranularity | Dissertation_MSc_SoftwareEngineering_2025/MoneyTransfer/multi/metrics_calculator.py:277-283 | Worked example: CreateOrder has FGS 0.8 and GetOrder has FGS 0.2. SGM_Operation equals FGS for both. |
| Scenario.OrderServiceSgm | Dissertation_MSc_SoftwareEngineering_2025/MoneyTransfer/multi/metrics_calculator.py:277-283 | Worked example: SGM = 0.8 + 0.2 = 1. |
| Scenario.OrderServiceRows | Dissertation_MSc_SoftwareEngineering_2025/MoneyTransfer/multi/metrics_calculator.py:285-306 | Worked example: the service emits exactly two rows, CreateOrder then GetOrder, both with NOO = M = F = 2, MF = 4, LCOM = 0, SGM = 1, O = 5. |
| Scenario.OrderSchemeOutcome | Dissertation_MSc_SoftwareEngineering_2025/MoneyTransfer/multi/metrics_calculator.py:198-317 | Worked example: the scheme yields exactly two rows and ALCOM = 0, ASGM = 1, Max_NOO = 2. |

## Left out

- File loading is not modelled: `load_config`, `load_entities`, `load_operations`, `load_schemes`, the UTF-8/BOM retry and the directory glob are file I/O. The operation catalogue, type map, weight table and schemes arrive already built, and the entity catalogue builder receives the already decoded document.
- `__init__` is not modelled, except that the default weight table is kept as `DefaultOpWeights`. `export_to_excel` and `main` are not modelled either: they are report writing, directory creation, changing directory and exception printing.
- Every `print` diagnostic is left out.
- IEEE floating-point rounding is not modelled. Every division is exact in `real`, so the model's ratios are the values the Python floats approximate.
- Weights are integers. The model does not cover a configuration that gives floating-point or non-numeric weights.
- JSON values are assumed to have the expected shapes: names and attributes are strings, and lists are lists. A non-string attribute, which the f-string at line 73 would stringify, is not modelled.
- The entity catalogue is never read by the metrics, and the model invents no link between it and the operations' attribute identifiers.
- EntityCatalogue.ParseEntities: it does not claim that identifiers are unique across the catalogue. The code does not ensure this, because an entity or attribute name containing a dot can collide with another.
- Batch.CalculateMetrics: the `except Exception` at lines 192-194 is modelled only for the one exception the per-scheme computation raises, the empty-services check.
- The scheme dictionary's unique keys are not imposed. The model accepts any sequence of schemes, duplicate names included.
