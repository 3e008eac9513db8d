/** Values the metrics engine reads and the records it produces. */
module MetricTypes {

  datatype Option<T> = None | Some(value: T)

  datatype Result<T, E> = Success(value: T) | Failure(error: E)

  /** An operation of the catalogue: the attribute identifiers (`Entity.attr`)
      it reads and writes, as lists. Duplicates are kept: MF counts entries. */
  datatype Op = Op(read: seq<string>, write: seq<string>)

  /** A service of a scheme: its name and the use-case (operation) names
      assigned to it, in declaration order, duplicates and unknown names included. */
  datatype Service = Service(name: string, useCases: seq<string>)

  /** One decomposition scheme. */
  datatype Scheme = Scheme(name: string, services: seq<Service>)

  /** The read-only state of the calculator once its catalogues are loaded:
      operation catalogue, operation-type map, type-weight table and the
      schemes, in the order the scheme dictionary iterates them. */
  datatype Calculator = Calculator(
    operations: map<string, Op>,
    opTypeMap: map<string, string>,
    opWeights: map<string, int>,
    schemes: seq<Scheme>)

  /** The weight table used when the configuration gives none. */
  const DefaultOpWeights: map<string, int> :=
    map["Create" := 4, "Update" := 3, "Delete" := 2, "Read" := 1]

  /** Per-operation figures of one service (an entry of `operation_details`).
      `fgs` and `sgmOp` are 0.0 until the granularity pass fills them in. */
  datatype OpDetail = OpDetail(
    operation: string,
    ipr: nat, opr: nat, fp: nat, cp: nat,
    ot: int,
    dgs: real,
    fgs: real,
    sgmOp: real)

  /** Service-level figures, repeated on every row of the service. */
  datatype ServiceFigures = ServiceFigures(
    noo: nat, lcom: real, sgm: real, mf: nat, m: nat, f: nat, o: int)

  /** One detailed output row: scheme, service, the service's figures and
      one operation's figures. */
  datatype MetricRow = MetricRow(
    scheme: string, service: string, figures: ServiceFigures, detail: OpDetail)

  /** Scheme-level aggregates. */
  datatype SchemeMetrics = SchemeMetrics(alcom: real, asgm: real, maxNoo: nat)

  /** What one scheme produces: its detailed rows and its aggregates. */
  datatype SchemeOutput = SchemeOutput(rows: seq<MetricRow>, metrics: SchemeMetrics)

  /** One row of the scheme summary. */
  datatype SummaryRow = SummaryRow(scheme: string, alcom: real, asgm: real, maxNoo: nat)

  /** The only error the per-scheme computation raises. */
  datatype SchemeError = NoServicesDefined
}
