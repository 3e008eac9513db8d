/** A worked example: one scheme, one service with a create and a read
    operation over the two attributes of an `Order` entity. */
module Scenario {
  import opened MetricTypes
  import opened ServiceSpec
  import opened SchemeCalc

  const Ops: map<string, Op> := map[
    "CreateOrder" := Op([], ["Order.id", "Order.status"]),
    "GetOrder" := Op(["Order.id", "Order.status"], [])]

  const Cal: Calculator :=
    Calculator(Ops, map["CreateOrder" := "Create", "GetOrder" := "Read"], DefaultOpWeights, [])

  const UseCases: seq<string> := ["CreateOrder", "GetOrder"]

  const Attrs: set<string> := {"Order.id", "Order.status"}

  /** Both attributes are read by one operation and written by the other:
      F = 2 and MF = 4. */
  lemma OrderServiceParams()
    ensures ReadParams(Ops, UseCases) == Attrs && WriteParams(Ops, UseCases) == Attrs
    ensures |AllParams(Ops, UseCases)| == 2 && AccessCount(Ops, UseCases) == 4
  {
    var ucs := UseCases;
    assert ucs[..1] == ["CreateOrder"] && ucs[..1][..0] == [];
    assert Elems([]) == {};
    assert Elems(["Order.id", "Order.status"]) == Attrs;
    assert |Attrs| == 2;
  }

  /** LCOM = 1 - 4 / (2 * 2) = 0, and O = 4 + 1. */
  lemma OrderServiceAccesses()
    ensures ServiceLcom(Ops, UseCases) == 0.0
    ensures ServiceWeight(Cal, UseCases) == 5
  {
    OrderServiceParams();
    var ucs := UseCases;
    assert ucs[..1] == ["CreateOrder"] && ucs[..1][..0] == [];
    assert Lcom(2, 2, 4) == 0.0;
  }

  const Create := OpDetail("CreateOrder", 0, 2, 2, 2, 4, 1.0, 0.0, 0.0)
  const Get := OpDetail("GetOrder", 2, 0, 2, 2, 1, 1.0, 0.0, 0.0)

  /** Each operation covers the whole read or write surface: DGS = 1, with
      OT 4 for the create and 1 for the read. */
  lemma OrderServiceDetails()
    ensures ServiceDetails(Cal, UseCases) == [Create, Get]
  {
    var ucs := UseCases;
    OrderServiceParams();
    assert ucs[..1] == ["CreateOrder"] && ucs[..1][..0] == [];
    OrderDetails();
    assert DetailsOf(Cal, Attrs, Attrs, ucs[..1]) == [Create];
  }

  lemma OrderDetails()
    ensures DetailOf(Cal, Attrs, Attrs, "CreateOrder") == Create
    ensures DetailOf(Cal, Attrs, Attrs, "GetOrder") == Get
  {
    assert Elems([]) == {};
    assert Elems(["Order.id", "Order.status"]) == Attrs;
    assert |Attrs| == 2;
    assert Dgs(0, 2, 2, 2) == 1.0 && Dgs(2, 0, 2, 2) == 1.0;
  }

  /** The create weighs 4 of 5 (FGS 0.8), the read 1 of 5 (FGS 0.2). */
  lemma OrderServiceGranularity()
    ensures GradedDetails(Cal, UseCases) ==
      [OpDetail("CreateOrder", 0, 2, 2, 2, 4, 1.0, 0.8, 0.8),
       OpDetail("GetOrder", 2, 0, 2, 2, 1, 1.0, 0.2, 0.2)]
  {
    OrderServiceAccesses();
    OrderServiceDetails();
    OrderGraded();
  }

  lemma OrderGraded()
    ensures Graded([Create, Get], 5) == [Create.(fgs := 0.8, sgmOp := 0.8), Get.(fgs := 0.2, sgmOp := 0.2)]
  {
    var g := Graded([Create, Get], 5);
    assert g[0] == Graded1(Create, 5) == Create.(fgs := 0.8, sgmOp := 0.8);
    assert g[1] == Graded1(Get, 5) == Get.(fgs := 0.2, sgmOp := 0.2);
  }

  /** SGM = 1.0 * 0.8 + 1.0 * 0.2 = 1. */
  lemma OrderServiceSgm()
    ensures ServiceSgm(Cal, UseCases) == 1.0
  {
    OrderServiceGranularity();
    var graded := GradedDetails(Cal, UseCases);
    assert graded[..1][..0] == [];
    assert SumSgmOp(graded[..1]) == 0.8;
  }

  const Figures := ServiceFigures(2, 0.0, 1.0, 4, 2, 2, 5)

  /** The service yields two rows sharing NOO = M = F = 2, MF = 4, LCOM = 0,
      SGM = 1 and O = 5. */
  lemma OrderServiceRows()
    ensures ServiceFiguresOf(Cal, UseCases) == Figures
    ensures ServiceRows(Cal, "Orders", Service("OrderService", UseCases)) ==
      [MetricRow("Orders", "OrderService", Figures, OpDetail("CreateOrder", 0, 2, 2, 2, 4, 1.0, 0.8, 0.8)),
       MetricRow("Orders", "OrderService", Figures, OpDetail("GetOrder", 2, 0, 2, 2, 1, 1.0, 0.2, 0.2))]
  {
    OrderServiceParams();
    OrderServiceAccesses();
    OrderServiceGranularity();
    OrderServiceSgm();
  }

  /** The scheme yields those two rows, and ALCOM = 0, ASGM = 1, Max_NOO = 2. */
  lemma OrderSchemeOutcome()
    ensures SchemeOutcome(Cal, "Orders", [Service("OrderService", UseCases)]) ==
      Success(SchemeOutput(
        [MetricRow("Orders", "OrderService", Figures, OpDetail("CreateOrder", 0, 2, 2, 2, 4, 1.0, 0.8, 0.8)),
         MetricRow("Orders", "OrderService", Figures, OpDetail("GetOrder", 2, 0, 2, 2, 1, 1.0, 0.2, 0.2))],
        SchemeMetrics(0.0, 1.0, 2)))
  {
    OrderServiceRows();
    SingleServiceScheme(Cal, "Orders", Service("OrderService", UseCases));
  }
}
