/**
 * The itemised breakdown of a quotation: the meter rows and service rows of
 * the Word export (src/App.tsx), of the on-screen summary (src/App.tsx) and of
 * both tables of the printable quotation (src/components/QuotationPDF.tsx).
 *
 * Every copy in the source repeats the same per-row cost rule inline; here it
 * is written once (RowCost) and each copy is an instance of ServiceRows with
 * the copy's own rule for dropping rows.
 */
module Breakdown {
  import opened Wrappers
  import opened Quotation

  // ---------------------------------------------------------------------
  // Meter rows
  // ---------------------------------------------------------------------

  datatype MeterRow = MeterRow(id: string, name: string, quantity: nat, rate: int, total: int)

  /** Meter rows: one per meter with a positive quantity, in form order. */
  function MeterRows(ms: seq<Meter>, ai: bool): (rows: seq<MeterRow>)
    ensures |rows| <= |ms|
    ensures forall r | r in rows :: r.quantity > 0 && r.total == r.rate * r.quantity
    ensures rows == [] <==> forall m | m in ms :: m.quantity == 0
  {
    if ms == [] then []
    else
      var m := ms[0];
      var rest := MeterRows(ms[1..], ai);
      assert forall x | x in ms[1..] :: x in ms;
      if m.quantity > 0 then [MeterRowOf(m, ai)] + rest else rest
  }

  /** The row of one listed meter: its rate for the AI choice and rate times quantity. */
  function MeterRowOf(m: Meter, ai: bool): MeterRow {
    MeterRow(m.id, m.name, m.quantity, MeterRate(m, ai), MeterRate(m, ai) * m.quantity)
  }

  /** Every row is the row of a meter with a positive quantity, and every such meter has its row. */
  lemma {:induction false} MeterRowsMembership(ms: seq<Meter>, ai: bool)
    ensures forall r | r in MeterRows(ms, ai) :: exists m | m in ms :: m.quantity > 0 && r == MeterRowOf(m, ai)
    ensures forall m | m in ms && m.quantity > 0 :: MeterRowOf(m, ai) in MeterRows(ms, ai)
  {
    if ms != [] {
      MeterRowsMembership(ms[1..], ai);
      assert forall x | x in ms[1..] :: x in ms;
      assert forall x | x in ms :: x == ms[0] || x in ms[1..];
    }
  }

  function MeterRowsTotal(rows: seq<MeterRow>): int {
    if rows == [] then 0 else rows[0].total + MeterRowsTotal(rows[1..])
  }

  /** The meter rows add up to the monthly meter cost printed under them. */
  lemma {:induction false} MeterRowsSumToMeterCost(ms: seq<Meter>, ai: bool)
    ensures MeterRowsTotal(MeterRows(ms, ai)) == MeterMonthly(ms, ai)
  {
    if ms != [] {
      MeterRowsSumToMeterCost(ms[1..], ai);
    }
  }

  /** Filtering keeps order: the rows of a concatenation are the concatenated rows. */
  lemma {:induction false} MeterRowsConcat(a: seq<Meter>, b: seq<Meter>, ai: bool)
    ensures MeterRows(a + b, ai) == MeterRows(a, ai) + MeterRows(b, ai)
  {
    if a == [] {
      assert a + b == b;
    } else {
      assert (a + b)[1..] == a[1..] + b;
      MeterRowsConcat(a[1..], b, ai);
    }
  }

  // ---------------------------------------------------------------------
  // Service rows
  // ---------------------------------------------------------------------

  /**
   * The per-row cost written inline in every copy. It agrees with the
   * aggregator on every selected line, which is the only kind of line a copy
   * ever prices.
   */
  function RowCost(s: Service, ai: bool): (c: int)
    ensures s.selected ==> c == ServiceCost(s, ai)
    ensures s.id != MimicsPages && s.id != AiPhilosophy && s.id != Initialization ==> c == 0
  {
    var q := ServiceQuantity(s);
    if s.id == MimicsPages then s.rate * q
    else if s.id == AiPhilosophy && ai then Max(s.rate * q, MinimumOrZero(s))
    else if s.id == Initialization then Max(s.rate * q, MinimumOrZero(s))
    else 0
  }

  /** The "minimum applied" marker: a nonzero minimum, equal to the cost, above rate times quantity. */
  predicate MinimumApplied(s: Service, cost: int) {
    s.minimum.Some? && s.minimum.value != 0 && cost == s.minimum.value
    && s.rate * ServiceQuantity(s) < s.minimum.value
  }

  datatype ServiceRow = ServiceRow(id: string, name: string, quantity: nat, cost: int, minimumApplied: bool)

  /**
   * The row of one priced service. The marker is set exactly when the line
   * is floored (s3, or s2 with AI) and its minimum is nonzero and above rate
   * times quantity: the marker's `cost == minimum` test never excludes
   * anything the `rate * qty < minimum` test admits.
   */
  function ServiceRowOf(s: Service, ai: bool): (r: ServiceRow)
    ensures r.id == s.id && r.name == s.name && r.quantity == ServiceQuantity(s)
    ensures s.selected ==> r.cost == ServiceCost(s, ai)
    ensures r.minimumApplied <==>
      (s.id == Initialization || (s.id == AiPhilosophy && ai))
      && s.minimum.Some? && s.minimum.value != 0 && s.rate * ServiceQuantity(s) < s.minimum.value
  {
    var cost := RowCost(s, ai);
    ServiceRow(s.id, s.name, ServiceQuantity(s), cost, MinimumApplied(s, cost))
  }

  /**
   * How a copy drops rows: the Word export skips a row whose cost `=== 0`;
   * the on-screen summary and both printable tables keep a row only when its
   * cost `> 0`.
   */
  datatype RowFilter = OmitZero | OmitNonPositive

  predicate Keeps(f: RowFilter, cost: int) {
    match f
    case OmitZero => cost != 0
    case OmitNonPositive => cost > 0
  }

  /** The rows of the selected services whose cost the copy's filter keeps, in form order. */
  function ServiceRows(ss: seq<Service>, ai: bool, f: RowFilter): (rows: seq<ServiceRow>)
    ensures |rows| <= |ss|
    ensures forall r | r in rows :: Keeps(f, r.cost)
    ensures forall r | r in rows :: r.id == MimicsPages || r.id == AiPhilosophy || r.id == Initialization
    ensures !ai ==> forall r | r in rows :: r.id != AiPhilosophy
    ensures (forall s | s in ss :: !s.selected) ==> rows == []
  {
    if ss == [] then []
    else
      var s := ss[0];
      var rest := ServiceRows(ss[1..], ai, f);
      assert forall x | x in ss[1..] :: x in ss;
      if s.selected && Keeps(f, RowCost(s, ai)) then [ServiceRowOf(s, ai)] + rest else rest
  }

  /**
   * Every row is the row of a selected service whose cost the filter keeps,
   * and every such service has its row.
   */
  lemma {:induction false} ServiceRowsMembership(ss: seq<Service>, ai: bool, f: RowFilter)
    ensures forall r | r in ServiceRows(ss, ai, f) ::
      exists s | s in ss :: s.selected && Keeps(f, RowCost(s, ai)) && r == ServiceRowOf(s, ai)
    ensures forall s | s in ss && s.selected && Keeps(f, RowCost(s, ai)) :: ServiceRowOf(s, ai) in ServiceRows(ss, ai, f)
  {
    if ss != [] {
      ServiceRowsMembership(ss[1..], ai, f);
      assert forall x | x in ss[1..] :: x in ss;
      assert forall x | x in ss :: x == ss[0] || x in ss[1..];
    }
  }

  function ServiceRowsTotal(rows: seq<ServiceRow>): int {
    if rows == [] then 0 else rows[0].cost + ServiceRowsTotal(rows[1..])
  }

  /** Filtering keeps order: the rows of a concatenation are the concatenated rows. */
  lemma {:induction false} ServiceRowsConcat(a: seq<Service>, b: seq<Service>, ai: bool, f: RowFilter)
    ensures ServiceRows(a + b, ai, f) == ServiceRows(a, ai, f) + ServiceRows(b, ai, f)
  {
    if a == [] {
      assert a + b == b;
    } else {
      assert (a + b)[1..] == a[1..] + b;
      ServiceRowsConcat(a[1..], b, ai, f);
    }
  }

  /** The Word export's service rows add up to the service total it prints under them. */
  lemma {:induction false} ExportRowsSumToServiceTotal(ss: seq<Service>, ai: bool)
    ensures ServiceRowsTotal(ServiceRows(ss, ai, OmitZero)) == ServiceOneTime(ss, ai)
  {
    if ss != [] {
      ExportRowsSumToServiceTotal(ss[1..], ai);
    }
  }

  /** No catalog rate or minimum is negative. */
  predicate NonNegativePricing(ss: seq<Service>) {
    forall s | s in ss :: s.rate >= 0 && MinimumOrZero(s) >= 0
  }

  /**
   * The rows shown on screen and in the printable quotation never add up to
   * less than the service total; with non-negative pricing they add up to it
   * exactly.
   */
  lemma {:induction false} ShownRowsSumToServiceTotal(ss: seq<Service>, ai: bool)
    ensures ServiceRowsTotal(ServiceRows(ss, ai, OmitNonPositive)) >= ServiceOneTime(ss, ai)
    ensures NonNegativePricing(ss) ==>
      ServiceRowsTotal(ServiceRows(ss, ai, OmitNonPositive)) == ServiceOneTime(ss, ai)
  {
    if ss != [] {
      assert NonNegativePricing(ss) ==> NonNegativePricing(ss[1..]) by {
        assert forall x | x in ss[1..] :: x in ss;
      }
      ShownRowsSumToServiceTotal(ss[1..], ai);
    }
  }

  /** With non-negative pricing every copy lists exactly the same service rows. */
  lemma {:induction false} CopiesAgree(ss: seq<Service>, ai: bool)
    requires NonNegativePricing(ss)
    ensures ServiceRows(ss, ai, OmitZero) == ServiceRows(ss, ai, OmitNonPositive)
  {
    if ss != [] {
      var s := ss[0];
      assert s in ss;
      assert s.rate * ServiceQuantity(s) >= 0;
      assert NonNegativePricing(ss[1..]) by {
        assert forall x | x in ss[1..] :: x in ss;
      }
      CopiesAgree(ss[1..], ai);
    }
  }

  /** A negative rate makes the copies disagree: the export lists the row, the screen does not. */
  lemma NegativeRateSplitsCopies()
    ensures var ss := [Service(MimicsPages, "Mimics pages", -5, None, None, true, Some(1))];
            |ServiceRows(ss, false, OmitZero)| == 1 && ServiceRows(ss, false, OmitNonPositive) == []
  {
  }

  /**
   * The on-screen summary lists services only when the service total is
   * positive; with non-negative pricing that hides nothing.
   */
  lemma {:induction false} SummaryGateHidesNothing(ss: seq<Service>, ai: bool)
    requires NonNegativePricing(ss)
    ensures ServiceOneTime(ss, ai) > 0 <==> ServiceRows(ss, ai, OmitNonPositive) != []
  {
    if ss != [] {
      var s := ss[0];
      assert s in ss;
      assert s.rate * ServiceQuantity(s) >= 0;
      assert NonNegativePricing(ss[1..]) by {
        assert forall x | x in ss[1..] :: x in ss;
      }
      SummaryGateHidesNothing(ss[1..], ai);
      ShownRowsSumToServiceTotal(ss[1..], ai);
    }
  }

  /** The worked examples of the source's tests for the row rule. */
  lemma RowRuleExamples()
    ensures ServiceRowOf(Service(MimicsPages, "Service 1", 100, None, None, true, Some(2)), true).cost == 200
    ensures ServiceRowOf(Service(AiPhilosophy, "Service 2", 200, None, Some(300), true, Some(1)), true).cost == 300
    ensures var r := ServiceRowOf(Service(Initialization, "Service 3", 150, None, Some(500), true, Some(3)), true);
            r.cost == 500 && r.minimumApplied
    ensures var r := ServiceRowOf(Service(MimicsPages, "Service 1", 100, None, None, true, None), true);
            r.quantity == 1 && r.cost == 100
    ensures ServiceRowOf(Service(AiPhilosophy, "Service 2", 200, None, Some(300), true, Some(1)), true).minimumApplied
  {
  }
}
