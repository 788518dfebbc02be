/**
 * The quotation form's lines and the cost aggregator (src/App.tsx).
 *
 * All amounts are whole rupees. Rates and minimums are integers that an
 * administrator may set to any value; quantities are non-negative because
 * the input handlers only ever store non-negative numbers.
 */
module Quotation {
  import opened Wrappers
  import opened PricingService

  /** A meter line: the catalog rates plus the quantity entered on the form. */
  datatype Meter = Meter(id: string, name: string, rateNoAI: int, rateWithAI: int, quantity: nat)

  /** A service line: the catalog rate and minimum plus the form's selection and quantity. */
  datatype Service = Service(
    id: string,
    name: string,
    rate: int,
    unit: Option<string>,
    minimum: Option<int>,
    selected: bool,
    quantity: Option<nat>)

  datatype PaymentMode = Monthly | OneTime

  /** The three service identities the pricing rules know about. */
  const MimicsPages: string := "s1"
  const AiPhilosophy: string := "s2"
  const Initialization: string := "s3"

  function Max(a: int, b: int): (r: int)
    ensures r >= a && r >= b
    ensures r == a || r == b
  {
    if a >= b then a else b
  }

  // ---------------------------------------------------------------------
  // Meters
  // ---------------------------------------------------------------------

  /** The AI opt-in switches every meter to its "with AI" tier. */
  function MeterRate(m: Meter, ai: bool): int {
    if ai then m.rateWithAI else m.rateNoAI
  }

  function MeterMonthly(ms: seq<Meter>, ai: bool): int {
    if ms == [] then 0 else MeterRate(ms[0], ai) * ms[0].quantity + MeterMonthly(ms[1..], ai)
  }

  lemma {:induction false} MeterMonthlyConcat(a: seq<Meter>, b: seq<Meter>, ai: bool)
    ensures MeterMonthly(a + b, ai) == MeterMonthly(a, ai) + MeterMonthly(b, ai)
  {
    if a == [] {
      assert a + b == b;
    } else {
      assert (a + b)[1..] == a[1..] + b;
      MeterMonthlyConcat(a[1..], b, ai);
    }
  }

  /** Replacing one line changes the monthly meter cost by that line's difference only. */
  lemma {:induction false} MeterMonthlyUpdate(ms: seq<Meter>, i: nat, m: Meter, ai: bool)
    requires i < |ms|
    ensures MeterMonthly(ms[i := m], ai)
         == MeterMonthly(ms, ai) - MeterRate(ms[i], ai) * ms[i].quantity + MeterRate(m, ai) * m.quantity
  {
    if i == 0 {
      assert ms[i := m][1..] == ms[1..];
    } else {
      assert ms[i := m][1..] == ms[1..][i - 1 := m];
      MeterMonthlyUpdate(ms[1..], i - 1, m, ai);
    }
  }

  /** Raising one meter's quantity never lowers the monthly cost when its rate is non-negative. */
  lemma MeterMonthlyMonotone(ms: seq<Meter>, i: nat, q: nat, ai: bool)
    requires i < |ms| && ms[i].quantity <= q && MeterRate(ms[i], ai) >= 0
    ensures MeterMonthly(ms[i := ms[i].(quantity := q)], ai) >= MeterMonthly(ms, ai)
  {
    MeterMonthlyUpdate(ms, i, ms[i].(quantity := q), ai);
    var r := MeterRate(ms[i], ai);
    assert r * q - r * ms[i].quantity == r * (q - ms[i].quantity);
  }

  /** Opting in to AI never makes the meters cheaper when every AI tier is at least the plain rate. */
  lemma {:induction false} AiTierNotCheaper(ms: seq<Meter>)
    requires forall m | m in ms :: m.rateWithAI >= m.rateNoAI
    ensures MeterMonthly(ms, true) >= MeterMonthly(ms, false)
  {
    if ms != [] {
      var m := ms[0];
      assert m.rateWithAI * m.quantity - m.rateNoAI * m.quantity == (m.rateWithAI - m.rateNoAI) * m.quantity;
      AiTierNotCheaper(ms[1..]);
    }
  }

  lemma {:induction false} NoMetersCostNothing(ms: seq<Meter>, ai: bool)
    requires forall m | m in ms :: m.quantity == 0
    ensures MeterMonthly(ms, ai) == 0
  {
    if ms != [] {
      NoMetersCostNothing(ms[1..], ai);
    }
  }

  /** The meter loop of the calculation effect. */
  method SumMeterCosts(ms: seq<Meter>, ai: bool) returns (total: int)
    ensures total == MeterMonthly(ms, ai)
  {
    total := 0;
    var i := 0;
    while i < |ms|
      invariant 0 <= i <= |ms|
      invariant total == MeterMonthly(ms[..i], ai)
    {
      var meter := ms[i];
      var rate := if ai then meter.rateWithAI else meter.rateNoAI;
      total := total + rate * meter.quantity;
      assert ms[..i + 1] == ms[..i] + [meter];
      MeterMonthlyConcat(ms[..i], [meter], ai);
      i := i + 1;
    }
    assert ms[..i] == ms;
  }

  // ---------------------------------------------------------------------
  // Services
  // ---------------------------------------------------------------------

  /** `quantity ?? 1`: an absent quantity counts as one unit, an explicit 0 stays 0. */
  function ServiceQuantity(s: Service): nat {
    s.quantity.GetOr(1)
  }

  /** `minimum ?? 0`. */
  function MinimumOrZero(s: Service): int {
    s.minimum.GetOr(0)
  }

  /** The charge of a floored service: rate times quantity, raised to the minimum. */
  function Floored(s: Service): (c: int)
    ensures c >= s.rate * ServiceQuantity(s) && c >= MinimumOrZero(s)
    ensures c == s.rate * ServiceQuantity(s) || c == MinimumOrZero(s)
  {
    Max(s.rate * ServiceQuantity(s), MinimumOrZero(s))
  }

  /** What one service line adds to the one-time service cost. */
  function ServiceCost(s: Service, ai: bool): (c: int)
    ensures !s.selected ==> c == 0
    ensures s.id == AiPhilosophy && !ai ==> c == 0
    ensures s.id != MimicsPages && s.id != AiPhilosophy && s.id != Initialization ==> c == 0
    ensures s.selected && s.id == MimicsPages ==> c == s.rate * ServiceQuantity(s)
    ensures s.selected && (s.id == Initialization || (s.id == AiPhilosophy && ai)) ==>
              c >= s.rate * ServiceQuantity(s) && c >= MinimumOrZero(s)
              && (c == s.rate * ServiceQuantity(s) || c == MinimumOrZero(s))
  {
    if !s.selected then 0
    else if s.id == MimicsPages then s.rate * ServiceQuantity(s)
    else if s.id == AiPhilosophy then (if ai then Floored(s) else 0)
    else if s.id == Initialization then Floored(s)
    else 0
  }

  function ServiceOneTime(ss: seq<Service>, ai: bool): int {
    if ss == [] then 0 else ServiceCost(ss[0], ai) + ServiceOneTime(ss[1..], ai)
  }

  lemma {:induction false} ServiceOneTimeConcat(a: seq<Service>, b: seq<Service>, ai: bool)
    ensures ServiceOneTime(a + b, ai) == ServiceOneTime(a, ai) + ServiceOneTime(b, ai)
  {
    if a == [] {
      assert a + b == b;
    } else {
      assert (a + b)[1..] == a[1..] + b;
      ServiceOneTimeConcat(a[1..], b, ai);
    }
  }

  /** Replacing one service line changes the service total by that line's difference only. */
  lemma {:induction false} ServiceOneTimeUpdate(ss: seq<Service>, i: nat, s: Service, ai: bool)
    requires i < |ss|
    ensures ServiceOneTime(ss[i := s], ai) == ServiceOneTime(ss, ai) - ServiceCost(ss[i], ai) + ServiceCost(s, ai)
  {
    if i == 0 {
      assert ss[i := s][1..] == ss[1..];
    } else {
      assert ss[i := s][1..] == ss[1..][i - 1 := s];
      ServiceOneTimeUpdate(ss[1..], i - 1, s, ai);
    }
  }

  /**
   * Without the AI opt-in, the AI-philosophy line is irrelevant: whatever its
   * selection, quantity, rate or minimum, the service total is the same.
   */
  lemma AiPhilosophyIgnoredWithoutAi(ss: seq<Service>, i: nat, s: Service)
    requires i < |ss| && ss[i].id == AiPhilosophy && s.id == AiPhilosophy
    ensures ServiceOneTime(ss[i := s], false) == ServiceOneTime(ss, false)
  {
    ServiceOneTimeUpdate(ss, i, s, false);
  }

  lemma {:induction false} NoServicesCostNothing(ss: seq<Service>, ai: bool)
    requires forall s | s in ss :: !s.selected
    ensures ServiceOneTime(ss, ai) == 0
  {
    if ss != [] {
      NoServicesCostNothing(ss[1..], ai);
    }
  }

  /** The service loop of the calculation effect. */
  method SumServiceCosts(ss: seq<Service>, ai: bool) returns (total: int)
    ensures total == ServiceOneTime(ss, ai)
  {
    total := 0;
    var i := 0;
    while i < |ss|
      invariant 0 <= i <= |ss|
      invariant total == ServiceOneTime(ss[..i], ai)
    {
      var service := ss[i];
      if service.selected {
        var cost := 0;
        if service.id == MimicsPages {
          cost := service.rate * service.quantity.GetOr(1);
        } else if service.id == AiPhilosophy {
          if ai {
            cost := service.rate * service.quantity.GetOr(1);
            cost := Max(cost, service.minimum.GetOr(0));
          }
        } else if service.id == Initialization {
          cost := service.rate * service.quantity.GetOr(1);
          cost := Max(cost, service.minimum.GetOr(0));
        }
        total := total + cost;
      }
      assert ss[..i + 1] == ss[..i] + [service];
      ServiceOneTimeConcat(ss[..i], [service], ai);
      i := i + 1;
    }
    assert ss[..i] == ss;
  }

  // ---------------------------------------------------------------------
  // Edge device and totals
  // ---------------------------------------------------------------------

  datatype EdgeCharge = EdgeCharge(monthly: int, oneTime: int)

  /** The edge device is charged in exactly one bucket, for at least one unit. */
  function EdgeCosts(required: bool, mode: PaymentMode, quantity: nat, edge: EdgePrice): (c: EdgeCharge)
    ensures !required ==> c == EdgeCharge(0, 0)
    ensures mode == Monthly ==> c.oneTime == 0
    ensures mode == OneTime ==> c.monthly == 0
    ensures required ==>
      c.monthly + c.oneTime == (if mode == Monthly then edge.monthlyRate else edge.oneTimeRate) * Max(1, quantity)
  {
    if !required then EdgeCharge(0, 0)
    else
      var units := Max(1, quantity);
      if mode == Monthly then EdgeCharge(edge.monthlyRate * units, 0)
      else EdgeCharge(0, edge.oneTimeRate * units)
  }

  /** An empty or zero edge quantity is charged as one unit. */
  lemma EmptyEdgeQuantityChargedAsOne(required: bool, mode: PaymentMode, edge: EdgePrice)
    ensures EdgeCosts(required, mode, 0, edge) == EdgeCosts(required, mode, 1, edge)
  {
  }

  /** The derived costs shown on the form. */
  datatype Totals = Totals(
    meterMonthly: int,
    edgeMonthly: int,
    edgeOneTime: int,
    serviceOneTime: int,
    totalMonthly: int,
    totalOneTime: int)

  /** The aggregator: the monthly service term is always 0, so it is left out of the monthly total. */
  function QuoteTotals(ms: seq<Meter>, ai: bool, edgeRequired: bool, mode: PaymentMode, edgeQuantity: nat,
                       edge: EdgePrice, ss: seq<Service>): Totals
  {
    var meters := MeterMonthly(ms, ai);
    var e := EdgeCosts(edgeRequired, mode, edgeQuantity, edge);
    var services := ServiceOneTime(ss, ai);
    Totals(meters, e.monthly, e.oneTime, services, meters + e.monthly, e.oneTime + services)
  }

  /** A fresh form (no meters, no edge device, no services) costs nothing in either total. */
  lemma EmptyQuotationIsFree(ms: seq<Meter>, ai: bool, mode: PaymentMode, q: nat, edge: EdgePrice, ss: seq<Service>)
    requires forall m | m in ms :: m.quantity == 0
    requires forall s | s in ss :: !s.selected
    ensures QuoteTotals(ms, ai, false, mode, q, edge, ss).totalMonthly == 0
    ensures QuoteTotals(ms, ai, false, mode, q, edge, ss).totalOneTime == 0
  {
    NoMetersCostNothing(ms, ai);
    NoServicesCostNothing(ss, ai);
  }

  /**
   * The payment mode decides which total carries the edge charge; the meter
   * and service parts do not depend on it.
   */
  lemma PaymentModeSelectsBucket(ms: seq<Meter>, ai: bool, q: nat, edge: EdgePrice, ss: seq<Service>)
    ensures var m := QuoteTotals(ms, ai, true, Monthly, q, edge, ss);
            var o := QuoteTotals(ms, ai, true, OneTime, q, edge, ss);
            && m.meterMonthly == o.meterMonthly && m.serviceOneTime == o.serviceOneTime
            && m.totalMonthly == m.meterMonthly + edge.monthlyRate * Max(1, q)
            && m.totalOneTime == m.serviceOneTime
            && o.totalMonthly == o.meterMonthly
            && o.totalOneTime == o.serviceOneTime + edge.oneTimeRate * Max(1, q)
  {
  }

  /** Worked scenarios for the aggregator. */
  lemma WorkedScenarios()
    ensures MeterMonthly([Meter("m1", "meter", 10, 20, 3)], false) == 30
    ensures MeterMonthly([Meter("m1", "meter", 10, 20, 3)], true) == 60
    ensures EdgeCosts(true, Monthly, 2, EdgePrice(100, 3000)) == EdgeCharge(200, 0)
    ensures ServiceCost(Service(Initialization, "init", 1000, None, Some(100000), true, Some(50)), false) == 100000
    ensures ServiceCost(Service(Initialization, "init", 1000, None, Some(100000), true, Some(200)), false) == 200000
  {
  }

  // ---------------------------------------------------------------------
  // Catalog merge
  // ---------------------------------------------------------------------

  /**
   * `catalog.find(p => p.id === id)`: the first entry whose key is `id`, or
   * None when no entry has it.
   */
  function Find<T>(cat: seq<T>, key: T -> string, id: string): (r: Option<T>)
    ensures r.None? <==> forall j | 0 <= j < |cat| :: key(cat[j]) != id
    ensures r.Some? ==> exists k | 0 <= k < |cat| ::
      r.value == cat[k] && key(cat[k]) == id && forall j | 0 <= j < k :: key(cat[j]) != id
  {
    if cat == [] then None
    else if key(cat[0]) == id then Some(cat[0])
    else Find(cat[1..], key, id)
  }

  function MeterPriceId(p: MeterPrice): string { p.id }

  function ServicePriceId(p: ServicePrice): string { p.id }

  /** With unique keys, looking up an entry's key finds that entry. */
  lemma FindUnique<T>(cat: seq<T>, key: T -> string, k: nat)
    requires k < |cat|
    requires forall i, j | 0 <= i < j < |cat| :: key(cat[i]) != key(cat[j])
    ensures Find(cat, key, key(cat[k])) == Some(cat[k])
  {
  }

  function MergeMeter(m: Meter, cat: seq<MeterPrice>): Meter {
    match Find(cat, MeterPriceId, m.id)
    case Some(p) => m.(rateNoAI := p.rateNoAI, rateWithAI := p.rateWithAI)
    case None => m
  }

  /** Each form meter takes the rates of the catalog entry with its id; nothing else changes. */
  function MergeMeters(ms: seq<Meter>, cat: seq<MeterPrice>): (r: seq<Meter>)
    ensures |r| == |ms|
    ensures forall i :: 0 <= i < |ms| ==>
      r[i].id == ms[i].id && r[i].name == ms[i].name && r[i].quantity == ms[i].quantity
    ensures forall i :: 0 <= i < |ms| ==>
      match Find(cat, MeterPriceId, ms[i].id)
      case None => r[i] == ms[i]
      case Some(p) => r[i].rateNoAI == p.rateNoAI && r[i].rateWithAI == p.rateWithAI
  {
    seq(|ms|, i requires 0 <= i < |ms| => MergeMeter(ms[i], cat))
  }

  function MergeService(s: Service, cat: seq<ServicePrice>): Service {
    match Find(cat, ServicePriceId, s.id)
    case Some(p) => s.(rate := p.rate, minimum := p.minimum)
    case None => s
  }

  /**
   * Each form service takes the rate and the minimum (present or not) of the
   * catalog entry with its id; name, unit, selection and quantity stay.
   */
  function MergeServices(ss: seq<Service>, cat: seq<ServicePrice>): (r: seq<Service>)
    ensures |r| == |ss|
    ensures forall i :: 0 <= i < |ss| ==>
      r[i].id == ss[i].id && r[i].name == ss[i].name && r[i].unit == ss[i].unit
      && r[i].selected == ss[i].selected && r[i].quantity == ss[i].quantity
    ensures forall i :: 0 <= i < |ss| ==>
      match Find(cat, ServicePriceId, ss[i].id)
      case None => r[i] == ss[i]
      case Some(p) => r[i].rate == p.rate && r[i].minimum == p.minimum
  {
    seq(|ss|, i requires 0 <= i < |ss| => MergeService(ss[i], cat))
  }

  /** Merging is idempotent: reloading an unchanged catalog changes nothing. */
  lemma MergeIdempotent(ms: seq<Meter>, ss: seq<Service>, c: PricingConfig)
    ensures MergeMeters(MergeMeters(ms, c.meters), c.meters) == MergeMeters(ms, c.meters)
    ensures MergeServices(MergeServices(ss, c.services), c.services) == MergeServices(ss, c.services)
  {
    var m1 := MergeMeters(ms, c.meters);
    var s1 := MergeServices(ss, c.services);
    assert forall i | 0 <= i < |ms| :: MergeMeter(m1[i], c.meters) == m1[i];
    assert forall i | 0 <= i < |ss| :: MergeService(s1[i], c.services) == s1[i];
  }

  // ---------------------------------------------------------------------
  // Input validation and by-id edits
  // ---------------------------------------------------------------------

  /** The raw text of a quantity box as `parseInt` sees it. */
  datatype QuantityInput = Empty | Num(n: int) | Invalid

  /**
   * The value a quantity handler stores, or None when it leaves the state
   * alone: a parsed number at least `least`, or 0 for an empty box.
   */
  function AcceptedQuantity(input: QuantityInput, least: nat): (r: Option<nat>)
    ensures r.Some? ==> r.value == 0 || r.value >= least
    ensures r.Some? && r.value != 0 ==> input == Num(r.value)
    ensures input.Empty? ==> r == Some(0)
    ensures input.Num? && input.n >= least ==> r == Some(input.n)
    ensures r.None? <==> input.Invalid? || (input.Num? && input.n < least)
  {
    match input
    case Num(n) => if n >= least then Some(n) else None
    case Empty => Some(0)
    case Invalid => None
  }

  function WithMeterQuantity(ms: seq<Meter>, id: string, q: nat): (r: seq<Meter>)
    ensures |r| == |ms|
    ensures forall i :: 0 <= i < |ms| && ms[i].id != id ==> r[i] == ms[i]
    ensures forall i :: 0 <= i < |ms| && ms[i].id == id ==> r[i] == ms[i].(quantity := q)
  {
    seq(|ms|, i requires 0 <= i < |ms| => if ms[i].id == id then ms[i].(quantity := q) else ms[i])
  }

  function WithServiceSelected(ss: seq<Service>, id: string, selected: bool): (r: seq<Service>)
    ensures |r| == |ss|
    ensures forall i :: 0 <= i < |ss| && ss[i].id != id ==> r[i] == ss[i]
    ensures forall i :: 0 <= i < |ss| && ss[i].id == id ==> r[i] == ss[i].(selected := selected)
  {
    seq(|ss|, i requires 0 <= i < |ss| => if ss[i].id == id then ss[i].(selected := selected) else ss[i])
  }

  function WithServiceQuantity(ss: seq<Service>, id: string, q: nat): (r: seq<Service>)
    ensures |r| == |ss|
    ensures forall i :: 0 <= i < |ss| && ss[i].id != id ==> r[i] == ss[i]
    ensures forall i :: 0 <= i < |ss| && ss[i].id == id ==> r[i] == ss[i].(quantity := Some(q))
  {
    seq(|ss|, i requires 0 <= i < |ss| => if ss[i].id == id then ss[i].(quantity := Some(q)) else ss[i])
  }
}
