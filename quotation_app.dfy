/**
 * The quotation form's state and its handlers (src/App.tsx).
 *
 * Each piece of component state is a field. The calculation effect is the
 * method Recompute, which every handler runs after changing the state, and
 * the catalog-loading effect is ReloadPricing. The edge-device rates are not
 * merged into the form: Recompute reads them from storage each time.
 */
module QuotationApp {
  import opened Wrappers
  import opened PricingService
  import opened Quotation

  /** The meter lines the form starts with. */
  function InitialMeters(): (ms: seq<Meter>)
    ensures |ms| == 4 && forall m | m in ms :: m.quantity == 0
  {
    [ Meter("m1", M1Name, 10, 20, 0),
      Meter("m2", M2Name, 20, 40, 0),
      Meter("m3", M3Name, 30, 60, 0),
      Meter("m4", M4Name, 60, 120, 0) ]
  }

  /** The service lines the form starts with: nothing selected, one unit each. */
  function InitialServices(): (ss: seq<Service>)
    ensures |ss| == 3 && forall s | s in ss :: !s.selected && s.quantity == Some(1)
  {
    [ Service(MimicsPages, S1Name, 2000,
              Some("per page"), None, false, Some(1)),
      Service(AiPhilosophy, S2Name, 2000,
              Some("per component"), Some(150000), false, Some(1)),
      Service(Initialization, S3Name, 1000,
              Some("per component"), Some(100000), false, Some(1)) ]
  }

  /** The form's hard-coded meter rates are those of the default catalog, so loading the defaults changes nothing. */
  lemma InitialMetersMatchDefaults(loadedAt: string)
    ensures MergeMeters(InitialMeters(), DefaultPricing(loadedAt).meters) == InitialMeters()
  {
    var ms, cat := InitialMeters(), DefaultPricing(loadedAt).meters;
    assert forall i, j | 0 <= i < j < |cat| :: MeterPriceId(cat[i]) != MeterPriceId(cat[j]);
    forall i | 0 <= i < |ms| ensures MergeMeters(ms, cat)[i] == ms[i] {
      FindUnique(cat, MeterPriceId, i);
    }
  }

  /** Likewise for the service rates and minimums. */
  lemma InitialServicesMatchDefaults(loadedAt: string)
    ensures MergeServices(InitialServices(), DefaultPricing(loadedAt).services) == InitialServices()
  {
    var ss, cat := InitialServices(), DefaultPricing(loadedAt).services;
    assert forall i, j | 0 <= i < j < |cat| :: ServicePriceId(cat[i]) != ServicePriceId(cat[j]);
    forall i | 0 <= i < |ss| ensures MergeServices(ss, cat)[i] == ss[i] {
      FindUnique(cat, ServicePriceId, i);
    }
  }

  class QuotationForm {
    var meters: seq<Meter>
    var aiOptIn: bool
    var edgeRequired: bool
    var edgePayment: PaymentMode
    var edgeQuantity: nat
    var services: seq<Service>

    var monthlyMeterCost: int
    var edgeCostMonthly: int
    var edgeCostOneTime: int
    /** Kept for a monthly service term that no service has: always 0. */
    var serviceCostMonthly: int
    var serviceCostOneTime: int
    var totalMonthlyCost: int
    var totalOneTimeCost: int

    /** Browser storage, shared with the administrator dashboard. */
    const storage: BrowserStorage

    /** The totals the form's current selections call for. */
    ghost function Expected(): Totals
      reads this, storage
    {
      QuoteTotals(meters, aiOptIn, edgeRequired, edgePayment, edgeQuantity,
                  storage.GetPricingConfig().edgeDevice, services)
    }

    /** Every displayed cost agrees with the selections. */
    ghost predicate Valid()
      reads this, storage
    {
      var t := Expected();
      && serviceCostMonthly == 0
      && monthlyMeterCost == t.meterMonthly
      && edgeCostMonthly == t.edgeMonthly
      && edgeCostOneTime == t.edgeOneTime
      && serviceCostOneTime == t.serviceOneTime
      && totalMonthlyCost == t.totalMonthly
      && totalOneTimeCost == t.totalOneTime
    }

    /** Mounting the form: initial state, then the catalog-loading and calculation effects. */
    constructor (storage: BrowserStorage)
      ensures this.storage == storage && Valid()
      ensures meters == MergeMeters(InitialMeters(), storage.GetPricingConfig().meters)
      ensures services == MergeServices(InitialServices(), storage.GetPricingConfig().services)
      ensures !aiOptIn && !edgeRequired && edgePayment == Monthly && edgeQuantity == 1
    {
      this.storage := storage;
      meters := InitialMeters();
      aiOptIn := false;
      edgeRequired := false;
      edgePayment := Monthly;
      edgeQuantity := 1;
      services := InitialServices();
      monthlyMeterCost, edgeCostMonthly, edgeCostOneTime := 0, 0, 0;
      serviceCostMonthly, serviceCostOneTime := 0, 0;
      totalMonthlyCost, totalOneTimeCost := 0, 0;
      new;
      ReloadPricing();
    }

    /**
     * The calculation effect. The monthly total adds the previous value of
     * serviceCostMonthly (the effect reads it before resetting it), which is 0.
     */
    method Recompute()
      requires serviceCostMonthly == 0
      modifies this
      ensures Valid()
      ensures meters == old(meters) && services == old(services) && aiOptIn == old(aiOptIn)
      ensures edgeRequired == old(edgeRequired) && edgePayment == old(edgePayment)
      ensures edgeQuantity == old(edgeQuantity)
    {
      var meterCost := SumMeterCosts(meters, aiOptIn);

      var edgeMonthly, edgeOneTime := 0, 0;
      if edgeRequired {
        var quantity := Max(1, edgeQuantity);
        var pricing := storage.GetPricingConfig();
        if edgePayment == Monthly {
          edgeMonthly := pricing.edgeDevice.monthlyRate * quantity;
        } else {
          edgeOneTime := pricing.edgeDevice.oneTimeRate * quantity;
        }
      }
      ghost var edge := EdgeCosts(edgeRequired, edgePayment, edgeQuantity, storage.GetPricingConfig().edgeDevice);
      assert edgeMonthly == edge.monthly && edgeOneTime == edge.oneTime;

      var serviceOneTime := SumServiceCosts(services, aiOptIn);
      var previousServiceMonthly := serviceCostMonthly;

      monthlyMeterCost, edgeCostMonthly, edgeCostOneTime := meterCost, edgeMonthly, edgeOneTime;
      serviceCostOneTime, serviceCostMonthly := serviceOneTime, 0;
      totalMonthlyCost := meterCost + edgeMonthly + previousServiceMonthly;
      totalOneTimeCost := edgeOneTime + serviceOneTime;
    }

    /** The catalog-loading effect: merge stored (or default) rates into the form by id. */
    method ReloadPricing()
      requires serviceCostMonthly == 0
      modifies this
      ensures Valid()
      ensures meters == MergeMeters(old(meters), storage.GetPricingConfig().meters)
      ensures services == MergeServices(old(services), storage.GetPricingConfig().services)
      ensures aiOptIn == old(aiOptIn) && edgeRequired == old(edgeRequired)
      ensures edgePayment == old(edgePayment) && edgeQuantity == old(edgeQuantity)
    {
      var pricing := storage.GetPricingConfig();
      meters := MergeMeters(meters, pricing.meters);
      services := MergeServices(services, pricing.services);
      Recompute();
    }

    /** A meter quantity accepts a number of at least 0, or an empty box as 0. */
    method HandleMeterQuantityChange(id: string, value: QuantityInput)
      requires Valid()
      modifies this
      ensures Valid()
      ensures meters == match AcceptedQuantity(value, 0)
                        case Some(q) => WithMeterQuantity(old(meters), id, q)
                        case None => old(meters)
      ensures services == old(services) && aiOptIn == old(aiOptIn) && edgeRequired == old(edgeRequired)
      ensures edgePayment == old(edgePayment) && edgeQuantity == old(edgeQuantity)
    {
      match value {
        case Num(quantity) =>
          if quantity >= 0 {
            meters := WithMeterQuantity(meters, id, quantity);
          }
        case Empty =>
          meters := WithMeterQuantity(meters, id, 0);
        case Invalid =>
      }
      Recompute();
    }

    /** The edge quantity accepts a number of at least 1, or an empty box as 0. */
    method HandleEdgeQuantityChange(value: QuantityInput)
      requires Valid()
      modifies this
      ensures Valid()
      ensures edgeQuantity == AcceptedQuantity(value, 1).GetOr(old(edgeQuantity))
      ensures meters == old(meters) && services == old(services) && aiOptIn == old(aiOptIn)
      ensures edgeRequired == old(edgeRequired) && edgePayment == old(edgePayment)
    {
      match value {
        case Num(quantity) =>
          if quantity >= 1 {
            edgeQuantity := quantity;
          }
        case Empty =>
          edgeQuantity := 0;
        case Invalid =>
      }
      Recompute();
    }

    method HandleServiceSelectionChange(id: string, selected: bool)
      requires Valid()
      modifies this
      ensures Valid()
      ensures services == WithServiceSelected(old(services), id, selected)
      ensures meters == old(meters) && aiOptIn == old(aiOptIn) && edgeRequired == old(edgeRequired)
      ensures edgePayment == old(edgePayment) && edgeQuantity == old(edgeQuantity)
    {
      services := WithServiceSelected(services, id, selected);
      Recompute();
    }

    /** A service quantity accepts a number of at least 1, or an empty box as 0. */
    method HandleServiceQuantityChange(id: string, value: QuantityInput)
      requires Valid()
      modifies this
      ensures Valid()
      ensures services == match AcceptedQuantity(value, 1)
                          case Some(q) => WithServiceQuantity(old(services), id, q)
                          case None => old(services)
      ensures meters == old(meters) && aiOptIn == old(aiOptIn) && edgeRequired == old(edgeRequired)
      ensures edgePayment == old(edgePayment) && edgeQuantity == old(edgeQuantity)
    {
      match value {
        case Num(quantity) =>
          if quantity >= 1 {
            services := WithServiceQuantity(services, id, quantity);
          }
        case Empty =>
          services := WithServiceQuantity(services, id, 0);
        case Invalid =>
      }
      Recompute();
    }

    method SetAiOptIn(checked: bool)
      requires Valid()
      modifies this
      ensures Valid() && aiOptIn == checked
      ensures meters == old(meters) && services == old(services) && edgeRequired == old(edgeRequired)
      ensures edgePayment == old(edgePayment) && edgeQuantity == old(edgeQuantity)
    {
      aiOptIn := checked;
      Recompute();
    }

    method SetEdgeRequired(checked: bool)
      requires Valid()
      modifies this
      ensures Valid() && edgeRequired == checked
      ensures meters == old(meters) && services == old(services) && aiOptIn == old(aiOptIn)
      ensures edgePayment == old(edgePayment) && edgeQuantity == old(edgeQuantity)
    {
      edgeRequired := checked;
      Recompute();
    }

    method SetEdgePayment(mode: PaymentMode)
      requires Valid()
      modifies this
      ensures Valid() && edgePayment == mode
      ensures meters == old(meters) && services == old(services) && aiOptIn == old(aiOptIn)
      ensures edgeRequired == old(edgeRequired) && edgeQuantity == old(edgeQuantity)
    {
      edgePayment := mode;
      Recompute();
    }
  }
}
