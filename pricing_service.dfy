/**
 * The price catalog and its persistence (src/services/pricingService.ts).
 *
 * The catalog holds prices only; quantities and selections belong to the
 * quotation form. Browser storage is modelled as an object whose fields are
 * the values held under the two keys the application uses, plus two flags
 * saying whether the browser currently refuses reads or writes.
 */
module PricingService {
  import opened Wrappers

  datatype MeterPrice = MeterPrice(id: string, name: string, rateNoAI: int, rateWithAI: int)

  datatype ServicePrice = ServicePrice(id: string, name: string, rate: int, unit: Option<string>, minimum: Option<int>)

  datatype EdgePrice = EdgePrice(monthlyRate: int, oneTimeRate: int)

  datatype PricingConfig = PricingConfig(
    meters: seq<MeterPrice>,
    services: seq<ServicePrice>,
    edgeDevice: EdgePrice,
    lastUpdated: string)

  /** Key under which the catalog is stored. */
  const PricingStorageKey: string := "terraems_pricing_config"

  /** Key of the administrator session marker. */
  const AdminSessionKey: string := "terraems_admin_session"

  const M1Name: string := "Single phase energy meter KWH only"
  const M2Name: string := "Single phase energy meter kwh, KW, V, I, pf"
  const M3Name: string := "3 phase energy meter KWH, KW, V, I, Ph"
  const M4Name: string := "3 phase energy meter KWH, KW, V, I, KVAr, harmonics"
  const S1Name: string := "Mimics pages - SLD, electrical component, energy flows etc"
  const S2Name: string := "AI Philosophy for TerraAI"
  const S3Name: string := "Initialization, Dashboards, Installation, alarms & commissioning"

  predicate UniqueMeterIds(ms: seq<MeterPrice>) {
    forall i, j :: 0 <= i < j < |ms| ==> ms[i].id != ms[j].id
  }

  predicate UniqueServiceIds(ss: seq<ServicePrice>) {
    forall i, j :: 0 <= i < j < |ss| ==> ss[i].id != ss[j].id
  }

  /**
   * The built-in catalog. Its timestamp is taken once, when the module is
   * loaded, so it is a parameter here.
   */
  function DefaultPricing(loadedAt: string): (c: PricingConfig)
    ensures |c.meters| == 4 && |c.services| == 3
    ensures UniqueMeterIds(c.meters) && UniqueServiceIds(c.services)
    ensures forall p | p in c.services :: p.minimum.Some? <==> p.id == "s2" || p.id == "s3"
    ensures forall p | p in c.meters :: 0 < p.rateNoAI < p.rateWithAI
    ensures forall p | p in c.services :: p.rate > 0
    ensures c.edgeDevice.monthlyRate == 100 && c.edgeDevice.oneTimeRate == 3000
    ensures c.lastUpdated == loadedAt
  {
    PricingConfig(
      [ MeterPrice("m1", M1Name, 10, 20),
        MeterPrice("m2", M2Name, 20, 40),
        MeterPrice("m3", M3Name, 30, 60),
        MeterPrice("m4", M4Name, 60, 120) ],
      [ ServicePrice("s1", S1Name, 2000, Some("per page"), None),
        ServicePrice("s2", S2Name, 2000, Some("per component"), Some(150000)),
        ServicePrice("s3", S3Name, 1000, Some("per component"), Some(100000)) ],
      EdgePrice(100, 3000),
      loadedAt)
  }

  /**
   * What the browser holds under the catalog key: the empty string (falsy,
   * so never parsed), text that parses to a catalog, or text that does not
   * parse. JSON encoding is taken to be the identity on catalogs.
   */
  datatype StoredItem = EmptyText | Json(config: PricingConfig) | Malformed

  /**
   * Read with fallback: the stored catalog when the read succeeds and the
   * stored text is non-empty and parses, the fallback in every other case.
   */
  function LoadPricing(item: Option<StoredItem>, readFails: bool, fallback: PricingConfig): (c: PricingConfig)
    ensures c == fallback || (!readFails && item == Some(Json(c)))
    ensures !readFails && item.Some? && item.value.Json? ==> c == item.value.config
    ensures readFails || item == None || item == Some(EmptyText) || item == Some(Malformed) ==> c == fallback
  {
    if readFails then fallback
    else match item
      case None => fallback
      case Some(EmptyText) => fallback
      case Some(Malformed) => fallback
      case Some(Json(stored)) => stored
  }

  class BrowserStorage {
    /** Value under PricingStorageKey, None when the key is absent. */
    var pricingItem: Option<StoredItem>
    /** Value under AdminSessionKey, None when the key is absent. */
    var adminSession: Option<string>
    /** The browser throws on reads (storage disabled). */
    var readFails: bool
    /** The browser throws on writes (quota exceeded, storage disabled). */
    var writeFails: bool
    /** The built-in catalog, stamped when the pricing module was loaded. */
    const defaults: PricingConfig

    constructor (pricingItem: Option<StoredItem>, adminSession: Option<string>,
                 readFails: bool, writeFails: bool, loadedAt: string)
      ensures this.pricingItem == pricingItem && this.adminSession == adminSession
      ensures this.readFails == readFails && this.writeFails == writeFails
      ensures defaults == DefaultPricing(loadedAt)
    {
      this.pricingItem := pricingItem;
      this.adminSession := adminSession;
      this.readFails := readFails;
      this.writeFails := writeFails;
      defaults := DefaultPricing(loadedAt);
    }

    /** `getPricingConfig`: never fails, falls back to the default catalog. */
    function GetPricingConfig(): (c: PricingConfig)
      reads this
      ensures c == defaults || (!readFails && pricingItem == Some(Json(c)))
      ensures pricingItem == None ==> c == defaults
    {
      LoadPricing(pricingItem, readFails, defaults)
    }

    /** `savePricingConfig`: writes under the fixed key and reports success. */
    method SavePricingConfig(config: PricingConfig) returns (ok: bool)
      modifies this`pricingItem
      ensures ok == !writeFails
      ensures pricingItem == if ok then Some(Json(config)) else old(pricingItem)
      ensures ok && !readFails ==> GetPricingConfig() == config
    {
      if writeFails {
        ok := false;
      } else {
        pricingItem := Some(Json(config));
        ok := true;
      }
    }

    /** `localStorage.removeItem(AdminSessionKey)`. */
    method RemoveAdminSession()
      modifies this`adminSession
      ensures adminSession == None
    {
      adminSession := None;
    }
  }
}
