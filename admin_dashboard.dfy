/**
 * The administrator's catalog editor (src/components/AdminDashboard.tsx).
 *
 * The dashboard edits a working copy of the catalog one field at a time,
 * tracks whether that copy has unsaved changes (isModified), writes it to
 * storage on Save and asks for confirmation before logging out with unsaved
 * changes.
 */
module AdminDashboard {
  import opened Wrappers
  import opened PricingService

  datatype MeterField = RateNoAI | RateWithAI

  datatype ServiceField = Rate | Minimum

  datatype EdgeField = MonthlyRate | OneTimeRate

  function SetMeterField(p: MeterPrice, field: MeterField, value: int): MeterPrice {
    match field
    case RateNoAI => p.(rateNoAI := value)
    case RateWithAI => p.(rateWithAI := value)
  }

  /** Sets one rate of the meters with that id; every other entry and field stays. */
  function UpdateMeterById(ms: seq<MeterPrice>, id: string, field: MeterField, value: int): (r: seq<MeterPrice>)
    ensures |r| == |ms|
    ensures forall i :: 0 <= i < |ms| ==> r[i].id == ms[i].id && r[i].name == ms[i].name
    ensures forall i :: 0 <= i < |ms| && ms[i].id != id ==> r[i] == ms[i]
    ensures forall i :: 0 <= i < |ms| && ms[i].id == id ==>
      (if field == RateNoAI then r[i].rateNoAI == value && r[i].rateWithAI == ms[i].rateWithAI
       else r[i].rateWithAI == value && r[i].rateNoAI == ms[i].rateNoAI)
  {
    seq(|ms|, i requires 0 <= i < |ms| => if ms[i].id == id then SetMeterField(ms[i], field, value) else ms[i])
  }

  /** Setting the minimum makes it present, even on a service that had none. */
  function SetServiceField(p: ServicePrice, field: ServiceField, value: int): ServicePrice {
    match field
    case Rate => p.(rate := value)
    case Minimum => p.(minimum := Some(value))
  }

  /** Sets the rate or the minimum of the services with that id; every other entry and field stays. */
  function UpdateServiceById(ss: seq<ServicePrice>, id: string, field: ServiceField, value: int): (r: seq<ServicePrice>)
    ensures |r| == |ss|
    ensures forall i :: 0 <= i < |ss| ==> r[i].id == ss[i].id && r[i].name == ss[i].name && r[i].unit == ss[i].unit
    ensures forall i :: 0 <= i < |ss| && ss[i].id != id ==> r[i] == ss[i]
    ensures forall i :: 0 <= i < |ss| && ss[i].id == id ==>
      (if field == Rate then r[i].rate == value && r[i].minimum == ss[i].minimum
       else r[i].minimum == Some(value) && r[i].rate == ss[i].rate)
  {
    seq(|ss|, i requires 0 <= i < |ss| => if ss[i].id == id then SetServiceField(ss[i], field, value) else ss[i])
  }

  function UpdateEdge(e: EdgePrice, field: EdgeField, value: int): (r: EdgePrice)
    ensures field == MonthlyRate ==> r.monthlyRate == value && r.oneTimeRate == e.oneTimeRate
    ensures field == OneTimeRate ==> r.oneTimeRate == value && r.monthlyRate == e.monthlyRate
  {
    match field
    case MonthlyRate => e.(monthlyRate := value)
    case OneTimeRate => e.(oneTimeRate := value)
  }

  /** Updating a meter leaves the meter ids as they were, so unique ids stay unique. */
  lemma UpdateKeepsUniqueIds(c: PricingConfig, id: string, mf: MeterField, sf: ServiceField, value: int)
    requires UniqueMeterIds(c.meters) && UniqueServiceIds(c.services)
    ensures UniqueMeterIds(UpdateMeterById(c.meters, id, mf, value))
    ensures UniqueServiceIds(UpdateServiceById(c.services, id, sf, value))
  {
  }

  class Dashboard {
    /** The working copy of the catalog. */
    var pricingConfig: PricingConfig
    /** Whether the working copy has edits that were not saved. */
    var isModified: bool
    const storage: BrowserStorage

    /** Opening the dashboard: the catalog as loaded, no unsaved changes. */
    constructor (storage: BrowserStorage)
      ensures this.storage == storage
      ensures pricingConfig == storage.GetPricingConfig() && !isModified
    {
      this.storage := storage;
      pricingConfig := storage.GetPricingConfig();
      isModified := false;
    }

    /** The Save button is enabled only while there are unsaved changes. */
    predicate SaveEnabled()
      reads this
    {
      isModified
    }

    method HandleMeterChange(id: string, field: MeterField, value: int)
      modifies this`pricingConfig, this`isModified
      ensures pricingConfig == old(pricingConfig).(meters := UpdateMeterById(old(pricingConfig.meters), id, field, value))
      ensures isModified
    {
      pricingConfig := pricingConfig.(meters := UpdateMeterById(pricingConfig.meters, id, field, value));
      isModified := true;
    }

    method HandleServiceChange(id: string, field: ServiceField, value: int)
      modifies this`pricingConfig, this`isModified
      ensures pricingConfig == old(pricingConfig).(services := UpdateServiceById(old(pricingConfig.services), id, field, value))
      ensures isModified
    {
      pricingConfig := pricingConfig.(services := UpdateServiceById(pricingConfig.services, id, field, value));
      isModified := true;
    }

    method HandleEdgeDeviceChange(field: EdgeField, value: int)
      modifies this`pricingConfig, this`isModified
      ensures pricingConfig == old(pricingConfig).(edgeDevice := UpdateEdge(old(pricingConfig.edgeDevice), field, value))
      ensures isModified
    {
      pricingConfig := pricingConfig.(edgeDevice := UpdateEdge(pricingConfig.edgeDevice, field, value));
      isModified := true;
    }

    /**
     * Saves the working copy stamped with `now`. The working copy itself keeps
     * its old timestamp. Success clears isModified; failure keeps it and the
     * edits.
     */
    method HandleSave(now: string) returns (saved: bool)
      requires SaveEnabled()
      modifies this`isModified, storage`pricingItem
      ensures saved == !storage.writeFails
      ensures pricingConfig == old(pricingConfig)
      ensures isModified == !saved
      ensures storage.pricingItem == if saved then Some(Json(pricingConfig.(lastUpdated := now)))
                                     else old(storage.pricingItem)
      ensures saved && !storage.readFails ==> storage.GetPricingConfig() == pricingConfig.(lastUpdated := now)
    {
      var updatedConfig := pricingConfig.(lastUpdated := now);
      saved := storage.SavePricingConfig(updatedConfig);
      if saved {
        isModified := false;
      }
    }

    /**
     * Logout: immediate without unsaved changes; otherwise only when the user
     * confirms. Logging out removes the session marker and hands control back.
     */
    method HandleLogoutClick(confirmed: bool) returns (loggedOut: bool)
      modifies storage`adminSession
      ensures loggedOut <==> !isModified || confirmed
      ensures loggedOut ==> storage.adminSession == None
      ensures !loggedOut ==> storage.adminSession == old(storage.adminSession)
    {
      if isModified {
        if confirmed {
          storage.RemoveAdminSession();
          loggedOut := true;
        } else {
          loggedOut := false;
        }
      } else {
        storage.RemoveAdminSession();
        loggedOut := true;
      }
    }
  }
}
