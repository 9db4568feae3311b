/**
 * components/DisposalView.tsx: the disposal facility's gate.  The arrival
 * queue, the completed history with its search and settlement filter, and
 * the fee figures are pure selections; gate confirmation, the operational
 * status switch and the promotion broadcast go through the store.
 */
module DisposalView {
  import opened Wrappers
  import opened Strings
  import opened Seqs
  import opened Types
  import App

  // ------------------------------------------------------------ queues

  /** Named for this facility, or on its way in (LOADING_COMPLETE or ARRIVED_DISPOSAL). */
  predicate ForFacility(o: Order, facilityName: string) {
    o.disposalFacilityName == Some(facilityName) || o.status == ArrivedDisposal || o.status == LoadingComplete
  }

  /** `myFacilityOrders`. */
  function FacilityOrders(orders: seq<Order>, facilityName: string): (r: seq<Order>)
    ensures forall k :: 0 <= k < |orders| ==> (orders[k] in r <==> ForFacility(orders[k], facilityName))
    ensures forall k :: 0 <= k < |r| ==> r[k] in orders && ForFacility(r[k], facilityName)
  {
    Filter(orders, (o: Order) => ForFacility(o, facilityName))
  }

  predicate AtGate(o: Order) {
    o.status == ArrivedDisposal || o.status == LoadingComplete
  }

  /** `arrivedOrders`: exactly the orders in LOADING_COMPLETE or ARRIVED_DISPOSAL, whatever facility they name. */
  function Arrived(orders: seq<Order>, facilityName: string): (r: seq<Order>)
    ensures forall k :: 0 <= k < |orders| ==> (orders[k] in r <==> AtGate(orders[k]))
    ensures forall k :: 0 <= k < |r| ==> r[k] in orders && AtGate(r[k])
  {
    var mine := FacilityOrders(orders, facilityName);
    var r := Filter(mine, AtGate);
    forall k | 0 <= k < |orders| && AtGate(orders[k])
      ensures orders[k] in r
    {
      var j :| 0 <= j < |mine| && mine[j] == orders[k];
    }
    r
  }

  /** `completedOrders`: this facility's COMPLETED orders. */
  function CompletedHere(orders: seq<Order>, facilityName: string): (r: seq<Order>)
    ensures forall k :: 0 <= k < |orders| ==>
              (orders[k] in r <==> orders[k].status == Completed && orders[k].disposalFacilityName == Some(facilityName))
    ensures forall k :: 0 <= k < |r| ==> r[k] in orders && r[k].status == Completed
  {
    var mine := FacilityOrders(orders, facilityName);
    var r := Filter(mine, (o: Order) => o.status == Completed);
    forall k | 0 <= k < |orders| && orders[k].status == Completed && orders[k].disposalFacilityName == Some(facilityName)
      ensures orders[k] in r
    {
      var j :| 0 <= j < |mine| && mine[j] == orders[k];
    }
    r
  }

  // ----------------------------------------------------------- history

  datatype SettlementFilter = AllSettlements | PendingSettlements | PaidSettlements

  /**
   * The search of `filteredHistory`.  Its first test reads
   * `assignedDriver?.plate.includes`, which throws on an assignment without
   * a plate: `None` is that TypeError.
   */
  function HistorySearch(o: Order, q: string): (r: Option<bool>)
    ensures r.None? <==> o.assignedDriver.Some? && o.assignedDriver.value.plate.None?
    ensures r == Some(true) <==>
              && !(o.assignedDriver.Some? && o.assignedDriver.value.plate.None?)
              && (|| (o.assignedDriver.Some? && Contains(o.assignedDriver.value.plate.value, q))
                  || Contains(o.id, q)
                  || (o.manifestSerialNo.Some? && Contains(o.manifestSerialNo.value, q))
                  || (o.pickupDetails.Some? && Contains(o.pickupDetails.value.community, q)))
  {
    if o.assignedDriver.Some? && o.assignedDriver.value.plate.None? then None
    else Some(|| (o.assignedDriver.Some? && Contains(o.assignedDriver.value.plate.value, q))
              || Contains(o.id, q)
              || (o.manifestSerialNo.Some? && Contains(o.manifestSerialNo.value, q))
              || (o.pickupDetails.Some? && Contains(o.pickupDetails.value.community, q)))
  }

  predicate MatchesSettlement(o: Order, f: SettlementFilter) {
    || f == AllSettlements
    || (f == PendingSettlements && o.disposalSettlementStatus == Some(PendingPlatform))
    || (f == PaidSettlements && o.disposalSettlementStatus == Some(SettlementPaid))
  }

  predicate PlateMissing(o: Order) {
    o.assignedDriver.Some? && o.assignedDriver.value.plate.None?
  }

  predicate HistoryHit(o: Order, q: string, f: SettlementFilter) {
    HistorySearch(o, q) == Some(true) && MatchesSettlement(o, f)
  }

  /**
   * `filteredHistory` over the completed orders: `None` when one of them
   * has an assignment without a plate (the search throws); otherwise exactly
   * the orders that match both the search and the settlement filter.
   */
  function FilteredHistory(completed: seq<Order>, q: string, f: SettlementFilter): (r: Option<seq<Order>>)
    ensures r.None? <==> exists k :: 0 <= k < |completed| && PlateMissing(completed[k])
    ensures r.Some? ==> forall k :: 0 <= k < |completed| ==> (completed[k] in r.value <==> HistoryHit(completed[k], q, f))
    ensures r.Some? ==> forall k :: 0 <= k < |r.value| ==> r.value[k] in completed
  {
    if exists k :: 0 <= k < |completed| && PlateMissing(completed[k]) then None
    else Some(Filter(completed, (o: Order) => HistoryHit(o, q, f)))
  }

  /** With every crew's plate recorded the history never throws. */
  lemma HistoryDefined(completed: seq<Order>, q: string, f: SettlementFilter)
    requires forall k :: 0 <= k < |completed| ==>
               completed[k].assignedDriver.Some? ==> completed[k].assignedDriver.value.DeclaredShape()
    ensures FilteredHistory(completed, q, f).Some?
  {
  }

  /** The PENDING and PAID filters select by settlement status alone, with no overlap. */
  lemma SettlementFiltersDisjoint(o: Order, q: string)
    ensures !(HistoryHit(o, q, PendingSettlements) && HistoryHit(o, q, PaidSettlements))
    ensures HistoryHit(o, q, PendingSettlements) <==>
              HistoryHit(o, q, AllSettlements) && o.disposalSettlementStatus == Some(PendingPlatform)
    ensures HistoryHit(o, q, PaidSettlements) <==>
              HistoryHit(o, q, AllSettlements) && o.disposalSettlementStatus == Some(SettlementPaid)
  {
  }

  // ------------------------------------------------------------- money

  /** `o.disposalFee || 0`. */
  function FeeOrZero(o: Order): int {
    o.disposalFee.GetOr(0)
  }

  datatype FeeStats = FeeStats(platformPending: int, todayDirect: int, totalSettled: int)

  predicate IsPendingPlatform(o: Order) { o.disposalSettlementStatus == Some(PendingPlatform) }
  predicate IsDirect(o: Order) { o.disposalSettlementMethod == Some(SettlementMethod.Direct) }
  predicate IsPaid(o: Order) { o.disposalSettlementStatus == Some(SettlementPaid) }

  /** `financialStats` over the completed orders. */
  function FinancialStats(completed: seq<Order>): (s: FeeStats)
    ensures s.platformPending == Sum(Filter(completed, IsPendingPlatform), FeeOrZero)
    ensures s.todayDirect == Sum(Filter(completed, IsDirect), FeeOrZero)
    ensures s.totalSettled == Sum(Filter(completed, IsPaid), FeeOrZero)
  {
    FeeStats(Sum(Filter(completed, IsPendingPlatform), FeeOrZero), Sum(Filter(completed, IsDirect), FeeOrZero),
             Sum(Filter(completed, IsPaid), FeeOrZero))
  }

  /** Where every DIRECT order is PAID and fees are non-negative, direct takings never exceed settled ones. */
  lemma DirectWithinSettled(completed: seq<Order>)
    requires forall k :: 0 <= k < |completed| ==> FeeOrZero(completed[k]) >= 0
    requires forall k :: 0 <= k < |completed| ==> IsDirect(completed[k]) ==> IsPaid(completed[k])
    ensures FinancialStats(completed).todayDirect <= FinancialStats(completed).totalSettled
  {
    SumFilterMono(completed, IsPaid, IsDirect, FeeOrZero);
  }

  // -------------------------------------------------------- confirmation

  /** A client settled through the platform: an enterprise, a property, or a monthly bill. */
  predicate IsLargeClient(o: Order) {
    StartsWith(o.userId, "ent-") || StartsWith(o.userId, "prop-") || o.paymentStatus == Some(MonthlyBill)
  }

  function SettlementFor(o: Order): (m: SettlementMethod)
    ensures m == Platform <==> IsLargeClient(o)
    ensures m == SettlementMethod.Direct <==> !IsLargeClient(o)
  {
    if IsLargeClient(o) then Platform else SettlementMethod.Direct
  }

  function SettlementStatusFor(m: SettlementMethod): (s: SettlementStatus)
    ensures s == PendingPlatform <==> m == Platform
    ensures s == SettlementPaid <==> m == SettlementMethod.Direct
  {
    match m
    case Platform => PendingPlatform
    case Direct => SettlementPaid
  }

  /** `MF-` and the last six digits of the timestamp. */
  function ManifestSerial(now: nat): (r: string)
    ensures StartsWith(r, "MF-") && 4 <= |r| <= 9
    ensures forall i :: 3 <= i < |r| ==> IsDigit(r[i])
  {
    var digits := NatToString(now);
    var tail := SliceLast(digits, 6);
    assert forall i :: 0 <= i < |tail| ==> tail[i] == digits[|digits| - |tail| + i];
    var r := "MF-" + tail;
    assert forall i :: 3 <= i < |r| ==> r[i] == tail[i - 3];
    r
  }

  /** The `data` of `submitArrivalConfirmation`. */
  function ArrivalData(o: Order, photo: string, fac: DisposalProfile, now: nat): App.OrderPatch {
    var m := SettlementFor(o);
    App.NoData.(disposalEntryPhoto := Put(Some(photo)),
                disposalFacilityName := Put(Some(fac.name)),
                disposalFacilityId := Put(Some(fac.id)),
                disposalFee := Put(Some(450)),
                disposalSettlementMethod := Put(Some(m)),
                disposalSettlementStatus := Put(Some(SettlementStatusFor(m))),
                manifestSerialNo := Put(Some(ManifestSerial(now))))
  }

  /**
   * A confirmed order is COMPLETED at this facility with the 450 fee;
   * PLATFORM for large clients and pending, DIRECT otherwise and paid; so it
   * is in this facility's completed list and keeps the DIRECT-implies-PAID
   * pairing the fee figures rely on.
   */
  lemma Confirmed(target: Order, o: Order, photo: string, fac: DisposalProfile, now: nat)
    ensures var c := App.MergeOrder(target, Completed, ArrivalData(o, photo, fac, now));
            && c.status == Completed && c.disposalFee == Some(450)
            && c.disposalFacilityName == Some(fac.name) && c.disposalFacilityId == Some(fac.id)
            && c.disposalEntryPhoto == Some(photo)
            && (c.disposalSettlementMethod == Some(Platform) <==> IsLargeClient(o))
            && (c.disposalSettlementStatus == Some(PendingPlatform) <==> IsLargeClient(o))
            && (c.disposalSettlementStatus == Some(SettlementPaid) <==> !IsLargeClient(o))
            && (IsDirect(c) ==> IsPaid(c))
            && FeeOrZero(c) == 450
  {
  }

  // ---------------------------------------------------------- promotion

  datatype PromoType = DiscountPromo | RequestPromo

  datatype PromoForm = PromoForm(price: string, reason: string)

  /** The notice `handlePublishPromotion` broadcasts. */
  function PromotionNotice(fac: DisposalProfile, promo: PromoType, form: PromoForm, now: nat): (n: GovernmentNotice)
    ensures n.noticeType == (if promo == DiscountPromo then Notice else Alert)
    ensures n.targetRoles == Some([Driver, Fleet]) && n.time == now && n.title.Some?
    ensures EndsWith(n.content, form.reason)
  {
    var title := if promo == DiscountPromo then "📣 限时优惠：" + fac.name else "🚨 运力召集：" + fac.name;
    var content := if promo == DiscountPromo then "入场费下调至 ¥" + form.price + "/车！" + form.reason
                   else "急需空闲运力入场清运再生骨料。" + form.reason;
    assert EndsWith(content, form.reason) by {
      var pre := if promo == DiscountPromo then "入场费下调至 ¥" + form.price + "/车！" else "急需空闲运力入场清运再生骨料。";
      assert content == pre + form.reason;
      assert content[|content| - |form.reason|..] == form.reason;
    }
    GovernmentNotice("promo-" + NatToString(now), Some(title), content, now,
                     if promo == DiscountPromo then Notice else Alert, Some([Driver, Fleet]))
  }

  // --------------------------------------------------- component state

  datatype Tab = Operations | History | Inventory | Marketing

  class State {
    var activeTab: Tab
    var confirmingOrderId: Option<string>
    var vehiclePhoto: Option<string>
    var historySearch: string
    var settlementFilter: SettlementFilter
    var showPromoModal: bool
    var promoType: PromoType
    var promoForm: PromoForm

    constructor ()
      ensures activeTab == Operations && confirmingOrderId.None? && vehiclePhoto.None?
      ensures historySearch == "" && settlementFilter == AllSettlements && promoType == DiscountPromo
    {
      activeTab := Operations;
      confirmingOrderId := None;
      vehiclePhoto := None;
      historySearch := "";
      settlementFilter := AllSettlements;
      showPromoModal := false;
      promoType := DiscountPromo;
      promoForm := PromoForm("380", "库容充裕，低价招引运力错峰入场");
    }

    /** `handleToggleStatus`: the facility with only its operational status changed replaces the stored one. */
    method ToggleStatus(store: App.Store, fac: DisposalProfile, newStatus: FacilityStatus, now: nat)
      modifies store`facilities, store`notices
      ensures store.facilities == ReplaceByKey(old(store.facilities), (f: DisposalProfile) => f.id,
                                               fac.(operationalStatus := newStatus))
      ensures store.notices == App.NoticesAfterFacilityUpdate(old(store.notices), fac.(operationalStatus := newStatus), now)
    {
      store.UpdateFacility(fac.(operationalStatus := newStatus), now);
    }

    /** `handleStartEntrance`. */
    method StartEntrance(o: Order)
      modifies this`confirmingOrderId, this`vehiclePhoto
      ensures confirmingOrderId == Some(o.id) && vehiclePhoto.None?
    {
      confirmingOrderId := Some(o.id);
      vehiclePhoto := None;
    }

    /**
     * `submitArrivalConfirmation`: without an order being confirmed and a
     * vehicle photo nothing happens; otherwise the confirmed order is
     * completed here and the gate is cleared.  The settlement is classified
     * by the order the button belongs to.
     */
    method SubmitArrival(store: App.Store, fac: DisposalProfile, o: Order, now: nat)
      modifies store`orders, this`confirmingOrderId, this`vehiclePhoto
      ensures !Truthy(old(confirmingOrderId)) || !Truthy(old(vehiclePhoto)) ==>
                store.orders == old(store.orders) && confirmingOrderId == old(confirmingOrderId)
                && vehiclePhoto == old(vehiclePhoto)
      ensures Truthy(old(confirmingOrderId)) && Truthy(old(vehiclePhoto)) ==>
                store.orders == App.UpdateStatusIn(old(store.orders), old(confirmingOrderId).value, Completed,
                                                   ArrivalData(o, old(vehiclePhoto).value, fac, now))
                && confirmingOrderId.None? && vehiclePhoto.None?
    {
      if Truthy(confirmingOrderId) && Truthy(vehiclePhoto) {
        store.UpdateStatus(confirmingOrderId.value, Completed, ArrivalData(o, vehiclePhoto.value, fac, now));
        confirmingOrderId := None;
        vehiclePhoto := None;
      }
    }

    /** `handlePublishPromotion`: the notice goes to the front of the store's notices. */
    method PublishPromotion(store: App.Store, fac: DisposalProfile, now: nat)
      modifies store`notices, this`showPromoModal
      ensures store.notices == [PromotionNotice(fac, promoType, promoForm, now)] + old(store.notices)
      ensures !showPromoModal
    {
      store.PublishNotice(PromotionNotice(fac, promoType, promoForm, now));
      showPromoModal := false;
    }
  }
}
