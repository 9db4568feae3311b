/**
 * components/PropertyView.tsx: the property manager's console.  The
 * community order list, the pending and approved renovation lists and the
 * unsettled monthly-bill figure are pure selections; approving a permit and
 * dispatching a clearance order go through the store.
 */
module PropertyView {
  import opened Wrappers
  import opened Strings
  import opened Seqs
  import opened Types
  import App
  import DisposalView

  // ---------------------------------------------------------- selections

  /** `o.pickupDetails?.community && managedCommunities.includes(…)`: an empty community never matches. */
  predicate InCommunity(o: Order, communities: seq<string>) {
    o.pickupDetails.Some? && o.pickupDetails.value.community != "" && o.pickupDetails.value.community in communities
  }

  /** `communityOrders`. */
  function CommunityOrders(orders: seq<Order>, communities: seq<string>): (r: seq<Order>)
    ensures forall k :: 0 <= k < |orders| ==> (orders[k] in r <==> InCommunity(orders[k], communities))
    ensures forall k :: 0 <= k < |r| ==> r[k] in orders && InCommunity(r[k], communities)
  {
    Filter(orders, (o: Order) => InCommunity(o, communities))
  }

  /** A residential application for one of the managed communities, in the given status. */
  predicate ManagedApp(a: RenovationApplication, communities: seq<string>, status: ProjectStatus) {
    a.projectType == Residential && a.communityName != "" && a.communityName in communities && a.status == status
  }

  /** `pendingApps`. */
  function PendingApps(apps: seq<RenovationApplication>, communities: seq<string>): (r: seq<RenovationApplication>)
    ensures forall k :: 0 <= k < |apps| ==> (apps[k] in r <==> ManagedApp(apps[k], communities, ProjectStatus.Pending))
    ensures forall k :: 0 <= k < |r| ==> r[k] in apps && r[k].status == ProjectStatus.Pending
  {
    Filter(apps, (a: RenovationApplication) => ManagedApp(a, communities, ProjectStatus.Pending))
  }

  /** `approvedApps`. */
  function ApprovedApps(apps: seq<RenovationApplication>, communities: seq<string>): (r: seq<RenovationApplication>)
    ensures forall k :: 0 <= k < |apps| ==> (apps[k] in r <==> ManagedApp(apps[k], communities, Approved))
    ensures forall k :: 0 <= k < |r| ==> r[k] in apps && r[k].status == Approved
  {
    Filter(apps, (a: RenovationApplication) => ManagedApp(a, communities, Approved))
  }

  /** No application is listed both as pending and as approved. */
  lemma AppListsDisjoint(apps: seq<RenovationApplication>, communities: seq<string>)
    ensures forall a :: a in PendingApps(apps, communities) ==> a !in ApprovedApps(apps, communities)
  {
    var p := PendingApps(apps, communities);
    var q := ApprovedApps(apps, communities);
    forall a | a in p
      ensures a !in q
    {
      var i :| 0 <= i < |p| && p[i] == a;
      assert a.status == ProjectStatus.Pending;
    }
  }

  /** A MONTHLY_BILL order not yet COMPLETED. */
  predicate Unsettled(o: Order) {
    o.paymentStatus == Some(MonthlyBill) && o.status != Completed
  }

  /** `unsettledAmount`: the `estimatedPrice || 0` of the unsettled community orders. */
  function UnsettledAmount(orders: seq<Order>, communities: seq<string>): int {
    Sum(Filter(CommunityOrders(orders, communities), Unsettled), PriceOrZero)
  }

  /** One more order at the front adds its price exactly when it is an unsettled community order. */
  lemma UnsettledAfterAdd(o: Order, orders: seq<Order>, communities: seq<string>)
    ensures UnsettledAmount([o] + orders, communities) ==
              UnsettledAmount(orders, communities) + (if InCommunity(o, communities) && Unsettled(o) then PriceOrZero(o) else 0)
  {
    var p := (x: Order) => InCommunity(x, communities);
    FilterAppend([o], orders, p);
    var co := CommunityOrders(orders, communities);
    var head := Filter([o], p);
    assert [o][1..] == [];
    FilterAppend(head, co, Unsettled);
    SumAppend(Filter(head, Unsettled), Filter(co, Unsettled), PriceOrZero);
    if !InCommunity(o, communities) {
      assert head == [];
    } else {
      assert head == [o];
      assert [o][1..] == [];
      if Unsettled(o) {
        assert Filter(head, Unsettled) == [o];
      } else {
        assert Filter(head, Unsettled) == [];
      }
    }
  }

  /** With non-negative prices the unsettled figure never exceeds the community's total. */
  lemma UnsettledWithinTotal(orders: seq<Order>, communities: seq<string>)
    requires forall k :: 0 <= k < |orders| ==> PriceOrZero(orders[k]) >= 0
    ensures 0 <= UnsettledAmount(orders, communities) <= Sum(CommunityOrders(orders, communities), PriceOrZero)
  {
    var co := CommunityOrders(orders, communities);
    assert forall k :: 0 <= k < |co| ==> PriceOrZero(co[k]) >= 0 by {
      forall k | 0 <= k < |co|
        ensures PriceOrZero(co[k]) >= 0
      {
        var j :| 0 <= j < |orders| && orders[j] == co[k];
      }
    }
    SumFilterNonNegative(co, Unsettled, PriceOrZero);
    SumFilterLe(co, Unsettled, PriceOrZero);
  }

  // ----------------------------------------------------------- suppliers

  const DayMs: nat := 86400000

  /** `DEFAULT_SUPPLIERS`; `loadTime` is the `Date.now()` read when the module loads. */
  function DefaultSuppliers(loadTime: int): (r: seq<PropertySupplier>)
    ensures |r| == 2 && r[0].id == "f-1" && r[1].id == "f-2"
    ensures r[0].contractUntil == loadTime + DayMs * 180 && r[1].contractUntil == loadTime + DayMs * 90
  {
    [PropertySupplier("f-1", "城投环境物流车队", "赵经理", "13912345678", 12, 4.9, Active, loadTime + DayMs * 180),
     PropertySupplier("f-2", "绿通渣土专运", "王调度", "13888889999", 8, 4.8, Active, loadTime + DayMs * 90)]
  }

  /** `profile.suppliers || DEFAULT_SUPPLIERS`: an array, even an empty one, is kept. */
  function Suppliers(profile: PropertyProfile, loadTime: int): (r: seq<PropertySupplier>)
    ensures profile.suppliers.Some? ==> r == profile.suppliers.value
    ensures profile.suppliers.None? ==> r == DefaultSuppliers(loadTime)
  {
    if profile.suppliers.Some? then profile.suppliers.value else DefaultSuppliers(loadTime)
  }

  // ------------------------------------------------------------- permits

  /**
   * `PMT-<year>-<n padded to four digits>`, where `serial` stands for
   * `Math.floor(Math.random() * 10000)`.
   */
  function PermitId(year: nat, serial: nat): (r: string)
    requires serial < 10000
    ensures StartsWith(r, "PMT-" + NatToString(year) + "-")
    ensures |r| == 9 + |NatToString(year)|
    ensures forall i :: |r| - 4 <= i < |r| ==> IsDigit(r[i])
    ensures DigitsValue(r[|r| - 4..]) == serial
  {
    var digits := NatToString(serial);
    assert Pow10(4) == 10000 by {
      assert Pow10(1) == 10;
      assert Pow10(2) == 100;
      assert Pow10(3) == 1000;
    }
    NatToStringLength(serial, 4);
    var padded := PadStart(digits, 4, '0');
    assert padded == Repeat('0', 4 - |digits|) + digits;
    DigitsLeadingZeros(4 - |digits|, digits);
    DigitsNatToString(serial);
    var prefix := "PMT-" + NatToString(year) + "-";
    var r := prefix + padded;
    assert r[|r| - 4..] == padded;
    assert r[..|prefix|] == prefix;
    r
  }

  /** The approved application: only the status and the permit change. */
  function ApprovedApp(a: RenovationApplication, permit: string): (r: RenovationApplication)
    ensures r.status == Approved && r.permitId == Some(permit)
    ensures r.(status := a.status, permitId := a.permitId) == a
  {
    a.(status := Approved, permitId := Some(permit))
  }

  /**
   * After approval, a pending application of a managed community moves to
   * the approved list, and no application with its id stays pending.
   */
  lemma ApprovalMovesApp(apps: seq<RenovationApplication>, communities: seq<string>, a: RenovationApplication,
                         permit: string)
    requires ManagedApp(a, communities, ProjectStatus.Pending)
    requires a in apps
    ensures var after := ReplaceByKey(apps, (x: RenovationApplication) => x.id, ApprovedApp(a, permit));
            && ApprovedApp(a, permit) in ApprovedApps(after, communities)
            && forall b :: b in PendingApps(after, communities) ==> b.id != a.id
  {
    var key := (x: RenovationApplication) => x.id;
    var b := ApprovedApp(a, permit);
    var after := ReplaceByKey(apps, key, b);
    var i :| 0 <= i < |apps| && apps[i] == a;
    assert after[i] == b;
    assert ManagedApp(b, communities, Approved);
    var pend := PendingApps(after, communities);
    forall c | c in pend
      ensures c.id != a.id
    {
      var j :| 0 <= j < |pend| && pend[j] == c;
      var m :| 0 <= m < |after| && after[m] == c;
      assert c.status == ProjectStatus.Pending;
    }
  }

  // ----------------------------------------------------- clearance order

  /** `associatedApp?.renovationCompany || '自装/散工'`. */
  function Contractor(apps: seq<RenovationApplication>, appId: string): (r: string)
    ensures var app := Find(apps, (a: RenovationApplication) => a.id == appId);
            r == if app.Some? && Truthy(app.value.renovationCompany) then app.value.renovationCompany.value
                 else "自装/散工"
  {
    var app := Find(apps, (a: RenovationApplication) => a.id == appId);
    if app.Some? then OrElse(app.value.renovationCompany, "自装/散工") else "自装/散工"
  }

  /** The crew placeholder: the fleet's phone (or ""), plate 待指派, and the fleet's own name and id. */
  function SupplierCrew(fleet: Option<PropertySupplier>): (a: Assignment)
    ensures a.name == Some("车队调度中") && a.plate == Some("待指派")
    ensures fleet.Some? ==> a.phone == Some(fleet.value.phone) && a.fleetName == Some(fleet.value.name)
                            && a.fleetId == Some(fleet.value.id)
    ensures fleet.None? ==> a.phone == Some("") && a.fleetName.None? && a.fleetId.None?
  {
    match fleet
    case Some(f) => Assignment(Some("车队调度中"), Some(StrOr(f.phone, "")), Some("待指派"), Some(f.name), Some(f.id))
    case None => Assignment(Some("车队调度中"), Some(""), Some("待指派"), None, None)
  }

  /** The form fields `handleSubmitOrder` reads. */
  datatype ClearanceForm = ClearanceForm(
    community: string, building: string, unit: string, room: string,
    associatedAppId: string, selectedFleetId: string)

  /** The order `handleSubmitOrder` dispatches. */
  function ClearanceOrder(profile: PropertyProfile, form: ClearanceForm, suppliers: seq<PropertySupplier>,
                          apps: seq<RenovationApplication>, media: string, now: nat): (o: Order)
    ensures o.id == "prop-clr-" + NatToString(now) && o.userId == "prop-" + profile.id && o.createdAt == now
    ensures o.status == Analyzing && o.orderType == WasteRemoval && o.paymentStatus == Some(MonthlyBill)
    ensures o.mediaType == Image && o.mediaData == media
    ensures o.analysis.Some? && o.analysis.value.estimatedPrice == 450 && o.analysis.value.wasteType == Construction
    ensures o.assignedDriver == Some(SupplierCrew(Find(suppliers, (s: PropertySupplier) => s.id == form.selectedFleetId)))
    ensures o.pickupDetails.Some? && o.pickupDetails.value.community == form.community
    ensures o.pickupDetails.value.contractorName == Some(Contractor(apps, form.associatedAppId))
    ensures o.pickupDetails.value.building == Some(form.building) && o.pickupDetails.value.roomNumber == Some(form.room)
  {
    var fleet := Find(suppliers, (s: PropertySupplier) => s.id == form.selectedFleetId);
    var address := form.community + " " + form.building + "-" + form.unit + "-" + form.room;
    var pickup := PickupDetails("上海市", "浦东新区", form.community, form.community, true, "GROUND_FLOOR",
                                Some(form.building), Some(form.unit), Some(form.room),
                                Some(Contractor(apps, form.associatedAppId)), None);
    var analysis := WasteAnalysis(Construction, 0, "待估", 450, "物业代报: " + form.building + "栋" + form.room,
                                  "Truck", None, false, true, NoLabor, Immediate);
    NewOrder("prop-clr-" + NatToString(now), "prop-" + profile.id, now, Analyzing, WasteRemoval,
             GeoLocation(31.22, 121.48, Some(address)), Image, media)
      .(pickupDetails := Some(pickup), paymentStatus := Some(MonthlyBill), assignedDriver := Some(SupplierCrew(fleet)),
        analysis := Some(analysis))
  }

  /** The disposal gate settles a property's clearance order through the platform. */
  lemma ClearanceSettlesViaPlatform(profile: PropertyProfile, form: ClearanceForm, suppliers: seq<PropertySupplier>,
                                    apps: seq<RenovationApplication>, media: string, now: nat)
    ensures DisposalView.SettlementFor(ClearanceOrder(profile, form, suppliers, apps, media, now)) == Platform
  {
    var o := ClearanceOrder(profile, form, suppliers, apps, media, now);
    assert o.userId[..5] == "prop-";
  }

  /** A clearance order for a managed community adds 450 to the unsettled figure. */
  lemma ClearanceIsBilled(profile: PropertyProfile, form: ClearanceForm, suppliers: seq<PropertySupplier>,
                          apps: seq<RenovationApplication>, media: string, now: nat, orders: seq<Order>)
    requires form.community != "" && form.community in profile.managedCommunities
    ensures var o := ClearanceOrder(profile, form, suppliers, apps, media, now);
            UnsettledAmount([o] + orders, profile.managedCommunities) ==
              UnsettledAmount(orders, profile.managedCommunities) + 450
  {
    var o := ClearanceOrder(profile, form, suppliers, apps, media, now);
    UnsettledAfterAdd(o, orders, profile.managedCommunities);
  }

  // ---------------------------------------------------- component state

  datatype Tab = Dashboard | Permits | Clearance | SuppliersTab | Finance

  /** `handleApprove`: the application, approved with a fresh permit, replaces the stored one. */
  method Approve(store: App.Store, app: RenovationApplication, year: nat, serial: nat)
    requires serial < 10000
    modifies store`renovationApps
    ensures store.renovationApps ==
              ReplaceByKey(old(store.renovationApps), (x: RenovationApplication) => x.id,
                           ApprovedApp(app, PermitId(year, serial)))
  {
    store.UpdateRenovation(ApprovedApp(app, PermitId(year, serial)));
  }

  class State {
    var activeTab: Tab
    var isCreating: bool
    var selectedCommunity: string
    var building: string
    var unit: string
    var room: string
    var associatedAppId: string
    var selectedFleetId: string
    var mediaData: Option<string>

    /** `managedCommunities[0] || ''` is the first community; the first default supplier is selected. */
    constructor (profile: PropertyProfile)
      ensures selectedCommunity == if |profile.managedCommunities| > 0 then profile.managedCommunities[0] else ""
      ensures selectedFleetId == "f-1" && !isCreating && mediaData.None? && activeTab == Dashboard
      ensures building == "" && unit == "" && room == "" && associatedAppId == ""
    {
      activeTab := Dashboard;
      isCreating := false;
      selectedCommunity := if |profile.managedCommunities| > 0 then profile.managedCommunities[0] else "";
      building := "";
      unit := "";
      room := "";
      associatedAppId := "";
      selectedFleetId := "f-1";
      mediaData := None;
    }

    function Form(): ClearanceForm
      reads this
    {
      ClearanceForm(selectedCommunity, building, unit, room, associatedAppId, selectedFleetId)
    }

    /**
     * `handleSubmitOrder`: nothing without a building and a room, or without
     * a photo; otherwise the clearance order goes to the front of the store
     * and the form closes with its photo cleared.
     */
    method SubmitOrder(store: App.Store, profile: PropertyProfile, loadTime: int, now: nat)
      modifies this`isCreating, this`mediaData, store`orders
      ensures building == "" || room == "" || !Truthy(old(mediaData)) ==>
                store.orders == old(store.orders) && isCreating == old(isCreating) && mediaData == old(mediaData)
      ensures building != "" && room != "" && Truthy(old(mediaData)) ==>
                && store.orders == [ClearanceOrder(profile, Form(), Suppliers(profile, loadTime),
                                                   old(store.renovationApps), old(mediaData).value, now)]
                                   + old(store.orders)
                && !isCreating && mediaData.None?
    {
      if building == "" || room == "" {
        return;
      }
      if !Truthy(mediaData) {
        return;
      }
      var o := ClearanceOrder(profile, Form(), Suppliers(profile, loadTime), store.renovationApps, mediaData.value, now);
      store.AddOrder(o);
      isCreating := false;
      mediaData := None;
    }
  }
}
