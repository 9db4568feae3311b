/**
 * components/FleetView.tsx: the fleet console's grab pool, internal
 * dispatch queue and searchable ledger (pure selectors over the store's
 * orders), its revenue figures, and the component state behind grabbing,
 * dispatching, registering projects and adding drivers.
 */
module FleetView {
  import opened Wrappers
  import opened Strings
  import opened Seqs
  import opened Types
  import App

  // ------------------------------------------------------------ queues

  predicate InPool(o: Order) {
    o.status == PendingPickup && !Truthy(App.FleetOf(o))
  }

  /** `poolOrders`: PENDING_PICKUP orders not yet claimed by any fleet. */
  function Pool(orders: seq<Order>): (r: seq<Order>)
    ensures forall k :: 0 <= k < |orders| ==>
              (orders[k] in r <==> orders[k].status == PendingPickup && !Truthy(App.FleetOf(orders[k])))
    ensures forall k :: 0 <= k < |r| ==> r[k] in orders && r[k].status == PendingPickup
  {
    Filter(orders, InPool)
  }

  /** The plate is missing or one of the two placeholders. */
  predicate AwaitingVehicle(o: Order) {
    !Truthy(App.PlateOf(o)) || App.PlateOf(o) == Some("待指派") || App.PlateOf(o) == Some("待指派车辆")
  }

  /** `dispatchOrders`: this fleet's orders still waiting for a vehicle. */
  function DispatchQueue(orders: seq<Order>, fleetName: string): (r: seq<Order>)
    ensures forall k :: 0 <= k < |orders| ==>
              (orders[k] in r <==> App.FleetOf(orders[k]) == Some(fleetName) && AwaitingVehicle(orders[k]))
    ensures forall k :: 0 <= k < |r| ==> r[k] in orders && App.FleetOf(r[k]) == Some(fleetName)
  {
    Filter(orders, (o: Order) => App.FleetOf(o) == Some(fleetName) && AwaitingVehicle(o))
  }

  /** A fleet's grab takes the order out of the pool and into that fleet's dispatch queue. */
  lemma GrabbedIsDispatchable(o: Order, fleetName: string)
    requires fleetName != ""
    ensures var g := App.MergeOrder(o, PendingPickup, App.FleetAcceptData(fleetName));
            App.FleetOf(g) == Some(fleetName) && AwaitingVehicle(g) && !InPool(g)
  {
    App.FleetAccept(o, fleetName);
    var g := App.MergeOrder(o, PendingPickup, App.FleetAcceptData(fleetName));
    assert App.FleetOf(g) == Some(fleetName);
    assert App.PlateOf(g) == Some("待指派");
  }

  // ------------------------------------------------------------ ledger

  datatype LedgerFilter = All | Unsettled | Settled

  /** `name?.includes(q) || plate?.includes(q) || community?.includes(q)`. */
  predicate MatchesSearch(o: Order, q: string) {
    || (App.DriverNameOf(o).Some? && Contains(App.DriverNameOf(o).value, q))
    || (App.PlateOf(o).Some? && Contains(App.PlateOf(o).value, q))
    || (o.pickupDetails.Some? && Contains(o.pickupDetails.value.community, q))
  }

  predicate MatchesFilter(o: Order, f: LedgerFilter) {
    || f == All
    || (f == Unsettled && o.status != Completed)
    || (f == Settled && o.status == Completed)
  }

  function OwnOrders(orders: seq<Order>, fleetName: string): seq<Order> {
    Filter(orders, (o: Order) => App.FleetOf(o) == Some(fleetName))
  }

  function Selected(orders: seq<Order>, fleetName: string, q: string, f: LedgerFilter): seq<Order> {
    Filter(OwnOrders(orders, fleetName), (o: Order) => MatchesSearch(o, q) && MatchesFilter(o, f))
  }

  function CreatedAt(o: Order): int {
    o.createdAt
  }

  /**
   * `ledgerOrders`: this fleet's orders that match the search and the
   * filter, newest first.  An order belongs exactly when it is the fleet's
   * and matches both.
   */
  function Ledger(orders: seq<Order>, fleetName: string, q: string, f: LedgerFilter): (r: seq<Order>)
    ensures SortedDesc(r, CreatedAt)
    ensures forall k :: 0 <= k < |r| ==>
              r[k] in orders && App.FleetOf(r[k]) == Some(fleetName) && MatchesSearch(r[k], q) && MatchesFilter(r[k], f)
    ensures forall k :: 0 <= k < |orders| ==>
              (orders[k] in r <==>
               App.FleetOf(orders[k]) == Some(fleetName) && MatchesSearch(orders[k], q) && MatchesFilter(orders[k], f))
  {
    var sel := Selected(orders, fleetName, q, f);
    SortDescSorted(sel, CreatedAt);
    var r := SortDesc(sel, CreatedAt);
    forall k | 0 <= k < |orders|
      ensures orders[k] in r <==>
              App.FleetOf(orders[k]) == Some(fleetName) && MatchesSearch(orders[k], q) && MatchesFilter(orders[k], f)
    {
      var own := OwnOrders(orders, fleetName);
      if App.FleetOf(orders[k]) == Some(fleetName) {
        var j :| 0 <= j < |own| && own[j] == orders[k];
      }
      assert orders[k] in r <==> orders[k] in multiset(r);
      assert orders[k] in sel <==> orders[k] in multiset(sel);
    }
    r
  }

  /** An order with no driver name, plate or community never shows, even for the empty search. */
  lemma LedgerExcludesUnsearchable(orders: seq<Order>, fleetName: string, q: string, f: LedgerFilter, o: Order)
    requires App.DriverNameOf(o).None? && App.PlateOf(o).None? && o.pickupDetails.None?
    ensures o !in Ledger(orders, fleetName, q, f)
  {
  }

  /** For a fixed search, the SETTLED and UNSETTLED ledgers split the ALL ledger. */
  lemma LedgerPartition(orders: seq<Order>, fleetName: string, q: string)
    ensures multiset(Ledger(orders, fleetName, q, Settled)) + multiset(Ledger(orders, fleetName, q, Unsettled))
         == multiset(Ledger(orders, fleetName, q, All))
  {
    SelectedPartition(orders, fleetName, q);
    LedgerIsSelected(orders, fleetName, q, Settled);
    LedgerIsSelected(orders, fleetName, q, Unsettled);
    LedgerIsSelected(orders, fleetName, q, All);
  }

  lemma LedgerIsSelected(orders: seq<Order>, fleetName: string, q: string, f: LedgerFilter)
    ensures multiset(Ledger(orders, fleetName, q, f)) == multiset(Selected(orders, fleetName, q, f))
  {
  }

  lemma SelectedPartition(orders: seq<Order>, fleetName: string, q: string)
    ensures multiset(Selected(orders, fleetName, q, Settled)) + multiset(Selected(orders, fleetName, q, Unsettled))
         == multiset(Selected(orders, fleetName, q, All))
  {
    FilterPartition(OwnOrders(orders, fleetName),
                    (o: Order) => MatchesSearch(o, q) && MatchesFilter(o, All),
                    (o: Order) => o.status == Completed,
                    (o: Order) => MatchesSearch(o, q) && MatchesFilter(o, Settled),
                    (o: Order) => MatchesSearch(o, q) && MatchesFilter(o, Unsettled));
  }

  // ------------------------------------------------------------- money

  datatype Stats = Stats(total: int, completed: int, pending: int)

  predicate IsCompleted(o: Order) {
    o.status == Completed
  }

  /** `financialStats` over the ledger shown. */
  function FinancialStats(ledger: seq<Order>): (s: Stats)
    ensures s.total == Sum(ledger, PriceOrZero)
    ensures s.completed == Sum(Filter(ledger, IsCompleted), PriceOrZero)
    ensures s.pending == s.total - s.completed
    ensures (forall k :: 0 <= k < |ledger| ==> PriceOrZero(ledger[k]) >= 0) ==>
              0 <= s.completed <= s.total && s.pending >= 0
  {
    CompletedWithinTotal(ledger);
    var total := Sum(ledger, PriceOrZero);
    var completed := Sum(Filter(ledger, IsCompleted), PriceOrZero);
    Stats(total, completed, total - completed)
  }

  lemma CompletedWithinTotal(ledger: seq<Order>)
    ensures (forall k :: 0 <= k < |ledger| ==> PriceOrZero(ledger[k]) >= 0) ==>
              0 <= Sum(Filter(ledger, IsCompleted), PriceOrZero) <= Sum(ledger, PriceOrZero)
  {
    if forall k :: 0 <= k < |ledger| ==> PriceOrZero(ledger[k]) >= 0 {
      SumFilterLe(ledger, IsCompleted, PriceOrZero);
      SumFilterNonNegative(ledger, IsCompleted, PriceOrZero);
    }
  }

  // ---------------------------------------------------------- records

  datatype ProjectForm = ProjectForm(name: string, address: string, owner: string, volume: string,
                                     permit: Option<string>)

  const EmptyProjectForm: ProjectForm := ProjectForm("", "", "", "", None)

  datatype DriverForm = DriverForm(name: string, phone: string, plate: string, vehicleType: string)

  const EmptyDriverForm: DriverForm := DriverForm("", "", "", "Dump Truck")

  /** The profile `handleAddProject` hands to `onUpdateProfile`: one PENDING project appended. */
  function WithProject(profile: FleetProfile, form: ProjectForm, now: nat): (r: FleetProfile)
    ensures |r.projects| == |profile.projects| + 1 && r.projects[..|profile.projects|] == profile.projects
    ensures var p := r.projects[|profile.projects|];
            p.status == ProjectStatus.Pending && p.name == form.name && p.address == form.address
            && p.permitImageUrl == form.permit.GetOr("")
    ensures r.(projects := profile.projects) == profile
  {
    var p := FleetProject("proj-" + NatToString(now), form.name, form.address, form.permit.GetOr(""),
                          ProjectStatus.Pending, now, None);
    var ps := profile.projects + [p];
    assert ps[..|profile.projects|] == profile.projects;
    profile.(projects := ps)
  }

  /** The driver `handleAddDriver` records: VERIFIED, with the plate upper-cased. */
  function NewDriver(form: DriverForm, now: nat): (d: DriverProfile)
    ensures d.name == form.name && d.phone == form.phone && d.vehiclePlate == ToUpper(form.plate)
    ensures ToUpper(d.vehiclePlate) == d.vehiclePlate
    ensures d.status == Verified && !d.isIndependent
  {
    ToUpperIdempotent(form.plate);
    DriverProfile("d-" + NatToString(now), form.name, form.phone, "", ToUpper(form.plate), form.vehicleType,
                  Verified, now, "", None, false)
  }

  // --------------------------------------------------- component state

  datatype Tab = LedgerTab | PoolTab | DispatchTab | ProjectsTab | DriversTab

  class State {
    var activeTab: Tab
    var localDrivers: seq<DriverProfile>
    var ledgerSearch: string
    var ledgerFilter: LedgerFilter
    var dispatchTarget: Option<Order>
    var showProjectModal: bool
    var showAddDriverModal: bool
    var projectForm: ProjectForm
    var driverForm: DriverForm

    constructor (initialDrivers: seq<DriverProfile>)
      ensures activeTab == LedgerTab && localDrivers == initialDrivers && ledgerSearch == "" && ledgerFilter == All
      ensures projectForm == EmptyProjectForm && driverForm == EmptyDriverForm
    {
      activeTab := LedgerTab;
      localDrivers := initialDrivers;
      ledgerSearch := "";
      ledgerFilter := All;
      dispatchTarget := None;
      showProjectModal := false;
      showAddDriverModal := false;
      projectForm := EmptyProjectForm;
      driverForm := EmptyDriverForm;
    }

    /** The ledger the console shows for its current search and filter. */
    function Shown(orders: seq<Order>, fleetName: string): seq<Order>
      reads this
    {
      Ledger(orders, fleetName, ledgerSearch, ledgerFilter)
    }

    /** `handleGrabOrder`: the fleet claims the order and the console switches to dispatch. */
    method GrabOrder(store: App.Store, id: string)
      requires App.FleetToShow(store.fleets, store.driverProfile).Some?
      modifies store`orders, this`activeTab
      ensures store.orders == App.UpdateStatusIn(old(store.orders), id, PendingPickup,
                                                 App.FleetAcceptData(App.FleetToShow(store.fleets, store.driverProfile).value.name))
      ensures activeTab == DispatchTab
    {
      store.FleetAcceptOrder(id);
      activeTab := DispatchTab;
    }

    /** `handleInternalDispatch`: the chosen driver takes the order. */
    method InternalDispatch(store: App.Store, id: string, d: DriverProfile)
      requires App.FleetToShow(store.fleets, store.driverProfile).Some?
      modifies store`orders, this`dispatchTarget
      ensures store.orders == App.UpdateStatusIn(old(store.orders), id, InProgress,
                                                 App.FleetAssignData(d, App.FleetToShow(store.fleets, store.driverProfile).value.name))
      ensures dispatchTarget.None?
    {
      store.FleetAssignDriver(id, d);
      dispatchTarget := None;
    }

    /**
     * `handleAddProject`: nothing without a name and an address; otherwise
     * the fleet record with the new project replaces the stored one.
     */
    method AddProject(store: App.Store, profile: FleetProfile, now: nat)
      modifies store`fleets, this`projectForm, this`showProjectModal
      ensures old(projectForm).name == "" || old(projectForm).address == "" ==>
                store.fleets == old(store.fleets) && projectForm == old(projectForm)
                && showProjectModal == old(showProjectModal)
      ensures old(projectForm).name != "" && old(projectForm).address != "" ==>
                store.fleets == ReplaceByKey(old(store.fleets), (f: FleetProfile) => f.id,
                                             WithProject(profile, old(projectForm), now))
                && projectForm == EmptyProjectForm && !showProjectModal
    {
      if projectForm.name == "" || projectForm.address == "" {
        return;
      }
      store.UpdateFleet(WithProject(profile, projectForm, now));
      showProjectModal := false;
      projectForm := EmptyProjectForm;
    }

    /**
     * `handleAddDriver`: rejected when name, phone or plate is empty;
     * otherwise the new driver goes first and the form is cleared.
     */
    method AddDriver(now: nat)
      modifies this`localDrivers, this`driverForm, this`showAddDriverModal
      ensures old(driverForm).name == "" || old(driverForm).phone == "" || old(driverForm).plate == "" ==>
                localDrivers == old(localDrivers) && driverForm == old(driverForm)
                && showAddDriverModal == old(showAddDriverModal)
      ensures old(driverForm).name != "" && old(driverForm).phone != "" && old(driverForm).plate != "" ==>
                localDrivers == [NewDriver(old(driverForm), now)] + old(localDrivers)
                && |localDrivers| == |old(localDrivers)| + 1
                && driverForm == EmptyDriverForm && !showAddDriverModal
    {
      if driverForm.name == "" || driverForm.phone == "" || driverForm.plate == "" {
        return;
      }
      localDrivers := [NewDriver(driverForm, now)] + localDrivers;
      showAddDriverModal := false;
      driverForm := EmptyDriverForm;
    }

    /** The approval button of a PENDING fleet: only the status changes, to VERIFIED. */
    method SimulateApproval(store: App.Store, profile: FleetProfile)
      modifies store`fleets
      ensures store.fleets == ReplaceByKey(old(store.fleets), (f: FleetProfile) => f.id,
                                           profile.(status := Verified))
    {
      store.UpdateFleet(profile.(status := Verified));
    }
  }
}
