/**
 * components/DriverView.tsx: a verified driver's workbench.  The active,
 * available and completed orders and the tab list are pure selections;
 * accepting an order, the trip-stage buttons, a self-run order and a
 * reported project go through the store.  The AI analysis of a self-run
 * order is a parameter: what `analyzeWasteMedia` resolved to, which is its
 * fallback record when the call fails and `None` when it resolved to `null`.
 */
module DriverView {
  import opened Wrappers
  import opened Strings
  import opened Seqs
  import opened Types
  import App

  // -------------------------------------------------------- selections

  /** Carries this driver's plate and is neither COMPLETED nor REVIEW_REQUIRED. */
  predicate IsActiveFor(o: Order, driver: DriverProfile) {
    App.PlateOf(o) == Some(driver.vehiclePlate) && o.status != Completed && o.status != ReviewRequired
  }

  /** `activeOrder`: the first order that is active for this driver. */
  function ActiveOrder(orders: seq<Order>, driver: DriverProfile): (r: Option<Order>)
    ensures r.Some? <==> exists k :: 0 <= k < |orders| && IsActiveFor(orders[k], driver)
    ensures r.Some? ==> exists k :: 0 <= k < |orders| && orders[k] == r.value && IsActiveFor(orders[k], driver)
                                    && forall j :: 0 <= j < k ==> !IsActiveFor(orders[j], driver)
  {
    Find(orders, (o: Order) => IsActiveFor(o, driver))
  }

  /** `availableOrders`: PENDING_PICKUP orders nobody has taken. */
  function Available(orders: seq<Order>): (r: seq<Order>)
    ensures forall k :: 0 <= k < |orders| ==>
              (orders[k] in r <==> orders[k].status == PendingPickup && orders[k].assignedDriver.None?)
    ensures forall k :: 0 <= k < |r| ==> r[k] in orders && r[k].assignedDriver.None?
  {
    Filter(orders, (o: Order) => o.status == PendingPickup && o.assignedDriver.None?)
  }

  /** `myCompletedOrders`: COMPLETED orders with this driver's plate. */
  function MyCompleted(orders: seq<Order>, driver: DriverProfile): (r: seq<Order>)
    ensures forall k :: 0 <= k < |orders| ==>
              (orders[k] in r <==> App.PlateOf(orders[k]) == Some(driver.vehiclePlate) && orders[k].status == Completed)
    ensures forall k :: 0 <= k < |r| ==> r[k] in orders && r[k].status == Completed
  {
    Filter(orders, (o: Order) => App.PlateOf(o) == Some(driver.vehiclePlate) && o.status == Completed)
  }

  datatype Tab = Workbench | PoolTab | Projects | Stats

  /** `availableTabs`: independent drivers have no grab pool. */
  function AvailableTabs(isIndependent: bool): (r: seq<Tab>)
    ensures PoolTab in r <==> !isIndependent
    ensures |r| >= 3 && r[0] == Workbench && Projects in r && Stats in r
  {
    if isIndependent then [Workbench, Projects, Stats] else [Workbench, PoolTab, Projects, Stats]
  }

  /** The pool renders only on the POOL tab and only for fleet drivers. */
  predicate PoolShown(tab: Tab, isIndependent: bool) {
    tab == PoolTab && !isIndependent
  }

  // ------------------------------------------------------------ stages

  /**
   * The status the stage button of the active order moves to: one step
   * forward from IN_PROGRESS, ARRIVED_PICKUP and LOADING_COMPLETE; there is
   * no button in any other status (ARRIVED_DISPOSAL waits for the gate).
   */
  function NextStage(s: OrderStatus): (r: Option<OrderStatus>)
    ensures r.Some? <==> s == InProgress || s == ArrivedPickup || s == LoadingComplete
    ensures r.Some? ==> r.value.Ordinal() == s.Ordinal() + 1
    ensures s == ArrivedDisposal ==> r.None?
  {
    match s
    case InProgress => Some(ArrivedPickup)
    case ArrivedPickup => Some(LoadingComplete)
    case LoadingComplete => Some(ArrivedDisposal)
    case _ => None
  }

  /** Three button presses take an accepted order to ARRIVED_DISPOSAL, and no further. */
  lemma StagesFromAccept()
    ensures NextStage(InProgress) == Some(ArrivedPickup)
    ensures NextStage(ArrivedPickup) == Some(LoadingComplete)
    ensures NextStage(LoadingComplete) == Some(ArrivedDisposal)
    ensures NextStage(ArrivedDisposal).None? && NextStage(Completed).None?
  {
  }

  /** The `data` the stage button passes: the loading photo on the ARRIVED_PICKUP step only. */
  function StageData(s: OrderStatus, loadingMedia: Option<string>): (d: App.OrderPatch)
    ensures s == ArrivedPickup ==> d == App.NoData.(loadingPhoto := Put(loadingMedia))
    ensures s != ArrivedPickup ==> d == App.NoData
  {
    if s == ArrivedPickup then App.NoData.(loadingPhoto := Put(loadingMedia)) else App.NoData
  }

  /** `{ assignedDriver: { name, phone, plate, fleetName } }` of `handleAccept`. */
  function AcceptData(driver: DriverProfile): App.OrderPatch {
    App.NoData.(assignedDriver := Some(App.AssignmentPatch(
      Put(Some(driver.name)), Put(Some(driver.phone)), Put(Some(driver.vehiclePlate)), Put(driver.fleetName), Keep)))
  }

  /**
   * An accepted order is IN_PROGRESS with the driver's name, phone and
   * plate; it leaves the available list and becomes active for the driver.
   */
  lemma AcceptedOrder(o: Order, driver: DriverProfile)
    ensures var a := App.MergeOrder(o, InProgress, AcceptData(driver));
            && a.status == InProgress && a.id == o.id
            && a.assignedDriver.Some? && a.assignedDriver.value.DeclaredShape()
            && a.assignedDriver.value.name == Some(driver.name)
            && a.assignedDriver.value.phone == Some(driver.phone)
            && a.assignedDriver.value.plate == Some(driver.vehiclePlate)
            && a.assignedDriver.value.fleetName == driver.fleetName
            && IsActiveFor(a, driver)
  {
    var a := App.MergeOrder(o, InProgress, AcceptData(driver));
    assert App.PlateOf(a) == Some(driver.vehiclePlate);
  }

  // ---------------------------------------------------------- records

  /** The self-run order of `handleCreateSelfOrder`. */
  function SelfOrder(driver: DriverProfile, project: FleetProject, media: string, analysis: Option<WasteAnalysis>,
                     now: nat): (o: Order)
    ensures o.status == ArrivedPickup && o.orderType == WasteRemoval && o.userId == driver.id
    ensures o.paymentStatus == Some(Unpaid) && o.analysis == analysis
    ensures o.assignedDriver.Some? && o.assignedDriver.value.plate == Some(driver.vehiclePlate)
    ensures IsActiveFor(o, driver)
  {
    var o := NewOrder("self-" + NatToString(now), driver.id, now, ArrivedPickup, WasteRemoval,
                      GeoLocation(31.22, 121.48, Some(project.address)), Image, media)
      .(pickupDetails := Some(PickupDetails("上海市", "浦东新区", project.address, project.name, true,
                                            "CONSTRUCTION_SITE", None, None, None, None, None)),
        assignedDriver := Some(Assignment(Some(driver.name), Some(driver.phone), Some(driver.vehiclePlate),
                                          driver.fleetName, None)),
        analysis := analysis,
        paymentStatus := Some(Unpaid));
    assert App.PlateOf(o) == Some(driver.vehiclePlate);
    o
  }

  datatype ProjectForm = ProjectForm(name: string, address: string, doc: string)

  const EmptyProjectForm: ProjectForm := ProjectForm("", "", "")

  /** A project a driver reports: APPROVED at once and owned by the driver. */
  function ReportedProject(form: ProjectForm, driver: DriverProfile, now: nat): (p: FleetProject)
    ensures p.status == ProjectStatus.Approved && p.ownerId == Some(driver.id)
    ensures p.name == form.name && p.address == form.address && p.permitImageUrl == form.doc
  {
    FleetProject("p-" + NatToString(now), form.name, form.address, form.doc, ProjectStatus.Approved, now,
                 Some(driver.id))
  }

  // --------------------------------------------------- component state

  class State {
    var activeTab: Tab
    var showProjectModal: bool
    var showSelfOrderModal: bool
    var isAnalyzing: bool
    var selfOrderMedia: Option<string>
    var selectedProjectId: string
    var loadingMedia: Option<string>
    var projectForm: ProjectForm

    constructor ()
      ensures activeTab == Workbench && selfOrderMedia.None? && selectedProjectId == "" && loadingMedia.None?
      ensures projectForm == EmptyProjectForm && !showProjectModal && !showSelfOrderModal
    {
      activeTab := Workbench;
      showProjectModal := false;
      showSelfOrderModal := false;
      isAnalyzing := false;
      selfOrderMedia := None;
      selectedProjectId := "";
      loadingMedia := None;
      projectForm := EmptyProjectForm;
    }

    /** `handleAccept`: the driver takes the order and returns to the workbench. */
    method Accept(store: App.Store, order: Order, driver: DriverProfile)
      modifies store`orders, this`activeTab
      ensures store.orders == App.UpdateStatusIn(old(store.orders), order.id, InProgress, AcceptData(driver))
      ensures activeTab == Workbench
    {
      store.UpdateStatus(order.id, InProgress, AcceptData(driver));
      activeTab := Workbench;
    }

    /**
     * The stage button of the active order: one step forward, storing the
     * loading photo when leaving ARRIVED_PICKUP; without an active order or
     * a button for its status, nothing changes.
     */
    method AdvanceStage(store: App.Store, driver: DriverProfile)
      modifies store`orders, this`loadingMedia
      ensures var a := ActiveOrder(old(store.orders), driver);
              if a.Some? && NextStage(a.value.status).Some? then
                && store.orders == App.UpdateStatusIn(old(store.orders), a.value.id, NextStage(a.value.status).value,
                                                      StageData(a.value.status, old(loadingMedia)))
                && loadingMedia == (if a.value.status == ArrivedPickup then None else old(loadingMedia))
              else store.orders == old(store.orders) && loadingMedia == old(loadingMedia)
    {
      var a := ActiveOrder(store.orders, driver);
      if a.None? {
        return;
      }
      var next := NextStage(a.value.status);
      if next.None? {
        return;
      }
      store.UpdateStatus(a.value.id, next.value, StageData(a.value.status, loadingMedia));
      if a.value.status == ArrivedPickup {
        loadingMedia := None;
      }
    }

    /**
     * `handleCreateSelfOrder`: needs a photo and a selected project that
     * exists; then the self-run order, carrying whatever the analysis
     * resolved to, goes to the front of the store and the modal closes.
     * Storing `null` as the analysis does not throw, so the catch branch is
     * never taken.
     */
    method CreateSelfOrder(store: App.Store, driver: DriverProfile, now: nat, analysis: Option<WasteAnalysis>)
      modifies store`orders, this`showSelfOrderModal, this`selfOrderMedia, this`activeTab, this`isAnalyzing
      ensures var p := Find(store.fleetProjects, (x: FleetProject) => x.id == old(selectedProjectId));
              if Truthy(old(selfOrderMedia)) && old(selectedProjectId) != "" && p.Some? then
                && store.orders == [SelfOrder(driver, p.value, old(selfOrderMedia).value, analysis, now)]
                                   + old(store.orders)
                && selfOrderMedia.None? && !showSelfOrderModal && activeTab == Workbench && !isAnalyzing
              else store.orders == old(store.orders) && selfOrderMedia == old(selfOrderMedia)
                   && showSelfOrderModal == old(showSelfOrderModal) && activeTab == old(activeTab)
                   && isAnalyzing == old(isAnalyzing)
    {
      if !Truthy(selfOrderMedia) || selectedProjectId == "" {
        return;
      }
      var sid := selectedProjectId;
      var p := Find(store.fleetProjects, (x: FleetProject) => x.id == sid);
      if p.None? {
        return;
      }
      isAnalyzing := true;
      store.AddOrder(SelfOrder(driver, p.value, selfOrderMedia.value, analysis, now));
      showSelfOrderModal := false;
      selfOrderMedia := None;
      activeTab := Workbench;
      isAnalyzing := false;
    }

    /** `handleAddProject`: needs a name and an address; the APPROVED project goes last. */
    method AddProject(store: App.Store, driver: DriverProfile, now: nat)
      modifies store`fleetProjects, this`projectForm, this`showProjectModal
      ensures old(projectForm).name == "" || old(projectForm).address == "" ==>
                store.fleetProjects == old(store.fleetProjects) && projectForm == old(projectForm)
                && showProjectModal == old(showProjectModal)
      ensures old(projectForm).name != "" && old(projectForm).address != "" ==>
                store.fleetProjects == old(store.fleetProjects) + [ReportedProject(old(projectForm), driver, now)]
                && projectForm == EmptyProjectForm && !showProjectModal
    {
      if projectForm.name == "" || projectForm.address == "" {
        return;
      }
      store.AddFleetProject(ReportedProject(projectForm, driver, now));
      showProjectModal := false;
      projectForm := EmptyProjectForm;
    }
  }
}
