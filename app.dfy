/**
 * The shared in-memory store of App.tsx: the order list, the disposal
 * facilities, the government notices, the fleets and the few other lists
 * the views update through callbacks.  Every handler replaces one or two of
 * these lists with a new one (a prepend, an append or a replace-by-id); the
 * per-order merge of `updateStatus` is the pure `MergeOrder`.
 *
 * `Date.now()` is the parameter `now`.
 */
module App {
  import opened Wrappers
  import opened Strings
  import opened Seqs
  import opened Types

  // ------------------------------------------------ the updateStatus merge

  /** An `assignedDriver` literal inside `data`: each key absent (`Keep`) or present. */
  datatype AssignmentPatch = AssignmentPatch(
    name: Update<Option<string>>,
    phone: Update<Option<string>>,
    plate: Update<Option<string>>,
    fleetName: Update<Option<string>>,
    fleetId: Update<Option<string>>)

  /**
   * The `data` argument of `updateStatus`, restricted to the keys its callers
   * pass.  `status` is listed because a spread of `data` would copy it; the
   * merge then overwrites it.  `assignedDriver` is `None` when the key is
   * absent or holds `undefined`.
   */
  datatype OrderPatch = OrderPatch(
    status: Update<OrderStatus>,
    assignedDriver: Option<AssignmentPatch>,
    loadingPhoto: Update<Option<string>>,
    disposalEntryPhoto: Update<Option<string>>,
    disposalFacilityName: Update<Option<string>>,
    disposalFacilityId: Update<Option<string>>,
    disposalFee: Update<Option<int>>,
    disposalSettlementMethod: Update<Option<SettlementMethod>>,
    disposalSettlementStatus: Update<Option<SettlementStatus>>,
    manifestSerialNo: Update<Option<string>>,
    assignedWorker: Update<Option<WorkerAssignment>>)

  /** `updateStatus(id, status)` with no `data`. */
  const NoData: OrderPatch :=
    OrderPatch(Keep, None, Keep, Keep, Keep, Keep, Keep, Keep, Keep, Keep, Keep)

  function FieldOf(a: Option<Assignment>, f: Assignment -> Option<string>): Option<string> {
    if a.Some? then f(a.value) else None
  }

  /** `o.assignedDriver?.fleetName`. */
  function FleetOf(o: Order): Option<string> {
    FieldOf(o.assignedDriver, (a: Assignment) => a.fleetName)
  }

  /** `o.assignedDriver?.plate`. */
  function PlateOf(o: Order): Option<string> {
    FieldOf(o.assignedDriver, (a: Assignment) => a.plate)
  }

  /** `o.assignedDriver?.name`. */
  function DriverNameOf(o: Order): Option<string> {
    FieldOf(o.assignedDriver, (a: Assignment) => a.name)
  }

  /**
   * `{...(old || {}), ...patch}`: a key present in the patch wins, even with
   * an `undefined` value; every other key keeps the old value, and a key the
   * old object lacked stays missing.
   */
  function MergeAssignment(prev: Option<Assignment>, patch: AssignmentPatch): (r: Assignment)
    ensures r.name == patch.name.Over(FieldOf(prev, (a: Assignment) => a.name))
    ensures r.phone == patch.phone.Over(FieldOf(prev, (a: Assignment) => a.phone))
    ensures r.plate == patch.plate.Over(FieldOf(prev, (a: Assignment) => a.plate))
    ensures r.fleetName == patch.fleetName.Over(FieldOf(prev, (a: Assignment) => a.fleetName))
    ensures r.fleetId == patch.fleetId.Over(FieldOf(prev, (a: Assignment) => a.fleetId))
  {
    var base := prev.GetOr(Assignment(None, None, None, None, None));
    Assignment(patch.name.Over(base.name), patch.phone.Over(base.phone), patch.plate.Over(base.plate),
               patch.fleetName.Over(base.fleetName), patch.fleetId.Over(base.fleetId))
  }

  /**
   * The object `updateStatus` builds for the matching order:
   * `{...o, ...data, status, assignedDriver}`.
   */
  function MergeOrder(o: Order, status: OrderStatus, data: OrderPatch): (r: Order)
    // `status` is assigned after the spread, so it wins over `data.status`
    ensures r.status == status
    ensures data.assignedDriver.None? ==> r.assignedDriver == o.assignedDriver
    ensures data.assignedDriver.Some? ==>
              r.assignedDriver == Some(MergeAssignment(o.assignedDriver, data.assignedDriver.value))
    ensures r.loadingPhoto == data.loadingPhoto.Over(o.loadingPhoto)
    ensures r.disposalEntryPhoto == data.disposalEntryPhoto.Over(o.disposalEntryPhoto)
    ensures r.disposalFacilityName == data.disposalFacilityName.Over(o.disposalFacilityName)
    ensures r.disposalFacilityId == data.disposalFacilityId.Over(o.disposalFacilityId)
    ensures r.disposalFee == data.disposalFee.Over(o.disposalFee)
    ensures r.disposalSettlementMethod == data.disposalSettlementMethod.Over(o.disposalSettlementMethod)
    ensures r.disposalSettlementStatus == data.disposalSettlementStatus.Over(o.disposalSettlementStatus)
    ensures r.manifestSerialNo == data.manifestSerialNo.Over(o.manifestSerialNo)
    ensures r.assignedWorker == data.assignedWorker.Over(o.assignedWorker)
    // every key that is not in `data` is the old value
    ensures r.id == o.id && r.userId == o.userId && r.createdAt == o.createdAt
    ensures r.orderType == o.orderType && r.location == o.location
    ensures r.mediaType == o.mediaType && r.mediaData == o.mediaData
    ensures r.analysis == o.analysis && r.pickupDetails == o.pickupDetails
    ensures r.paymentStatus == o.paymentStatus && r.tradeDirection == o.tradeDirection
    ensures r.buyRequirements == o.buyRequirements
  {
    var driver :=
      if data.assignedDriver.Some? then Some(MergeAssignment(o.assignedDriver, data.assignedDriver.value))
      else o.assignedDriver;
    o.(status := status,
       assignedDriver := driver,
       loadingPhoto := data.loadingPhoto.Over(o.loadingPhoto),
       disposalEntryPhoto := data.disposalEntryPhoto.Over(o.disposalEntryPhoto),
       disposalFacilityName := data.disposalFacilityName.Over(o.disposalFacilityName),
       disposalFacilityId := data.disposalFacilityId.Over(o.disposalFacilityId),
       disposalFee := data.disposalFee.Over(o.disposalFee),
       disposalSettlementMethod := data.disposalSettlementMethod.Over(o.disposalSettlementMethod),
       disposalSettlementStatus := data.disposalSettlementStatus.Over(o.disposalSettlementStatus),
       manifestSerialNo := data.manifestSerialNo.Over(o.manifestSerialNo),
       assignedWorker := data.assignedWorker.Over(o.assignedWorker))
  }

  /** A merge with no data changes the status and nothing else. */
  lemma MergeNoData(o: Order, status: OrderStatus)
    ensures MergeOrder(o, status, NoData) == o.(status := status)
  {
  }

  /** The new order list of `updateStatus(id, status, data)`. */
  function UpdateStatusIn(orders: seq<Order>, id: string, status: OrderStatus, data: OrderPatch): (r: seq<Order>)
    ensures |r| == |orders|
    ensures forall k :: 0 <= k < |orders| && orders[k].id != id ==> r[k] == orders[k]
    ensures forall k :: 0 <= k < |orders| && orders[k].id == id ==> r[k] == MergeOrder(orders[k], status, data)
    ensures forall k :: 0 <= k < |orders| ==> r[k].id == orders[k].id
  {
    MapWhere(orders, (o: Order) => o.id == id, (o: Order) => MergeOrder(o, status, data))
  }

  /** An id that no order carries leaves the list exactly as it was. */
  lemma UpdateStatusUnknownId(orders: seq<Order>, id: string, status: OrderStatus, data: OrderPatch)
    requires forall k :: 0 <= k < |orders| ==> orders[k].id != id
    ensures UpdateStatusIn(orders, id, status, data) == orders
  {
    var r := UpdateStatusIn(orders, id, status, data);
    assert forall k :: 0 <= k < |orders| ==> r[k] == orders[k];
  }

  // ------------------------------------------- the fleet callbacks of App

  /** `{ assignedDriver: { fleetName, plate: '待指派' } }` of `onAcceptOrder`. */
  function FleetAcceptData(fleetName: string): OrderPatch {
    NoData.(assignedDriver := Some(AssignmentPatch(Keep, Keep, Put(Some("待指派")), Put(Some(fleetName)), Keep)))
  }

  /** `{ assignedDriver: { name, plate, phone, fleetName } }` of `onAssignDriver`. */
  function FleetAssignData(d: DriverProfile, fleetName: string): OrderPatch {
    NoData.(assignedDriver := Some(AssignmentPatch(Put(Some(d.name)), Put(Some(d.phone)), Put(Some(d.vehiclePlate)),
                                                    Put(Some(fleetName)), Keep)))
  }

  /**
   * A fleet accepting an order: PENDING_PICKUP, the fleet's name and the
   * placeholder plate; the driver's name and phone are whatever the order held
   * before, so a pool order (no driver yet) gets an assignment without them.
   */
  lemma FleetAccept(o: Order, fleetName: string)
    ensures var r := MergeOrder(o, PendingPickup, FleetAcceptData(fleetName));
      && r.status == PendingPickup
      && r.assignedDriver.Some?
      && r.assignedDriver.value.fleetName == Some(fleetName)
      && r.assignedDriver.value.plate == Some("待指派")
      && r.assignedDriver.value.name == FieldOf(o.assignedDriver, (a: Assignment) => a.name)
      && r.assignedDriver.value.fleetId == FieldOf(o.assignedDriver, (a: Assignment) => a.fleetId)
      && (o.assignedDriver.None? ==> !r.assignedDriver.value.DeclaredShape())
  {
  }

  /** A fleet assigning a driver: IN_PROGRESS with the driver's name, plate and phone. */
  lemma FleetAssign(o: Order, d: DriverProfile, fleetName: string)
    ensures var r := MergeOrder(o, InProgress, FleetAssignData(d, fleetName));
      && r.status == InProgress
      && r.assignedDriver.Some?
      && r.assignedDriver.value.name == Some(d.name)
      && r.assignedDriver.value.phone == Some(d.phone)
      && r.assignedDriver.value.plate == Some(d.vehiclePlate)
      && r.assignedDriver.value.fleetName == Some(fleetName)
      && r.assignedDriver.value.DeclaredShape()
  {
  }

  /** Accept followed by assign leaves the order as a single assign would, fleet id aside. */
  lemma AcceptThenAssign(o: Order, d: DriverProfile, fleetName: string)
    ensures var a := MergeOrder(MergeOrder(o, PendingPickup, FleetAcceptData(fleetName)), InProgress,
                                FleetAssignData(d, fleetName));
            a == MergeOrder(o, InProgress, FleetAssignData(d, fleetName))
  {
  }

  // ---------------------------------------------------- notices and views

  const FleetDefaultName: string := "城投环境物流车队"

  /** The alert `handleUpdateFacility` raises for a full facility. */
  function FullAlert(fac: DisposalProfile, now: nat): (n: GovernmentNotice)
    ensures n.noticeType == Alert && n.targetRoles == Some([Driver, Fleet])
    ensures n.title == Some("🚨 消纳场爆仓告警：" + fac.name) && n.time == now
  {
    GovernmentNotice("alert-" + NatToString(now), Some("🚨 消纳场爆仓告警：" + fac.name),
                     "【紧急】该消纳场库容已达极限，已停止接纳新运单。", now, Alert, Some([Driver, Fleet]))
  }

  /** The notice list after a facility update: one alert more exactly when the facility is FULL. */
  function NoticesAfterFacilityUpdate(notices: seq<GovernmentNotice>, fac: DisposalProfile, now: nat)
    : (r: seq<GovernmentNotice>)
    ensures |r| == |notices| + 1 <==> fac.operationalStatus == Full
    ensures fac.operationalStatus == Full ==>
              r[0] == FullAlert(fac, now) && r[0].noticeType == Alert && r[0].targetRoles == Some([Driver, Fleet])
              && r[1..] == notices
    ensures fac.operationalStatus != Full ==> r == notices
  {
    if fac.operationalStatus == Full then [FullAlert(fac, now)] + notices else notices
  }

  /** The fleet the fleet view shows: the one named after the driver's fleet, else the first. */
  function FleetToShow(fleets: seq<FleetProfile>, driver: Option<DriverProfile>): (r: Option<FleetProfile>)
    ensures var wanted := OrElse(if driver.Some? then driver.value.fleetName else None, FleetDefaultName);
      && (r.None? <==> fleets == [])
      && (r.Some? ==> r.value in fleets)
      && ((exists k :: 0 <= k < |fleets| && fleets[k].name == wanted) ==> r.Some? && r.value.name == wanted)
      && ((exists k :: 0 <= k < |fleets| && fleets[k].name == wanted) ==>
            exists k :: 0 <= k < |fleets| && fleets[k] == r.value && forall j :: 0 <= j < k ==> fleets[j].name != wanted)
      && ((forall k :: 0 <= k < |fleets| ==> fleets[k].name != wanted) && fleets != [] ==> r == Some(fleets[0]))
  {
    var wanted := OrElse(if driver.Some? then driver.value.fleetName else None, FleetDefaultName);
    match Find(fleets, (f: FleetProfile) => f.name == wanted)
    case Some(f) => Some(f)
    case None => if fleets == [] then None else Some(fleets[0])
  }

  /** The facility the disposal view shows: `fac-1`, else the first. */
  function MyFacility(facilities: seq<DisposalProfile>): (r: Option<DisposalProfile>)
    ensures r.None? <==> facilities == []
    ensures r.Some? ==> r.value in facilities
    ensures (exists k :: 0 <= k < |facilities| && facilities[k].id == "fac-1") ==> r.Some? && r.value.id == "fac-1"
    ensures (forall k :: 0 <= k < |facilities| ==> facilities[k].id != "fac-1") && facilities != [] ==>
              r == Some(facilities[0])
  {
    match Find(facilities, (f: DisposalProfile) => f.id == "fac-1")
    case Some(f) => Some(f)
    case None => if facilities == [] then None else Some(facilities[0])
  }

  // ------------------------------------------------------------ the store

  class Store {
    var orders: seq<Order>
    var facilities: seq<DisposalProfile>
    var notices: seq<GovernmentNotice>
    var fleets: seq<FleetProfile>
    var driverProfile: Option<DriverProfile>
    var renovationApps: seq<RenovationApplication>
    var fleetProjects: seq<FleetProject>

    constructor (orders0: seq<Order>, facilities0: seq<DisposalProfile>, notices0: seq<GovernmentNotice>,
                 fleets0: seq<FleetProfile>, driver0: Option<DriverProfile>,
                 apps0: seq<RenovationApplication>, projects0: seq<FleetProject>)
      ensures orders == orders0 && facilities == facilities0 && notices == notices0 && fleets == fleets0
      ensures driverProfile == driver0 && renovationApps == apps0 && fleetProjects == projects0
    {
      orders, facilities, notices, fleets := orders0, facilities0, notices0, fleets0;
      driverProfile, renovationApps, fleetProjects := driver0, apps0, projects0;
    }

    /** `handleAddOrder`: the new order goes first, the others keep their order. */
    method AddOrder(o: Order)
      modifies this`orders
      ensures orders == [o] + old(orders)
    {
      orders := [o] + orders;
    }

    /** `updateStatus`: merges `data` into every order with this id, nothing else changes. */
    method UpdateStatus(id: string, status: OrderStatus, data: OrderPatch)
      modifies this`orders
      ensures orders == UpdateStatusIn(old(orders), id, status, data)
    {
      orders := UpdateStatusIn(orders, id, status, data);
    }

    /** The client view's `updateOrder`: replaces the order with the same id. */
    method ReplaceOrder(o: Order)
      modifies this`orders
      ensures orders == ReplaceByKey(old(orders), (x: Order) => x.id, o)
    {
      orders := ReplaceByKey(orders, (x: Order) => x.id, o);
    }

    /** `handleUpdateFacility`: replace by id, and prepend an alert when the facility is FULL. */
    method UpdateFacility(fac: DisposalProfile, now: nat)
      modifies this`facilities, this`notices
      ensures facilities == ReplaceByKey(old(facilities), (f: DisposalProfile) => f.id, fac)
      ensures notices == NoticesAfterFacilityUpdate(old(notices), fac, now)
    {
      facilities := ReplaceByKey(facilities, (f: DisposalProfile) => f.id, fac);
      notices := NoticesAfterFacilityUpdate(notices, fac, now);
    }

    /** `handlePublishNotice`: the notice goes first. */
    method PublishNotice(n: GovernmentNotice)
      modifies this`notices
      ensures notices == [n] + old(notices)
    {
      notices := [n] + notices;
    }

    /** `handleDriverOnboarding`: store the profile; append the new fleet only when there is one. */
    method DriverOnboarding(profile: DriverProfile, newFleet: Option<FleetProfile>)
      modifies this`driverProfile, this`fleets
      ensures driverProfile == Some(profile)
      ensures fleets == if newFleet.Some? then old(fleets) + [newFleet.value] else old(fleets)
    {
      driverProfile := Some(profile);
      if newFleet.Some? {
        fleets := fleets + [newFleet.value];
      }
    }

    /** `handleUpdateFleet`: replace by id. */
    method UpdateFleet(fleet: FleetProfile)
      modifies this`fleets
      ensures fleets == ReplaceByKey(old(fleets), (f: FleetProfile) => f.id, fleet)
    {
      fleets := ReplaceByKey(fleets, (f: FleetProfile) => f.id, fleet);
    }

    /** `onAcceptOrder` of the fleet view (the view is only shown with some fleet). */
    method FleetAcceptOrder(id: string)
      requires FleetToShow(fleets, driverProfile).Some?
      modifies this`orders
      ensures orders == UpdateStatusIn(old(orders), id, PendingPickup,
                                       FleetAcceptData(FleetToShow(fleets, driverProfile).value.name))
    {
      UpdateStatus(id, PendingPickup, FleetAcceptData(FleetToShow(fleets, driverProfile).value.name));
    }

    /** `onAssignDriver` of the fleet view. */
    method FleetAssignDriver(id: string, d: DriverProfile)
      requires FleetToShow(fleets, driverProfile).Some?
      modifies this`orders
      ensures orders == UpdateStatusIn(old(orders), id, InProgress,
                                       FleetAssignData(d, FleetToShow(fleets, driverProfile).value.name))
    {
      UpdateStatus(id, InProgress, FleetAssignData(d, FleetToShow(fleets, driverProfile).value.name));
    }

    /** `onApplyRenovation`: the application goes first. */
    method ApplyRenovation(a: RenovationApplication)
      modifies this`renovationApps
      ensures renovationApps == [a] + old(renovationApps)
    {
      renovationApps := [a] + renovationApps;
    }

    /** `onUpdateRenovation`: replace by id. */
    method UpdateRenovation(a: RenovationApplication)
      modifies this`renovationApps
      ensures renovationApps == ReplaceByKey(old(renovationApps), (x: RenovationApplication) => x.id, a)
    {
      renovationApps := ReplaceByKey(renovationApps, (x: RenovationApplication) => x.id, a);
    }

    /** The driver view's `onAddProject`: the project goes last. */
    method AddFleetProject(p: FleetProject)
      modifies this`fleetProjects
      ensures fleetProjects == old(fleetProjects) + [p]
    {
      fleetProjects := fleetProjects + [p];
    }
  }
}
