/**
 * components/EnterpriseView.tsx: the enterprise client's per-truck price,
 * credit and project figures (pure), and its component state with the
 * service toggles, the truck counter, project registration and order
 * submission (which calls the store's `addOrder` once per truck).
 *
 * `Date.now()` is `now` (read once per submission), `Math.random()` the
 * `externalSerial` of a new project, `parseFloat` the parameter `parseFloat`,
 * and the component's hard-coded contracted fleets the parameter `contracted`.
 */
module EnterpriseView {
  import opened Wrappers
  import opened Strings
  import opened Seqs
  import opened Types
  import Counters
  import App

  // ---------------------------------------------------------- pricing

  datatype Services = Services(tax: bool, labor: bool, loading: bool)

  datatype ServiceKey = TaxKey | LaborKey | LoadingKey

  const DefaultServices: Services := Services(true, false, true)

  /** `profile.contractPricePerTruck || 500`. */
  function BasePrice(profile: EnterpriseProfile): (r: int)
    ensures profile.contractPricePerTruck.Some? && profile.contractPricePerTruck.value != 0 ==>
              r == profile.contractPricePerTruck.value
    ensures profile.contractPricePerTruck.None? || profile.contractPricePerTruck.value == 0 ==> r == 500
  {
    match profile.contractPricePerTruck
    case Some(p) => if p != 0 then p else 500
    case None => 500
  }

  function Subtotal(base: int, collection: CollectionMethod, services: Services): int {
    base + (if collection == Container then 300 else 0) + (if services.labor then 150 else 0)
         + (if services.loading then 100 else 0)
  }

  /**
   * `Math.round(subtotal * (tax ? 1.06 : 1.0))` in exact arithmetic: with tax,
   * the nearest integer to 1.06 × subtotal, halves rounded up.
   */
  function FinalPerTruck(subtotal: int, tax: bool): (r: int)
    ensures tax ==> 100 * r - 50 <= 106 * subtotal < 100 * r + 50
    ensures !tax ==> r == subtotal
  {
    if tax then (106 * subtotal + 50) / 100 else subtotal
  }

  /** The per-truck price the form shows and every bulk order carries. */
  function PerTruckPrice(profile: EnterpriseProfile, collection: CollectionMethod, services: Services): int {
    FinalPerTruck(Subtotal(BasePrice(profile), collection, services), services.tax)
  }

  /** The price rules stated in one place. */
  lemma PerTruckPriceRules(profile: EnterpriseProfile, collection: CollectionMethod, services: Services)
    ensures var base := BasePrice(profile);
            var sub := base + (if collection == Container then 300 else 0) + (if services.labor then 150 else 0)
                            + (if services.loading then 100 else 0);
            var r := PerTruckPrice(profile, collection, services);
            && (services.tax ==> 100 * r - 50 <= 106 * sub < 100 * r + 50)
            && (!services.tax ==> r == sub)
  {
  }

  /** With the default services and no contract price, a truck costs round(600 × 1.06) = 636. */
  lemma DefaultPrice(profile: EnterpriseProfile)
    requires profile.contractPricePerTruck.None?
    ensures PerTruckPrice(profile, Immediate, DefaultServices) == 636
  {
  }

  /** Tax never lowers a non-negative price. */
  lemma TaxNotLower(subtotal: int)
    requires subtotal >= 0
    ensures FinalPerTruck(subtotal, true) >= subtotal
  {
  }

  /** `finalPricePerTruck * truckCount`, the total the form shows; `BatchTotal` ties it to the orders submitted. */
  function TotalEstimate(perTruck: int, truckCount: int): (r: int)
    ensures truckCount == 1 ==> r == perTruck
    ensures truckCount >= 0 && perTruck >= 0 ==> r >= 0
  {
    perTruck * truckCount
  }

  /** `creditLimit - usedCredit`. */
  function AvailableCredit(profile: EnterpriseProfile): (r: int)
    ensures r + profile.usedCredit == profile.creditLimit
    ensures r >= 0 <==> profile.usedCredit <= profile.creditLimit
  {
    profile.creditLimit - profile.usedCredit
  }

  // ---------------------------------------------------------- selectors

  function EnterpriseUserId(profile: EnterpriseProfile): string {
    "ent-" + profile.id
  }

  /** `myOrders`: the orders this enterprise placed. */
  function MyOrders(orders: seq<Order>, profile: EnterpriseProfile): (r: seq<Order>)
    ensures forall k :: 0 <= k < |orders| ==> (orders[k] in r <==> orders[k].userId == "ent-" + profile.id)
    ensures forall k :: 0 <= k < |r| ==> r[k] in orders && r[k].userId == "ent-" + profile.id
  {
    Filter(orders, (o: Order) => o.userId == EnterpriseUserId(profile))
  }

  /** `pendingOrders`: the enterprise's orders that are not COMPLETED. */
  function PendingOrders(myOrders: seq<Order>): (r: seq<Order>)
    ensures forall k :: 0 <= k < |myOrders| ==> (myOrders[k] in r <==> myOrders[k].status != Completed)
    ensures forall k :: 0 <= k < |r| ==> r[k] in myOrders && r[k].status != Completed
  {
    Filter(myOrders, (o: Order) => o.status != Completed)
  }

  predicate OfProject(o: Order, name: string) {
    o.pickupDetails.Some? && o.pickupDetails.value.projectName == Some(name)
  }

  /** `projectCost`: the estimated prices of the orders booked on this project. */
  function ProjectCost(myOrders: seq<Order>, projectName: string): (r: int)
    ensures (forall k :: 0 <= k < |myOrders| ==> PriceOrZero(myOrders[k]) >= 0) ==> r >= 0
    ensures (forall k :: 0 <= k < |myOrders| ==> !OfProject(myOrders[k], projectName)) ==> r == 0
  {
    SumNonNegativeOfFilter(myOrders, (o: Order) => OfProject(o, projectName));
    FilterNone(myOrders, (o: Order) => OfProject(o, projectName));
    Sum(Filter(myOrders, (o: Order) => OfProject(o, projectName)), PriceOrZero)
  }

  /**
   * One more order raises the cost of the project it is booked on by its
   * price and leaves every other project's cost as it was.
   */
  lemma ProjectCostAfterAdd(o: Order, orders: seq<Order>, projectName: string)
    ensures ProjectCost([o] + orders, projectName)
            == ProjectCost(orders, projectName) + (if OfProject(o, projectName) then PriceOrZero(o) else 0)
  {
    var p := (x: Order) => OfProject(x, projectName);
    FilterAppend([o], orders, p);
    SumAppend(Filter([o], p), Filter(orders, p), PriceOrZero);
    assert [o][1..] == [];
    if p(o) {
      assert Filter([o], p) == [o];
    } else {
      assert Filter([o], p) == [];
    }
  }

  lemma SumNonNegativeOfFilter(s: seq<Order>, p: Order -> bool)
    ensures (forall k :: 0 <= k < |s| ==> PriceOrZero(s[k]) >= 0) ==> Sum(Filter(s, p), PriceOrZero) >= 0
  {
    if forall k :: 0 <= k < |s| ==> PriceOrZero(s[k]) >= 0 {
      SumFilterNonNegative(s, p, PriceOrZero);
    }
  }

  // --------------------------------------------------------- projects

  datatype ProjectForm = ProjectForm(
    name: string,
    address: string,
    lat: Option<real>,
    lng: Option<real>,
    hasConstructionPermit: bool,
    hasDischargePermit: bool)

  const EmptyProjectForm: ProjectForm := ProjectForm("", "", None, None, false, false)

  /** `x || d` on an optional coordinate (null and 0 are falsy). */
  function CoordOr(x: Option<real>, d: real): real {
    if x.Some? && x.value != 0.0 then x.value else d
  }

  /** The project `handleAddProject` registers. */
  function NewProject(form: ProjectForm, now: nat, externalSerial: nat): (p: EnterpriseProject)
    ensures p.name == Trim(form.name) && p.address == Trim(form.address)
    ensures p.status == ProjectStatus.Pending && p.permitImageUrl == ""
    ensures p.externalSync.Some? && p.externalSync.value.syncStatus == SyncStatus.Pending
  {
    EnterpriseProject(
      "proj-" + NatToString(now), Trim(form.name), Trim(form.address), "", ProjectStatus.Pending, now, None,
      GeoLocation(CoordOr(form.lat, 31.22), CoordOr(form.lng, 121.48), Some(Trim(form.address))),
      Some(ExternalSync("穗联管", "E-" + NatToString(externalSerial), SyncStatus.Pending, now)),
      form.hasConstructionPermit, form.hasDischargePermit)
  }

  /**
   * `handleAddProject`: `None` when the trimmed name or address is empty;
   * otherwise the profile with the new project appended last.
   */
  function AddProject(profile: EnterpriseProfile, form: ProjectForm, now: nat, externalSerial: nat)
    : (r: Option<EnterpriseProfile>)
    ensures r.None? <==> Trim(form.name) == "" || Trim(form.address) == ""
    ensures r.Some? ==> r.value == profile.(activeProjects := profile.activeProjects + [NewProject(form, now, externalSerial)])
    ensures r.Some? ==> |r.value.activeProjects| == |profile.activeProjects| + 1
    ensures r.Some? ==> r.value.activeProjects[..|profile.activeProjects|] == profile.activeProjects
    ensures r.Some? ==> var p := r.value.activeProjects[|profile.activeProjects|];
              p.status == ProjectStatus.Pending && p.name == Trim(form.name) && p.name != ""
  {
    if Trim(form.name) == "" || Trim(form.address) == "" then None
    else
      var ps := profile.activeProjects + [NewProject(form, now, externalSerial)];
      assert ps[..|profile.activeProjects|] == profile.activeProjects;
      Some(profile.(activeProjects := ps))
  }

  // ------------------------------------------------------ bulk orders

  /** One of the component's contracted fleets. */
  datatype ContractedFleet = ContractedFleet(id: string, name: string, contact: string, phone: string,
                                             rating: real, availableTrucks: int)

  datatype DispatchMode = Broadcast | Assign

  datatype CreateMode = Removal | Procurement

  /** What every order of one bulk submission shares. */
  datatype BulkSpec = BulkSpec(
    now: nat,
    userId: string,
    project: EnterpriseProject,
    mediaType: MediaType,
    mediaData: string,
    driver: Option<Assignment>,
    price: int,
    wasteType: WasteType,
    labor: bool,
    collection: CollectionMethod,
    vehicle: string,
    truckCount: nat)

  function ProjectPickup(project: EnterpriseProject): PickupDetails {
    PickupDetails("上海市", "浦东新区", project.address, project.name, true, "GROUND_FLOOR",
                  None, None, None, None, Some(project.name))
  }

  /** `assignedDriver` of a bulk order dispatched to a contracted fleet (`selectedFleet` may be missing). */
  function FleetDispatch(selected: Option<ContractedFleet>): (a: Assignment)
    ensures a.DeclaredShape() && a.plate == Some("待指派车辆")
  {
    Assignment(Some("车队调度中"), Some(if selected.Some? then selected.value.phone else ""),
               Some("待指派车辆"), if selected.Some? then Some(selected.value.name) else None, None)
  }

  /** The `i`-th order of a bulk submission. */
  function BulkOrder(spec: BulkSpec, i: nat): (o: Order)
    ensures o.status == PendingPickup && o.orderType == WasteRemoval && o.paymentStatus == Some(Credit)
    ensures o.createdAt == spec.now + i && o.assignedDriver == spec.driver
    ensures o.analysis.Some? && o.analysis.value.estimatedPrice == spec.price
    ensures o.analysis.value.laborServiceRecommendation == (if spec.labor then CarryAndLoad else NoLabor)
    ensures o.id == "ent-ord-" + NatToString(spec.now) + "-" + NatToString(i)
  {
    var o := NewOrder("ent-ord-" + NatToString(spec.now) + "-" + NatToString(i), spec.userId, spec.now + i,
                      PendingPickup, WasteRemoval, spec.project.location, spec.mediaType, spec.mediaData);
    o.(pickupDetails := Some(ProjectPickup(spec.project)),
       paymentStatus := Some(Credit),
       assignedDriver := spec.driver,
       analysis := Some(WasteAnalysis(
         spec.wasteType, 0, "1 车", spec.price,
         "企业批量清运订单 (" + NatToString(i + 1) + "/" + NatToString(spec.truckCount) + ") - " + spec.project.name,
         spec.vehicle, None, false, true, if spec.labor then CarryAndLoad else NoLabor, spec.collection)))
  }

  /** The first `n` bulk orders as `addOrder` leaves them: the latest first. */
  function Batch(spec: BulkSpec, n: nat): seq<Order> {
    if n == 0 then [] else [BulkOrder(spec, n - 1)] + Batch(spec, n - 1)
  }

  lemma {:induction false} BatchAt(spec: BulkSpec, n: nat)
    ensures |Batch(spec, n)| == n
    ensures forall k :: 0 <= k < n ==> Batch(spec, n)[k] == BulkOrder(spec, n - 1 - k)
  {
    if n > 0 {
      BatchAt(spec, n - 1);
      var b := Batch(spec, n - 1);
      assert Batch(spec, n) == [BulkOrder(spec, n - 1)] + b;
      forall k | 0 <= k < n
        ensures Batch(spec, n)[k] == BulkOrder(spec, n - 1 - k)
      {
        if k > 0 {
          assert Batch(spec, n)[k] == b[k - 1];
        }
      }
    }
  }

  /**
   * A submission for `n` trucks yields exactly `n` orders, each PENDING_PICKUP,
   * WASTE_REMOVAL and on credit at the per-truck price; a driver assignment
   * exactly when one was chosen, CARRY_AND_LOAD exactly when labour was; and
   * creation times one apart, rising with the loop index.
   */
  lemma {:induction false} BatchShape(spec: BulkSpec, n: nat)
    ensures |Batch(spec, n)| == n
    ensures forall k :: 0 <= k < n ==>
      var o := Batch(spec, n)[k];
      && o.status == PendingPickup && o.orderType == WasteRemoval && o.paymentStatus == Some(Credit)
      && o.analysis.Some? && o.analysis.value.estimatedPrice == spec.price
      && (o.assignedDriver.Some? <==> spec.driver.Some?)
      && (o.analysis.value.laborServiceRecommendation == CarryAndLoad <==> spec.labor)
      && o.createdAt == spec.now + (n - 1 - k)
  {
    BatchAt(spec, n);
  }

  /** The orders of one submission have pairwise distinct ids. */
  lemma BatchIdsDistinct(spec: BulkSpec, i: nat, j: nat)
    requires i != j
    ensures BulkOrder(spec, i).id != BulkOrder(spec, j).id
  {
    var p := "ent-ord-" + NatToString(spec.now) + "-";
    if BulkOrder(spec, i).id == BulkOrder(spec, j).id {
      assert p + NatToString(i) == p + NatToString(j);
      assert NatToString(i) == (p + NatToString(i))[|p|..];
      assert NatToString(j) == (p + NatToString(j))[|p|..];
      NatToStringInjective(i, j);
    }
  }

  lemma OneMoreTruck(perTruck: int, n: nat)
    requires n > 0
    ensures TotalEstimate(perTruck, n) == perTruck + TotalEstimate(perTruck, n - 1)
  {
    assert perTruck * n == perTruck * (n - 1) + perTruck;
  }

  /** The total the form shows is what the `n` submitted orders carry between them. */
  lemma {:induction false} BatchTotal(spec: BulkSpec, n: nat)
    ensures Sum(Batch(spec, n), PriceOrZero) == TotalEstimate(spec.price, n)
  {
    if n > 0 {
      var o := BulkOrder(spec, n - 1);
      var b := Batch(spec, n);
      assert b == [o] + Batch(spec, n - 1);
      assert b[0] == o && b[1..] == Batch(spec, n - 1);
      assert PriceOrZero(o) == spec.price;
      BatchTotal(spec, n - 1);
      assert Sum(b, PriceOrZero) == spec.price + TotalEstimate(spec.price, n - 1);
      OneMoreTruck(spec.price, n);
    }
  }

  /** Every order of a submission is booked on the submission's project. */
  lemma BulkOrderOfProject(spec: BulkSpec, i: nat)
    ensures OfProject(BulkOrder(spec, i), spec.project.name)
  {
  }

  /**
   * Booking `n` trucks on a project raises that project's cost by exactly
   * the total the form showed.
   */
  lemma {:induction false} BatchRaisesProjectCost(spec: BulkSpec, n: nat, orders: seq<Order>)
    ensures ProjectCost(Batch(spec, n) + orders, spec.project.name)
            == ProjectCost(orders, spec.project.name) + TotalEstimate(spec.price, n)
  {
    if n > 0 {
      var rest := Batch(spec, n - 1) + orders;
      assert Batch(spec, n) + orders == [BulkOrder(spec, n - 1)] + rest;
      BatchRaisesProjectCost(spec, n - 1, orders);
      BulkOrderOfProject(spec, n - 1);
      var o := BulkOrder(spec, n - 1);
      ProjectCostAfterAdd(o, rest, spec.project.name);
      assert ProjectCost([o] + rest, spec.project.name) == ProjectCost(rest, spec.project.name) + spec.price;
      assert ProjectCost(rest, spec.project.name) == ProjectCost(orders, spec.project.name) + TotalEstimate(spec.price, n - 1);
      OneMoreTruck(spec.price, n);
    } else {
      assert Batch(spec, n) + orders == orders;
    }
  }

  /** The one order a procurement request creates. */
  function ProcurementOrder(profile: EnterpriseProfile, project: EnterpriseProject, now: nat,
                            req: BuyRequirements): (o: Order)
    ensures o.status == PendingPickup && o.orderType == RecycleTrade && o.tradeDirection == Some(Buy)
    ensures o.paymentStatus == Some(Credit) && o.buyRequirements == Some(req)
    ensures o.userId == "ent-" + profile.id
  {
    var o := NewOrder("ent-buy-" + NatToString(now), EnterpriseUserId(profile), now, PendingPickup, RecycleTrade,
                      project.location, Image,
                      "https://images.unsplash.com/photo-1541888946425-d81bb19240f5?auto=format&fit=crop&q=80&w=400");
    o.(tradeDirection := Some(Buy), pickupDetails := Some(ProjectPickup(project)),
       paymentStatus := Some(Credit), buyRequirements := Some(req))
  }

  /** `find(p => p.id === selectedProjectId) || activeProjects[0]`. */
  function TargetProject(projects: seq<EnterpriseProject>, selectedId: string): (r: EnterpriseProject)
    requires projects != []
    ensures r in projects
    ensures (exists k :: 0 <= k < |projects| && projects[k].id == selectedId) ==> r.id == selectedId
    ensures (forall k :: 0 <= k < |projects| ==> projects[k].id != selectedId) ==> r == projects[0]
  {
    Find(projects, (p: EnterpriseProject) => p.id == selectedId).GetOr(projects[0])
  }

  /** `{...prev, [key]: !prev[key]}`. */
  function Toggled(s: Services, key: ServiceKey): (r: Services)
    ensures r.tax == (if key == TaxKey then !s.tax else s.tax)
    ensures r.labor == (if key == LaborKey then !s.labor else s.labor)
    ensures r.loading == (if key == LoadingKey then !s.loading else s.loading)
  {
    match key
    case TaxKey => s.(tax := !s.tax)
    case LaborKey => s.(labor := !s.labor)
    case LoadingKey => s.(loading := !s.loading)
  }

  /** Toggling a service twice restores the selection. */
  lemma ToggledTwice(s: Services, key: ServiceKey)
    ensures Toggled(Toggled(s, key), key) == s
  {
  }

  // --------------------------------------------------- component state

  datatype ProcurementDetails = ProcurementDetails(productType: RecycledProductType, quantity: string,
                                                   targetPrice: string)

  class State {
    var isCreating: bool
    var createMode: CreateMode
    var selectedProjectId: string
    var mediaData: Option<string>
    var mediaType: MediaType
    var truckCount: int
    var selectedWasteType: WasteType
    var collectionMethod: CollectionMethod
    var dispatchMode: DispatchMode
    var selectedFleetId: string
    var targetVehicle: string
    var services: Services
    var procurement: ProcurementDetails

    ghost predicate Valid()
      reads this
    {
      truckCount >= 1
    }

    constructor (profile: EnterpriseProfile, contracted: seq<ContractedFleet>)
      requires contracted != []
      ensures Valid() && truckCount == 1 && services == DefaultServices
      ensures createMode == Removal && dispatchMode == Broadcast && collectionMethod == Immediate
      ensures selectedWasteType == Construction && mediaData.None? && !isCreating
      ensures selectedProjectId == if profile.activeProjects != [] then profile.activeProjects[0].id else ""
      ensures selectedFleetId == contracted[0].id
    {
      isCreating := false;
      createMode := Removal;
      selectedProjectId := if profile.activeProjects != [] then profile.activeProjects[0].id else "";
      mediaData := None;
      mediaType := Image;
      truckCount := 1;
      selectedWasteType := Construction;
      collectionMethod := Immediate;
      dispatchMode := Broadcast;
      selectedFleetId := contracted[0].id;
      targetVehicle := "Dump Truck";
      services := DefaultServices;
      procurement := ProcurementDetails(Gravel, "1000 吨", "25000");
    }

    /** `toggleService`: flips exactly the one service named. */
    method ToggleService(key: ServiceKey)
      modifies this`services
      ensures services == Toggled(old(services), key)
    {
      services := Toggled(services, key);
    }

    /** The minus button of the truck counter. */
    method DecrementTrucks()
      requires Valid()
      modifies this`truckCount
      ensures Valid() && truckCount == Counters.Decrement(old(truckCount))
    {
      truckCount := Counters.Decrement(truckCount);
    }

    /** The plus button of the truck counter. */
    method IncrementTrucks()
      requires Valid()
      modifies this`truckCount
      ensures Valid() && truckCount == old(truckCount) + 1
    {
      truckCount := truckCount + 1;
    }

    /** The shared part of the bulk orders the form would submit now. */
    function Spec(profile: EnterpriseProfile, contracted: seq<ContractedFleet>, now: nat): (s: BulkSpec)
      reads this
      requires Valid() && profile.activeProjects != [] && mediaData.Some?
      ensures s.truckCount == truckCount && s.price == PerTruckPrice(profile, collectionMethod, services)
      ensures s.driver.Some? <==> dispatchMode == Assign
      ensures s.labor == services.labor
    {
      BulkSpec(now, EnterpriseUserId(profile), TargetProject(profile.activeProjects, selectedProjectId),
               mediaType, mediaData.value,
               if dispatchMode == Assign
               then var fid := selectedFleetId;
                    Some(FleetDispatch(Find(contracted, (f: ContractedFleet) => f.id == fid)))
               else None,
               PerTruckPrice(profile, collectionMethod, services), selectedWasteType, services.labor,
               collectionMethod, targetVehicle, truckCount)
    }

    /** The form after a submission went through. */
    ghost predicate ResetAfterSubmit()
      reads this
    {
      !isCreating && mediaData.None? && truckCount == 1 && mediaType == Image && createMode == Removal
      && dispatchMode == Broadcast && targetVehicle == "Dump Truck" && selectedWasteType == Construction
    }

    /**
     * `handleSubmitOrder`.  A removal without media, or any request while
     * the enterprise has no project, changes nothing.  A procurement request
     * adds one buy order; a removal adds `truckCount` orders, one `addOrder`
     * call per truck.  Either way the form is then reset.
     */
    method SubmitOrder(store: App.Store, profile: EnterpriseProfile, contracted: seq<ContractedFleet>,
                       now: nat, parseFloat: string -> Option<real>)
      requires Valid()
      modifies this, store`orders
      ensures Valid()
      ensures selectedProjectId == old(selectedProjectId) && selectedFleetId == old(selectedFleetId)
      ensures collectionMethod == old(collectionMethod) && services == old(services) && procurement == old(procurement)
      ensures (old(createMode) == Removal && !Truthy(old(mediaData))) || profile.activeProjects == [] ==>
                store.orders == old(store.orders) && unchanged(this)
      ensures old(createMode) == Procurement && profile.activeProjects != [] ==>
                store.orders == [ProcurementOrder(profile, TargetProject(profile.activeProjects, old(selectedProjectId)),
                                                  now, BuyRequirements(old(procurement).productType,
                                                                       old(procurement).quantity,
                                                                       parseFloat(old(procurement).targetPrice)))]
                                + old(store.orders)
                && ResetAfterSubmit()
      ensures old(createMode) == Removal && Truthy(old(mediaData)) && profile.activeProjects != [] ==>
                store.orders == Batch(old(Spec(profile, contracted, now)), old(truckCount)) + old(store.orders)
                && ResetAfterSubmit()
    {
      if createMode == Removal && !Truthy(mediaData) {
        return;
      }
      if profile.activeProjects == [] {
        return;
      }
      var project := TargetProject(profile.activeProjects, selectedProjectId);
      if createMode == Procurement {
        var req := BuyRequirements(procurement.productType, procurement.quantity, parseFloat(procurement.targetPrice));
        store.AddOrder(ProcurementOrder(profile, project, now, req));
      } else {
        var spec := Spec(profile, contracted, now);
        AddBatch(store, spec, truckCount);
      }
      Reset();
    }

    /** The resets at the end of a submission. */
    method Reset()
      modifies this
      ensures Valid() && ResetAfterSubmit()
      ensures createMode == Removal && selectedProjectId == old(selectedProjectId)
      ensures collectionMethod == old(collectionMethod) && selectedFleetId == old(selectedFleetId)
      ensures services == old(services) && procurement == old(procurement)
    {
      isCreating := false;
      mediaData := None;
      truckCount := 1;
      mediaType := Image;
      createMode := Removal;
      dispatchMode := Broadcast;
      targetVehicle := "Dump Truck";
      selectedWasteType := Construction;
    }
  }

  /** The loop of `handleSubmitOrder`: one `addOrder` per truck, in order. */
  method AddBatch(store: App.Store, spec: BulkSpec, n: nat)
    modifies store`orders
    ensures store.orders == Batch(spec, n) + old(store.orders)
  {
    var i := 0;
    while i < n
      invariant 0 <= i <= n
      invariant store.orders == Batch(spec, i) + old(store.orders)
    {
      store.AddOrder(BulkOrder(spec, i));
      i := i + 1;
    }
  }
}
