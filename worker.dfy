/**
 * components/WorkerView.tsx: the renovation crew's console.  The job hall,
 * the crew's own jobs and its own waste orders are filters over the store's
 * orders; accepting a job and posting a waste order go through the store.
 */
module WorkerView {
  import opened Wrappers
  import opened Strings
  import opened Seqs
  import opened Types
  import App

  // ---------------------------------------------------------- selections

  /** A DEMOLITION or LABOR order waiting for pickup that no crew holds. */
  predicate InHall(o: Order) {
    (o.orderType == Demolition || o.orderType == Labor) && o.status == PendingPickup && o.assignedWorker.None?
  }

  /** `serviceOrders`, the job hall. */
  function Hall(orders: seq<Order>): (r: seq<Order>)
    ensures forall k :: 0 <= k < |orders| ==>
              (orders[k] in r <==> && (orders[k].orderType == Demolition || orders[k].orderType == Labor)
                                   && orders[k].status == PendingPickup && orders[k].assignedWorker.None?)
    ensures forall k :: 0 <= k < |r| ==> r[k] in orders && r[k].assignedWorker.None?
  {
    Filter(orders, InHall)
  }

  /** `o.assignedWorker?.name === profile.name`. */
  predicate IsMyJob(o: Order, profile: WorkerProfile) {
    o.assignedWorker.Some? && o.assignedWorker.value.name == profile.name
  }

  /** `myJobs`. */
  function MyJobs(orders: seq<Order>, profile: WorkerProfile): (r: seq<Order>)
    ensures forall k :: 0 <= k < |orders| ==> (orders[k] in r <==> IsMyJob(orders[k], profile))
    ensures forall k :: 0 <= k < |r| ==> r[k] in orders && IsMyJob(r[k], profile)
  {
    Filter(orders, (o: Order) => IsMyJob(o, profile))
  }

  function WorkerUserId(profile: WorkerProfile): string {
    "worker-" + profile.id
  }

  /** `myWasteOrders`: the orders this crew posted. */
  function MyWasteOrders(orders: seq<Order>, profile: WorkerProfile): (r: seq<Order>)
    ensures forall k :: 0 <= k < |orders| ==> (orders[k] in r <==> orders[k].userId == WorkerUserId(profile))
    ensures forall k :: 0 <= k < |r| ==> r[k] in orders && r[k].userId == WorkerUserId(profile)
  {
    Filter(orders, (o: Order) => o.userId == WorkerUserId(profile))
  }

  /**
   * The 已完工 figure: the crew's COMPLETED jobs, never more than its jobs,
   * and all of them exactly when every one of its jobs is COMPLETED.
   */
  function CompletedJobs(orders: seq<Order>, profile: WorkerProfile): (n: nat)
    ensures n <= |MyJobs(orders, profile)|
    ensures n == |MyJobs(orders, profile)| <==>
              forall k :: 0 <= k < |orders| && IsMyJob(orders[k], profile) ==> orders[k].status == Completed
  {
    var jobs := MyJobs(orders, profile);
    FilterLengthAll(jobs, IsCompleted);
    |Filter(jobs, IsCompleted)|
  }

  predicate IsCompleted(o: Order) {
    o.status == Completed
  }

  /** One more order raises the figure by one exactly when it is a COMPLETED job of this crew. */
  lemma {:induction false} CompletedAfterAdd(o: Order, orders: seq<Order>, profile: WorkerProfile)
    ensures CompletedJobs([o] + orders, profile) ==
              CompletedJobs(orders, profile) + (if IsMyJob(o, profile) && o.status == Completed then 1 else 0)
  {
    assert ([o] + orders)[0] == o && ([o] + orders)[1..] == orders;
    var before := MyJobs(orders, profile);
    var after := MyJobs([o] + orders, profile);
    assert after == (if IsMyJob(o, profile) then [o] else []) + before;
    if IsMyJob(o, profile) {
      assert after[0] == o && after[1..] == before;
      assert Filter(after, IsCompleted) == (if IsCompleted(o) then [o] else []) + Filter(before, IsCompleted);
    } else {
      assert after == before;
    }
  }

  /** The 清运支出 figure: a flat 200 per posted waste order. */
  function Spending(orders: seq<Order>, profile: WorkerProfile): (r: nat)
    ensures r % 200 == 0 && r / 200 == |MyWasteOrders(orders, profile)|
  {
    |MyWasteOrders(orders, profile)| * 200
  }

  // ----------------------------------------------------------- accepting

  /** The crew record `handleAcceptJob` writes. */
  function CrewOf(profile: WorkerProfile): WorkerAssignment {
    WorkerAssignment(profile.name, profile.phone, profile.teamName)
  }

  /** `{ assignedWorker: { name, phone, teamName } }`. */
  function AcceptData(profile: WorkerProfile): App.OrderPatch {
    App.NoData.(assignedWorker := Put(Some(CrewOf(profile))))
  }

  /**
   * Accepting a job makes it IN_PROGRESS and this crew's: it leaves the hall
   * and enters the crew's job list, with its driver and everything else kept.
   */
  lemma AcceptedJob(o: Order, profile: WorkerProfile)
    ensures var r := App.MergeOrder(o, InProgress, AcceptData(profile));
            && r.status == InProgress && r.assignedWorker == Some(CrewOf(profile))
            && !InHall(r) && IsMyJob(r, profile)
            && r == o.(status := InProgress, assignedWorker := Some(CrewOf(profile)))
  {
  }

  /** In the whole store, every order with the accepted id leaves the hall and becomes the crew's job. */
  lemma AcceptedLeavesHall(orders: seq<Order>, id: string, profile: WorkerProfile)
    ensures var after := App.UpdateStatusIn(orders, id, InProgress, AcceptData(profile));
            && (forall k :: 0 <= k < |after| && after[k].id == id ==> after[k] !in Hall(after))
            && (forall k :: 0 <= k < |after| && after[k].id == id ==> after[k] in MyJobs(after, profile))
            && (forall k :: 0 <= k < |after| && after[k].id != id ==> after[k] == orders[k])
  {
    var after := App.UpdateStatusIn(orders, id, InProgress, AcceptData(profile));
    forall k | 0 <= k < |after| && after[k].id == id
      ensures !InHall(after[k]) && IsMyJob(after[k], profile)
    {
      AcceptedJob(orders[k], profile);
    }
  }

  // ------------------------------------------------------------- posting

  /** The order `handlePostWaste` creates. */
  function WasteOrder(profile: WorkerProfile, mediaType: MediaType, media: string, now: nat): (o: Order)
    ensures o.id == "worker-waste-" + NatToString(now) && o.userId == WorkerUserId(profile) && o.createdAt == now
    ensures o.status == Analyzing && o.orderType == WasteRemoval && o.paymentStatus == Some(Unpaid)
    ensures o.mediaType == mediaType && o.mediaData == media
    ensures o.pickupDetails.Some? && o.pickupDetails.value.community == "" && o.pickupDetails.value.locationType == "STREET_SIDE"
    ensures o.analysis.None? && o.assignedDriver.None? && o.assignedWorker.None?
  {
    NewOrder("worker-waste-" + NatToString(now), WorkerUserId(profile), now, Analyzing, WasteRemoval,
             GeoLocation(31.22, 121.48, Some("作业现场")), mediaType, media)
      .(pickupDetails := Some(PickupDetails("上海市", "浦东新区", "施工现场路边", "", true, "STREET_SIDE",
                                            None, None, None, None, None)),
        paymentStatus := Some(Unpaid))
  }

  /** A posted waste order is the crew's own and costs it another 200. */
  lemma PostingRaisesSpending(orders: seq<Order>, profile: WorkerProfile, mediaType: MediaType, media: string, now: nat)
    ensures var o := WasteOrder(profile, mediaType, media, now);
            && o in MyWasteOrders([o] + orders, profile)
            && Spending([o] + orders, profile) == Spending(orders, profile) + 200
  {
    var o := WasteOrder(profile, mediaType, media, now);
    var p := (x: Order) => x.userId == WorkerUserId(profile);
    FilterAppend([o], orders, p);
    assert [o][1..] == [];
    assert Filter([o], p) == [o];
    assert ([o] + orders)[0] == o;
  }

  // ---------------------------------------------------- component state

  datatype Tab = HallTab | MyJobsTab | PostWasteTab

  class State {
    var activeTab: Tab
    var mediaData: Option<string>
    var mediaType: MediaType

    constructor ()
      ensures activeTab == HallTab && mediaData.None? && mediaType == Image
    {
      activeTab := HallTab;
      mediaData := None;
      mediaType := Image;
    }

    /** `handleAcceptJob`: the order becomes this crew's IN_PROGRESS job and the view shows the job list. */
    method AcceptJob(store: App.Store, profile: WorkerProfile, order: Order)
      modifies this`activeTab, store`orders
      ensures store.orders == App.UpdateStatusIn(old(store.orders), order.id, InProgress, AcceptData(profile))
      ensures activeTab == MyJobsTab
    {
      store.UpdateStatus(order.id, InProgress, AcceptData(profile));
      activeTab := MyJobsTab;
    }

    /** `handlePostWaste`: nothing without media; otherwise the waste order goes first and the media clears. */
    method PostWaste(store: App.Store, profile: WorkerProfile, now: nat)
      modifies this`mediaData, store`orders
      ensures !Truthy(old(mediaData)) ==> store.orders == old(store.orders) && mediaData == old(mediaData)
      ensures Truthy(old(mediaData)) ==>
                store.orders == [WasteOrder(profile, mediaType, old(mediaData).value, now)] + old(store.orders)
                && mediaData.None?
    {
      if !Truthy(mediaData) {
        return;
      }
      store.AddOrder(WasteOrder(profile, mediaType, mediaData.value, now));
      mediaData := None;
    }
  }
}
