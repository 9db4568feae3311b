/**
 * components/GovernmentView.tsx: the city supervisor's console.  The
 * statistics and the pending-complaint figure are pure; the complaint list
 * and the notice form are component state, and publishing goes through the
 * store's notice list.
 */
module GovernmentView {
  import opened Wrappers
  import opened Strings
  import opened Seqs
  import opened Types
  import App

  // ---------------------------------------------------------------- stats

  datatype Stats = Stats(totalVolume: int, recyclingRate: real, completedCount: nat)

  predicate IsCompleted(o: Order) {
    o.status == Completed
  }

  /** `stats`: five cubic metres per COMPLETED order, next to a fixed 78.5% recycling rate. */
  function OrderStats(orders: seq<Order>): (s: Stats)
    ensures s.totalVolume == 5 * s.completedCount
    ensures s.completedCount <= |orders|
    ensures s.completedCount == CountWhere(orders, IsCompleted)
    ensures s.recyclingRate == 78.5
  {
    var completed := Filter(orders, IsCompleted);
    Stats(|completed| * 5, 78.5, |completed|)
  }

  /** One more order adds five cubic metres exactly when it is COMPLETED. */
  lemma StatsAfterAdd(o: Order, orders: seq<Order>)
    ensures OrderStats([o] + orders).totalVolume ==
              OrderStats(orders).totalVolume + (if o.status == Completed then 5 else 0)
  {
    assert ([o] + orders)[0] == o;
    assert ([o] + orders)[1..] == orders;
  }

  // ----------------------------------------------------------- complaints

  predicate IsPendingComplaint(c: ComplaintEvent) {
    c.status == ComplaintStatus.Pending
  }

  /** The 待办投诉 figure. */
  function PendingCount(cs: seq<ComplaintEvent>): (n: nat)
    ensures n <= |cs|
    ensures n == 0 <==> forall k :: 0 <= k < |cs| ==> cs[k].status != ComplaintStatus.Pending
  {
    var r := Filter(cs, IsPendingComplaint);
    assert r != [] ==> r[0] in cs;
    |r|
  }

  /** One more complaint raises the figure by one exactly when it is PENDING; none gives zero. */
  lemma {:induction false} PendingAfterAdd(c: ComplaintEvent, cs: seq<ComplaintEvent>)
    ensures PendingCount([]) == 0
    ensures PendingCount([c] + cs) == PendingCount(cs) + (if c.status == ComplaintStatus.Pending then 1 else 0)
  {
    assert ([c] + cs)[0] == c && ([c] + cs)[1..] == cs;
  }

  /** `handleResolveComplaint`: each complaint with that id becomes RESOLVED; every other one is kept. */
  function Resolve(cs: seq<ComplaintEvent>, id: string): (r: seq<ComplaintEvent>)
    ensures |r| == |cs|
    ensures forall k :: 0 <= k < |cs| && cs[k].id == id ==> r[k] == cs[k].(status := Resolved)
    ensures forall k :: 0 <= k < |cs| && cs[k].id != id ==> r[k] == cs[k]
  {
    MapWhere(cs, (c: ComplaintEvent) => c.id == id, (c: ComplaintEvent) => c.(status := Resolved))
  }

  /** Resolving the same complaint twice is resolving it once. */
  lemma ResolveIdempotent(cs: seq<ComplaintEvent>, id: string)
    ensures Resolve(Resolve(cs, id), id) == Resolve(cs, id)
  {
    var r := Resolve(cs, id);
    var rr := Resolve(r, id);
    assert forall k :: 0 <= k < |cs| ==> rr[k] == r[k];
  }

  /** The pending figure falls by the number of pending complaints carrying the resolved id. */
  lemma {:induction false} ResolveLowersPending(cs: seq<ComplaintEvent>, id: string)
    ensures PendingCount(Resolve(cs, id)) + CountWhere(cs, (c: ComplaintEvent) => c.id == id && IsPendingComplaint(c))
              == PendingCount(cs)
  {
    if cs != [] {
      ResolveLowersPending(cs[1..], id);
      var r := Resolve(cs, id);
      var tail := Resolve(cs[1..], id);
      assert r[1..] == tail by {
        forall k | 0 <= k < |tail|
          ensures r[1..][k] == tail[k]
        {
          assert cs[1..][k] == cs[k + 1];
        }
      }
    }
  }

  // --------------------------------------------------------- notice form

  /** `prev.targets.includes(role) ? prev.targets.filter(r => r !== role) : [...prev.targets, role]`. */
  function Toggled(targets: seq<UserRole>, role: UserRole): (r: seq<UserRole>)
    ensures role in r <==> role !in targets
    ensures forall x :: x != role ==> (x in r <==> x in targets)
  {
    if role in targets then
      var r := Filter(targets, (x: UserRole) => x != role);
      forall x | x != role && x in targets
        ensures x in r
      {
        var k :| 0 <= k < |targets| && targets[k] == x;
      }
      r
    else targets + [role]
  }

  /** Toggling a role twice restores every role's membership, and the list itself when the role was absent. */
  lemma ToggledTwice(targets: seq<UserRole>, role: UserRole)
    ensures forall x :: x in Toggled(Toggled(targets, role), role) <==> x in targets
    ensures role !in targets ==> Toggled(Toggled(targets, role), role) == targets
  {
    if role !in targets {
      var once := targets + [role];
      assert Toggled(targets, role) == once;
      assert Filter(once, (x: UserRole) => x != role) == targets by {
        var p := (x: UserRole) => x != role;
        FilterAppend(targets, [role], p);
        FilterKeepsAll(targets, p);
        assert [role][1..] == [];
      }
    }
  }

  datatype NoticeForm = NoticeForm(title: string, content: string, noticeType: NoticeType, targets: seq<UserRole>)

  /** The empty form, addressed to disposal sites and property managers. */
  const EmptyNoticeForm: NoticeForm := NoticeForm("", "", Notice, [Disposal, Property])

  /** The notice `handlePublishNotice` sends: the form's title, content, type and current targets. */
  function NoticeOf(form: NoticeForm, now: nat): (n: GovernmentNotice)
    ensures n.id == NatToString(now) && n.time == now
    ensures n.title == Some(form.title) && n.content == form.content && n.noticeType == form.noticeType
    ensures n.targetRoles == Some(form.targets)
  {
    GovernmentNotice(NatToString(now), Some(form.title), form.content, now, form.noticeType, Some(form.targets))
  }

  // ---------------------------------------------------- component state

  datatype Tab = MapTab | Supervision | Complaints | Messages | StatsTab

  /** `MOCK_COMPLAINTS`: one pending report, an hour old when the module loads. */
  function MockComplaints(loadTime: int): (r: seq<ComplaintEvent>)
    ensures PendingCount(r) == 1
  {
    var r := [ComplaintEvent("c1", "u123", IllegalDumping, GeoLocation(31.22, 121.62, Some("科苑路188号路口")),
                             "发现大量装修垃圾堆放在人行道，无人清理。",
                             "https://images.unsplash.com/photo-1530587191325-3db32d826c18?auto=format&fit=crop&w=400",
                             ComplaintStatus.Pending, loadTime - 3600000)];
    assert r[1..] == [];
    r
  }

  class State {
    var activeTab: Tab
    var complaints: seq<ComplaintEvent>
    var showNoticeModal: bool
    var newNotice: NoticeForm

    constructor (loadTime: int)
      ensures activeTab == Supervision && complaints == MockComplaints(loadTime)
      ensures !showNoticeModal && newNotice == EmptyNoticeForm
    {
      activeTab := Supervision;
      complaints := MockComplaints(loadTime);
      showNoticeModal := false;
      newNotice := EmptyNoticeForm;
    }

    method ResolveComplaint(id: string)
      modifies this`complaints
      ensures complaints == Resolve(old(complaints), id)
    {
      complaints := Resolve(complaints, id);
    }

    method ToggleTarget(role: UserRole)
      modifies this`newNotice
      ensures newNotice == old(newNotice).(targets := Toggled(old(newNotice).targets, role))
    {
      newNotice := newNotice.(targets := Toggled(newNotice.targets, role));
    }

    /**
     * `handlePublishNotice`: nothing without both a title and content;
     * otherwise the notice goes to the front of the store's list, the modal
     * closes and the form returns to its empty state.
     */
    method PublishNotice(store: App.Store, now: nat)
      modifies this`showNoticeModal, this`newNotice, store`notices
      ensures old(newNotice).title == "" || old(newNotice).content == "" ==>
                store.notices == old(store.notices) && newNotice == old(newNotice)
                && showNoticeModal == old(showNoticeModal)
      ensures old(newNotice).title != "" && old(newNotice).content != "" ==>
                store.notices == [NoticeOf(old(newNotice), now)] + old(store.notices)
                && newNotice == EmptyNoticeForm && !showNoticeModal
    {
      if newNotice.title == "" || newNotice.content == "" {
        return;
      }
      store.PublishNotice(NoticeOf(newNotice, now));
      showNoticeModal := false;
      newNotice := EmptyNoticeForm;
    }
  }
}
