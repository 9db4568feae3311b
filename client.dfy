/**
 * components/ClientView.tsx: the household client's rate tables, the
 * order created after AI analysis, plan acceptance and the renovation
 * report.  The AI result is a parameter: what `analyzeWasteMedia` resolved
 * to, with `None` for `null`.  The service catches its own failures, so
 * only a `null` answer makes `result.estimatedPrice = …` throw and sends
 * the view down its catch path.
 */
module ClientView {
  import opened Wrappers
  import opened Strings
  import opened Types
  import Seqs
  import App
  import GeminiService

  // ------------------------------------------------------------- rates

  /** `BASE_RATES_PER_TRUCK`, keyed by the waste type's string value. */
  const BaseRatesPerTruck: map<string, int> := map[
    "CONSTRUCTION" := 1200, "HAZARDOUS" := 2500, "ELECTRONIC" := 1500, "GENERAL" := 800,
    "ORGANIC" := 900, "RECYCLABLE" := 600, "BULKY" := 1000, "GARDEN" := 800, "UNKNOWN" := 1200]

  /** `BASE_RATES_PER_TRUCK[key] || 1000`. */
  function BaseRate(key: string): (r: int)
    ensures key !in BaseRatesPerTruck ==> r == 1000
    ensures key in BaseRatesPerTruck ==> r == BaseRatesPerTruck[key]
  {
    if key in BaseRatesPerTruck && BaseRatesPerTruck[key] != 0 then BaseRatesPerTruck[key] else 1000
  }

  /** Every waste type has its own entry, between 600 and 2500, so the 1000 default is never used for one. */
  lemma BaseRateOfEveryType(w: WasteType)
    ensures w.Key() in BaseRatesPerTruck
    ensures 600 <= BaseRate(w.Key()) <= 2500
    ensures BaseRate(w.Key()) == BaseRatesPerTruck[w.Key()]
  {
  }

  /** `LABOR_RATES[l] || 0`. */
  function LaborRate(l: LaborServiceType): (r: int)
    ensures 0 <= r <= 300
    ensures r == 0 <==> l == NoLabor
  {
    match l
    case NoLabor => 0
    case LoadingOnly => 100
    case CarryAndLoad => 300
  }

  /** More labour never costs less. */
  lemma LaborRateMonotone(a: LaborServiceType, b: LaborServiceType)
    requires a.Ordinal() <= b.Ordinal()
    ensures LaborRate(a) <= LaborRate(b)
  {
  }

  /** The price the view writes over the AI's own estimate. */
  function ComposedPrice(a: WasteAnalysis): (r: int)
    ensures r == BaseRatesPerTruck[a.wasteType.Key()] + LaborRate(a.laborServiceRecommendation)
    ensures 600 <= r <= 2800
  {
    BaseRateOfEveryType(a.wasteType);
    BaseRate(a.wasteType.Key()) + LaborRate(a.laborServiceRecommendation)
  }

  /** `result.estimatedPrice = …`: only the price of the result changes. */
  function Priced(a: WasteAnalysis): (r: WasteAnalysis)
    ensures r.estimatedPrice == ComposedPrice(a)
    ensures r.(estimatedPrice := a.estimatedPrice) == a
  {
    a.(estimatedPrice := ComposedPrice(a))
  }

  /** The analysis the catch path attaches. */
  const ClientFallback: WasteAnalysis := WasteAnalysis(
    Construction, 100, "1.0m³", 1200, "检测到疑似建筑装修废弃物，建议使用中型货车。", "中型自卸车", None,
    false, true, LoadingOnly, Immediate)

  /** The fallback's fixed 1200 is not what the rate tables give for its own type and labour (1300). */
  lemma FallbackNotComposed()
    ensures ClientFallback.estimatedPrice == 1200
    ensures ComposedPrice(ClientFallback) == 1300
  {
  }

  // ------------------------------------------------------------ orders

  /** The order `handleStartAnalysis` creates, on either path. */
  function ClientOrder(now: nat, location: GeoLocation, pickup: PickupDetails, media: string,
                       analysis: WasteAnalysis): (o: Order)
    ensures o.status == ReviewRequired && o.orderType == WasteRemoval && o.userId == "user-1"
    ensures o.mediaType == Image && o.mediaData == media && o.location == location
    ensures o.analysis == Some(analysis) && o.pickupDetails == Some(pickup)
    ensures o.assignedDriver.None? && o.paymentStatus.None?
  {
    NewOrder("ord-" + NatToString(now), "user-1", now, ReviewRequired, WasteRemoval, location, Image, media)
      .(pickupDetails := Some(pickup), analysis := Some(analysis))
  }

  /** The analysis attached to the new order: the priced result, or the catch path's record when the result is `null`. */
  function AttachedAnalysis(result: Option<WasteAnalysis>): (a: WasteAnalysis)
    ensures result.Some? ==> a == Priced(result.value)
    ensures result.None? ==> a == ClientFallback
    ensures result.Some? ==> 600 <= a.estimatedPrice <= 2800
  {
    match result
    case Some(r) => Priced(r)
    case None => ClientFallback
  }

  /**
   * A failed call (no answer text, or text that is not JSON) does not reach
   * the catch path: the order carries the service's own fallback, priced by
   * the tables at 1300.
   */
  lemma FailedCallPriced(text: Option<string>, parse: string -> GeminiService.Parsed<WasteAnalysis>)
    requires !Truthy(text) || parse(GeminiService.CleanJson(text.value)).Unparsable?
    ensures AttachedAnalysis(GeminiService.AnalyzeWaste(text, parse)) == Priced(GeminiService.WasteFallback())
    ensures AttachedAnalysis(GeminiService.AnalyzeWaste(text, parse)).wasteType == Unknown
    ensures AttachedAnalysis(GeminiService.AnalyzeWaste(text, parse)).estimatedPrice == 1300
  {
    assert GeminiService.WasteFallback().wasteType.Key() == "UNKNOWN";
  }

  /** Only an answer whose JSON body is `null` takes the catch path, with its fixed 1200 record. */
  lemma NullAnswerTakesCatchPath(a: GeminiService.AnswerText, parse: string -> GeminiService.Parsed<WasteAnalysis>)
    requires GeminiService.WellFormed(a) && parse(a.body).JsonNull?
    ensures AttachedAnalysis(GeminiService.AnalyzeWaste(Some(GeminiService.Text(a)), parse)) == ClientFallback
  {
    GeminiService.SettleOfAnswer(a, parse, GeminiService.WasteFallback());
  }

  /** A record parsed from a well-formed answer is attached with the tables' price. */
  lemma AnswerPriced(a: GeminiService.AnswerText, parse: string -> GeminiService.Parsed<WasteAnalysis>)
    requires GeminiService.WellFormed(a) && parse(a.body).Record?
    ensures AttachedAnalysis(GeminiService.AnalyzeWaste(Some(GeminiService.Text(a)), parse))
            == Priced(parse(a.body).value)
  {
    GeminiService.SettleOfAnswer(a, parse, GeminiService.WasteFallback());
  }

  datatype Screen = List | CreateForm | ReviewOrder | RenovationForm | Explore

  datatype RenoForm = RenoForm(community: string, room: string, company: string, days: int)

  /** The renovation report `handleSubmitRenovation` files. */
  function RenovationReport(form: RenoForm, now: nat): (a: RenovationApplication)
    ensures a.status == ProjectStatus.Pending && a.userId == "user-1" && a.roomNumber == form.room
    ensures a.communityName == form.community && a.estimatedDurationDays == form.days
    ensures a.permitId.None?
  {
    RenovationApplication("reno-" + NatToString(now), "user-1", "陈先生", "13812349999", Owner, Residential,
                          form.community, form.room, Some(form.company), now, form.days,
                          ProjectStatus.Pending, now, None)
  }

  // ---------------------------------------------------- component state

  class State {
    var screen: Screen
    var isAnalyzing: bool
    var mediaData: Option<string>
    var location: Option<GeoLocation>
    var pickupDetails: PickupDetails
    var activeReviewOrder: Option<Order>
    var renoForm: RenoForm

    constructor ()
      ensures screen == List && !isAnalyzing && mediaData.None? && location.None? && activeReviewOrder.None?
      ensures renoForm == RenoForm("阳光花苑", "", "", 30)
    {
      screen := List;
      isAnalyzing := false;
      mediaData := None;
      location := None;
      pickupDetails := PickupDetails("上海市", "", "", "", true, "GROUND_FLOOR", None, None, None, None, None);
      activeReviewOrder := None;
      renoForm := RenoForm("阳光花苑", "", "", 30);
    }

    /**
     * `handleStartAnalysis`: without media or location nothing happens;
     * otherwise one REVIEW_REQUIRED order goes to the front of the store and
     * becomes the order under review.
     */
    method StartAnalysis(store: App.Store, now: nat, result: Option<WasteAnalysis>)
      modifies this`isAnalyzing, this`activeReviewOrder, this`screen, store`orders
      ensures !Truthy(old(mediaData)) || old(location).None? ==>
                store.orders == old(store.orders) && isAnalyzing == old(isAnalyzing)
                && activeReviewOrder == old(activeReviewOrder) && screen == old(screen)
      ensures Truthy(old(mediaData)) && old(location).Some? ==>
                var o := ClientOrder(now, old(location).value, old(pickupDetails), old(mediaData).value,
                                     AttachedAnalysis(result));
                store.orders == [o] + old(store.orders) && activeReviewOrder == Some(o)
                && screen == ReviewOrder && !isAnalyzing
    {
      if !Truthy(mediaData) || location.None? {
        return;
      }
      isAnalyzing := true;
      var o := ClientOrder(now, location.value, pickupDetails, mediaData.value, AttachedAnalysis(result));
      store.AddOrder(o);
      activeReviewOrder := Some(o);
      screen := ReviewOrder;
      isAnalyzing := false;
    }

    /**
     * The "accept plan" button: the reviewed order, with only its status
     * changed to PENDING_PICKUP, replaces the stored order of that id.
     */
    method AcceptPlan(store: App.Store)
      requires screen == ReviewOrder && activeReviewOrder.Some?
      modifies this`screen, store`orders
      ensures var accepted := old(activeReviewOrder).value.(status := PendingPickup);
              store.orders == Seqs.ReplaceByKey(old(store.orders), (x: Order) => x.id, accepted)
      ensures screen == List
    {
      store.ReplaceOrder(activeReviewOrder.value.(status := PendingPickup));
      screen := List;
    }

    /** `handleSubmitRenovation`: nothing without a room number; otherwise a PENDING report goes first. */
    method SubmitRenovation(store: App.Store, now: nat)
      modifies this`screen, store`renovationApps
      ensures renoForm.room == "" ==> store.renovationApps == old(store.renovationApps) && screen == old(screen)
      ensures renoForm.room != "" ==>
                store.renovationApps == [RenovationReport(renoForm, now)] + old(store.renovationApps)
                && screen == List
    {
      if renoForm.room == "" {
        return;
      }
      store.ApplyRenovation(RenovationReport(renoForm, now));
      screen := List;
    }
  }
}
