/**
 * components/MarketplaceView.tsx: the recycled-materials market.  Every
 * list it shows is a filter over the products or the orders, and product
 * types are shown under Chinese names from a fixed table.
 */
module MarketplaceView {
  import opened Wrappers
  import opened Strings
  import opened Seqs
  import opened Types
  import EnterpriseView

  // ---------------------------------------------------------- type names

  /** The table inside `getProductTypeName`, keyed by the type's string value. */
  const TypeNames: map<string, string> := map[
    "STONE_POWDER" := "石粉", "GRAVEL" := "再生石子", "LIGHT_MATERIAL" := "轻物质", "SCRAP_IRON" := "废铁/金属",
    "WOOD" := "废木材", "PLASTIC" := "废塑料", "GLASS" := "废玻璃", "OTHER" := "其他资源"]

  /** `map[type] || type`: the table's name, or the key itself when the table has none. */
  function ProductTypeName(key: string): (r: string)
    ensures key in TypeNames ==> r == TypeNames[key]
    ensures key !in TypeNames ==> r == key
  {
    if key in TypeNames && TypeNames[key] != "" then TypeNames[key] else key
  }

  /** The eight product types have eight different names, none of them a raw key. */
  lemma TypeNamesDistinct(a: RecycledProductType, b: RecycledProductType)
    ensures a.Key() in TypeNames
    ensures a != b ==> ProductTypeName(a.Key()) != ProductTypeName(b.Key())
    ensures ProductTypeName(a.Key()) != a.Key()
  {
  }

  // ------------------------------------------------------------- supply

  /** The type chip: every type, or one. */
  datatype TypeFilter = AllTypes | OfType(t: RecycledProductType)

  predicate MatchesType(p: RecycledProduct, f: TypeFilter) {
    f == AllTypes || p.productType == f.t
  }

  /** The search: quantity or facility name (both lower-cased), or the type's name as shown. */
  predicate MatchesSearch(p: RecycledProduct, q: string) {
    || Contains(ToLower(p.quantity), ToLower(q))
    || Contains(ToLower(p.facilityName), ToLower(q))
    || Contains(ProductTypeName(p.productType.Key()), q)
  }

  /** `filteredProducts`: the products of the chosen type that match the search, in their original order. */
  function FilteredProducts(products: seq<RecycledProduct>, f: TypeFilter, q: string): (r: seq<RecycledProduct>)
    ensures forall k :: 0 <= k < |products| ==>
              (products[k] in r <==> MatchesType(products[k], f) && MatchesSearch(products[k], q))
    ensures f.OfType? ==> forall k :: 0 <= k < |r| ==> r[k].productType == f.t
    ensures IsSubsequence(r, products)
  {
    var p := (x: RecycledProduct) => MatchesType(x, f) && MatchesSearch(x, q);
    FilterSubsequence(products, p);
    Filter(products, p)
  }

  /** With every type chosen and no search text, the whole catalogue is shown unchanged. */
  lemma ShowAll(products: seq<RecycledProduct>)
    ensures FilteredProducts(products, AllTypes, "") == products
  {
    assert ToLower("") == "";
    forall k | 0 <= k < |products|
      ensures MatchesSearch(products[k], "")
    {
      ContainsEmpty(ToLower(products[k].quantity));
    }
    FilterKeepsAll(products, (x: RecycledProduct) => MatchesType(x, AllTypes) && MatchesSearch(x, ""));
  }

  /** `clearanceProducts`: the FREE and DISCOUNT offers. */
  function ClearanceProducts(products: seq<RecycledProduct>): (r: seq<RecycledProduct>)
    ensures forall k :: 0 <= k < |products| ==>
              (products[k] in r <==> products[k].promotionType == Free || products[k].promotionType == Discount)
    ensures forall k :: 0 <= k < |r| ==> r[k] in products && r[k].promotionType != NoPromotion
  {
    Filter(products, (p: RecycledProduct) => p.promotionType == Free || p.promotionType == Discount)
  }

  // ------------------------------------------------------------- demand

  predicate InDemand(o: Order) {
    o.orderType == RecycleTrade && o.tradeDirection == Some(Buy) && o.status != Completed
  }

  /** `procurementOrders`: open RECYCLE_TRADE purchase orders. */
  function ProcurementOrders(orders: seq<Order>): (r: seq<Order>)
    ensures forall k :: 0 <= k < |orders| ==>
              (orders[k] in r <==> && orders[k].orderType == RecycleTrade && orders[k].tradeDirection == Some(Buy)
                                   && orders[k].status != Completed)
    ensures forall k :: 0 <= k < |r| ==> r[k] in orders && InDemand(r[k])
  {
    Filter(orders, InDemand)
  }

  /** A procurement order an enterprise has just placed shows up on the demand board. */
  lemma EnterpriseProcurementListed(profile: EnterpriseProfile, project: EnterpriseProject, now: nat,
                                    req: BuyRequirements, orders: seq<Order>)
    ensures var o := EnterpriseView.ProcurementOrder(profile, project, now, req);
            o in ProcurementOrders([o] + orders)
  {
    var o := EnterpriseView.ProcurementOrder(profile, project, now, req);
    assert ([o] + orders)[0] == o;
  }
}
