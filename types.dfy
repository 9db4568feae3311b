/**
 * The domain vocabulary of types.ts: the closed enumerations (each with the
 * string value it carries at run time) and the records the store and the
 * views exchange.
 *
 * TypeScript numbers are modelled as `int` where the application only ever
 * stores whole numbers (timestamps, prices, fees, counters) and as `real`
 * for coordinates and ratings.  An optional property `x?: T` is an
 * `Option<T>`.  Properties typed `any` that the modelled code never reads
 * (`demolitionDetails`, `laborDetails`) are not part of the records.
 */
module Types {
  import opened Wrappers

  // ---------------------------------------------------------------- enums

  datatype OrderStatus =
    | Created | Analyzing | ReviewRequired | PendingPickup | InProgress
    | ArrivedPickup | LoadingComplete | ArrivedDisposal | Completed
  {
    /** Position in the declaration. */
    function Ordinal(): nat {
      match this
      case Created => 0
      case Analyzing => 1
      case ReviewRequired => 2
      case PendingPickup => 3
      case InProgress => 4
      case ArrivedPickup => 5
      case LoadingComplete => 6
      case ArrivedDisposal => 7
      case Completed => 8
    }

    function Key(): string {
      match this
      case Created => "CREATED"
      case Analyzing => "ANALYZING"
      case ReviewRequired => "REVIEW_REQUIRED"
      case PendingPickup => "PENDING_PICKUP"
      case InProgress => "IN_PROGRESS"
      case ArrivedPickup => "ARRIVED_PICKUP"
      case LoadingComplete => "LOADING_COMPLETE"
      case ArrivedDisposal => "ARRIVED_DISPOSAL"
      case Completed => "COMPLETED"
    }
  }

  /** The members of `OrderStatus` in declaration order, from CREATED to COMPLETED. */
  function AllOrderStatuses(): (r: seq<OrderStatus>)
    ensures |r| == 9 && r[0] == Created && r[8] == Completed
    ensures forall s: OrderStatus :: s.Ordinal() < |r| && r[s.Ordinal()] == s
    ensures forall i, j :: 0 <= i < j < |r| ==> r[i].Key() != r[j].Key()
  {
    [Created, Analyzing, ReviewRequired, PendingPickup, InProgress,
     ArrivedPickup, LoadingComplete, ArrivedDisposal, Completed]
  }

  datatype OrderType = WasteRemoval | RecycleTrade | Demolition | Labor
  {
    /** Position in the declaration. */
    function Ordinal(): nat {
      match this
      case WasteRemoval => 0
      case RecycleTrade => 1
      case Demolition => 2
      case Labor => 3
    }

    function Key(): string {
      match this
      case WasteRemoval => "WASTE_REMOVAL"
      case RecycleTrade => "RECYCLE_TRADE"
      case Demolition => "DEMOLITION"
      case Labor => "LABOR"
    }
  }

  function AllOrderTypes(): (r: seq<OrderType>)
    ensures |r| == 4
    ensures forall t: OrderType :: t.Ordinal() < |r| && r[t.Ordinal()] == t
    ensures forall i, j :: 0 <= i < j < |r| ==> r[i].Key() != r[j].Key()
  {
    [WasteRemoval, RecycleTrade, Demolition, Labor]
  }

  datatype WasteType =
    | General | Construction | Hazardous | Recyclable | Organic
    | Electronic | Bulky | Garden | Unknown
  {
    /** Position in the declaration. */
    function Ordinal(): nat {
      match this
      case General => 0
      case Construction => 1
      case Hazardous => 2
      case Recyclable => 3
      case Organic => 4
      case Electronic => 5
      case Bulky => 6
      case Garden => 7
      case Unknown => 8
    }

    function Key(): string {
      match this
      case General => "GENERAL"
      case Construction => "CONSTRUCTION"
      case Hazardous => "HAZARDOUS"
      case Recyclable => "RECYCLABLE"
      case Organic => "ORGANIC"
      case Electronic => "ELECTRONIC"
      case Bulky => "BULKY"
      case Garden => "GARDEN"
      case Unknown => "UNKNOWN"
    }
  }

  /** The nine waste categories, UNKNOWN last. */
  function AllWasteTypes(): (r: seq<WasteType>)
    ensures |r| == 9 && r[8] == Unknown
    ensures forall w: WasteType :: w.Ordinal() < |r| && r[w.Ordinal()] == w
    ensures forall i, j :: 0 <= i < j < |r| ==> r[i].Key() != r[j].Key()
  {
    [General, Construction, Hazardous, Recyclable, Organic, Electronic, Bulky, Garden, Unknown]
  }

  /** Reading a waste category back from its run-time string. */
  function WasteTypeFromKey(key: string): (r: Option<WasteType>)
    ensures r.Some? ==> r.value.Key() == key
    ensures r.None? ==> forall w: WasteType :: w.Key() != key
  {
    if key == "GENERAL" then Some(General)
    else if key == "CONSTRUCTION" then Some(Construction)
    else if key == "HAZARDOUS" then Some(Hazardous)
    else if key == "RECYCLABLE" then Some(Recyclable)
    else if key == "ORGANIC" then Some(Organic)
    else if key == "ELECTRONIC" then Some(Electronic)
    else if key == "BULKY" then Some(Bulky)
    else if key == "GARDEN" then Some(Garden)
    else if key == "UNKNOWN" then Some(Unknown)
    else None
  }

  datatype RecycledProductType =
    | StonePowder | Gravel | LightMaterial | ScrapIron | Wood | Plastic | Glass | Other
  {
    /** Position in the declaration. */
    function Ordinal(): nat {
      match this
      case StonePowder => 0
      case Gravel => 1
      case LightMaterial => 2
      case ScrapIron => 3
      case Wood => 4
      case Plastic => 5
      case Glass => 6
      case Other => 7
    }

    function Key(): string {
      match this
      case StonePowder => "STONE_POWDER"
      case Gravel => "GRAVEL"
      case LightMaterial => "LIGHT_MATERIAL"
      case ScrapIron => "SCRAP_IRON"
      case Wood => "WOOD"
      case Plastic => "PLASTIC"
      case Glass => "GLASS"
      case Other => "OTHER"
    }
  }

  /** The eight recycled products, OTHER last. */
  function AllRecycledProductTypes(): (r: seq<RecycledProductType>)
    ensures |r| == 8 && r[7] == RecycledProductType.Other
    ensures forall p: RecycledProductType :: p.Ordinal() < |r| && r[p.Ordinal()] == p
    ensures forall i, j :: 0 <= i < j < |r| ==> r[i].Key() != r[j].Key()
  {
    [StonePowder, Gravel, LightMaterial, ScrapIron, Wood, Plastic, Glass, RecycledProductType.Other]
  }

  datatype FacilityStatus = Open | Busy | Full
  {
    function Key(): string {
      match this
      case Open => "OPEN"
      case Busy => "BUSY"
      case Full => "FULL"
    }
  }

  datatype FacilityType = FixedDisposal | TempTransfer | MobileDisposal | DropOff

  datatype PromotionType = NoPromotion | Discount | Free
  {
    function Key(): string {
      match this
      case NoPromotion => "NONE"
      case Discount => "DISCOUNT"
      case Free => "FREE"
    }
  }

  datatype LaborServiceType = NoLabor | LoadingOnly | CarryAndLoad
  {
    /** Position in the declaration. */
    function Ordinal(): nat {
      match this
      case NoLabor => 0
      case LoadingOnly => 1
      case CarryAndLoad => 2
    }

    function Key(): string {
      match this
      case NoLabor => "NONE"
      case LoadingOnly => "LOADING_ONLY"
      case CarryAndLoad => "CARRY_AND_LOAD"
    }
  }

  function AllLaborServiceTypes(): (r: seq<LaborServiceType>)
    ensures |r| == 3
    ensures forall l: LaborServiceType :: l.Ordinal() < |r| && r[l.Ordinal()] == l
    ensures forall i, j :: 0 <= i < j < |r| ==> r[i].Key() != r[j].Key()
  {
    [NoLabor, LoadingOnly, CarryAndLoad]
  }

  datatype CollectionMethod = Immediate | Container
  {
    /** Position in the declaration. */
    function Ordinal(): nat {
      match this
      case Immediate => 0
      case Container => 1
    }

    function Key(): string {
      match this
      case Immediate => "IMMEDIATE"
      case Container => "CONTAINER"
    }
  }

  function AllCollectionMethods(): (r: seq<CollectionMethod>)
    ensures |r| == 2
    ensures forall m: CollectionMethod :: m.Ordinal() < |r| && r[m.Ordinal()] == m
    ensures r[0].Key() != r[1].Key()
  {
    [Immediate, Container]
  }

  datatype UserRole =
    | Client | Driver | Disposal | Property | Government | Fleet | Enterprise | Worker

  datatype MediaType = Image | Video

  datatype SettlementMethod = Platform | Direct

  /** `disposalSettlementStatus`: 'UNPAID' | 'PAID' | 'PENDING_PLATFORM'. */
  datatype SettlementStatus = SettlementUnpaid | SettlementPaid | PendingPlatform

  /** `paymentStatus`: 'UNPAID' | 'PAID' | 'CREDIT' | 'MONTHLY_BILL'. */
  datatype PaymentStatus = Unpaid | Paid | Credit | MonthlyBill

  datatype TradeDirection = Buy | Sell

  /** 'PENDING' | 'VERIFIED' | 'REJECTED' of every profile. */
  datatype ProfileStatus = Pending | Verified | Rejected

  /** `ProjectStatus`: 'APPROVED' | 'PENDING' | 'REJECTED'. */
  datatype ProjectStatus = Approved | Pending | Rejected

  datatype SyncStatus = Pending | Synced | Failed

  datatype NoticeType = Notice | Alert | Meeting | Activity

  datatype FeeUnit = Truck | Ton | Cubic

  datatype SupplierStatus = Active | Inactive

  datatype WorkerStatus = Available | Busy

  datatype ApplicantRole = Owner | Tenant | Contractor

  datatype ProjectType = Residential | Commercial

  datatype ComplaintType = IllegalDumping | Noise | Odor | OtherComplaint

  datatype ComplaintStatus = Pending | Resolved

  datatype Sender = AI | User

  // -------------------------------------------------------------- records

  datatype GeoLocation = GeoLocation(lat: real, lng: real, address: Option<string>)

  /** `WasteAnalysisResult`: one labour recommendation and one collection method per result. */
  datatype WasteAnalysis = WasteAnalysis(
    wasteType: WasteType,
    estimatedWeightKg: int,
    estimatedVolume: string,
    estimatedPrice: int,
    description: string,
    recommendedVehicle: string,
    hazardWarning: Option<string>,
    isBagged: bool,
    isCollected: bool,
    laborServiceRecommendation: LaborServiceType,
    recommendedCollectionMethod: CollectionMethod)

  datatype PickupDetails = PickupDetails(
    city: string,
    district: string,
    street: string,
    community: string,
    isCollected: bool,
    locationType: string,
    building: Option<string>,
    unit: Option<string>,
    roomNumber: Option<string>,
    contractorName: Option<string>,
    projectName: Option<string>)

  /**
   * `Order.assignedDriver`.  types.ts declares name, phone and plate
   * required, but `updateStatus` builds this object by spreading a partial
   * literal over the old value (or over `{}`), so at run time any of them can
   * be missing; every field is therefore optional here and `DeclaredShape`
   * states the declared form.
   */
  datatype Assignment = Assignment(
    name: Option<string>,
    phone: Option<string>,
    plate: Option<string>,
    fleetName: Option<string>,
    fleetId: Option<string>)
  {
    predicate DeclaredShape() {
      name.Some? && phone.Some? && plate.Some?
    }
  }

  /** The object the worker view stores in `assignedWorker`. */
  datatype WorkerAssignment = WorkerAssignment(name: string, phone: string, teamName: Option<string>)

  /** The object the enterprise view stores in `buyRequirements`; `None` price is `NaN`. */
  datatype BuyRequirements = BuyRequirements(
    productType: RecycledProductType,
    quantity: string,
    targetPrice: Option<real>)

  datatype Order = Order(
    id: string,
    userId: string,
    createdAt: int,
    status: OrderStatus,
    orderType: OrderType,
    location: GeoLocation,
    mediaType: MediaType,
    mediaData: string,
    analysis: Option<WasteAnalysis>,
    assignedDriver: Option<Assignment>,
    pickupDetails: Option<PickupDetails>,
    disposalFee: Option<int>,
    disposalSettlementMethod: Option<SettlementMethod>,
    disposalSettlementStatus: Option<SettlementStatus>,
    disposalFacilityId: Option<string>,
    disposalFacilityName: Option<string>,
    loadingPhoto: Option<string>,
    disposalEntryPhoto: Option<string>,
    paymentStatus: Option<PaymentStatus>,
    tradeDirection: Option<TradeDirection>,
    assignedWorker: Option<WorkerAssignment>,
    buyRequirements: Option<BuyRequirements>,
    manifestSerialNo: Option<string>)

  /** An order literal that sets only the required properties. */
  function NewOrder(id: string, userId: string, createdAt: int, status: OrderStatus,
                    orderType: OrderType, location: GeoLocation, mediaType: MediaType,
                    mediaData: string): (o: Order)
    ensures o.id == id && o.userId == userId && o.createdAt == createdAt
    ensures o.status == status && o.orderType == orderType
    ensures o.analysis.None? && o.assignedDriver.None? && o.pickupDetails.None?
    ensures o.paymentStatus.None? && o.assignedWorker.None?
  {
    Order(id, userId, createdAt, status, orderType, location, mediaType, mediaData,
          None, None, None, None, None, None, None, None, None, None, None, None, None, None, None)
  }

  /** `o.analysis?.estimatedPrice || 0`: the price the ledgers add up. */
  function PriceOrZero(o: Order): int {
    if o.analysis.Some? then o.analysis.value.estimatedPrice else 0
  }

  datatype FeeConfig = FeeConfig(wasteType: WasteType, pricePerUnit: int, unit: FeeUnit)

  datatype DisposalProfile = DisposalProfile(
    id: string,
    name: string,
    address: string,
    location: GeoLocation,
    contactPhone: string,
    licenseImageUrl: string,
    status: ProfileStatus,
    joinedAt: int,
    operationalStatus: FacilityStatus,
    facilityType: FacilityType,
    specialty: string,
    allowedWasteTypes: seq<WasteType>,
    feeConfigs: seq<FeeConfig>,
    preferredSettlement: SettlementMethod,
    description: Option<string>)

  datatype RecycledProduct = RecycledProduct(
    id: string,
    productType: RecycledProductType,
    quantity: string,
    estimatedValue: int,
    imageUrl: string,
    createdAt: int,
    facilityName: string,
    facilityLocation: string,
    contactPhone: string,
    promotionType: PromotionType,
    facilityStatus: Option<FacilityStatus>,
    facilitySpecialty: Option<string>)

  datatype GovernmentNotice = GovernmentNotice(
    id: string,
    title: Option<string>,
    content: string,
    time: int,
    noticeType: NoticeType,
    targetRoles: Option<seq<UserRole>>)

  datatype FleetProject = FleetProject(
    id: string,
    name: string,
    address: string,
    permitImageUrl: string,
    status: ProjectStatus,
    createdAt: int,
    ownerId: Option<string>)

  datatype ExternalSync = ExternalSync(
    platformName: string,
    externalId: string,
    syncStatus: SyncStatus,
    lastSyncTime: int)

  /** `EnterpriseProject extends FleetProject`. */
  datatype EnterpriseProject = EnterpriseProject(
    id: string,
    name: string,
    address: string,
    permitImageUrl: string,
    status: ProjectStatus,
    createdAt: int,
    ownerId: Option<string>,
    location: GeoLocation,
    externalSync: Option<ExternalSync>,
    hasConstructionPermit: bool,
    hasDischargePermit: bool)

  datatype RenovationApplication = RenovationApplication(
    id: string,
    userId: string,
    applicantName: string,
    applicantPhone: string,
    applicantRole: ApplicantRole,
    projectType: ProjectType,
    communityName: string,
    roomNumber: string,
    renovationCompany: Option<string>,
    startDate: int,
    estimatedDurationDays: int,
    status: ProjectStatus,
    createdAt: int,
    permitId: Option<string>)

  datatype DriverProfile = DriverProfile(
    id: string,
    name: string,
    phone: string,
    licenseNumber: string,
    vehiclePlate: string,
    vehicleType: string,
    status: ProfileStatus,
    joinedAt: int,
    licenseImageUrl: string,
    fleetName: Option<string>,
    isIndependent: bool)

  datatype PropertySupplier = PropertySupplier(
    id: string,
    name: string,
    manager: string,
    phone: string,
    truckCount: int,
    rating: real,
    status: SupplierStatus,
    contractUntil: int)

  datatype PropertyProfile = PropertyProfile(
    id: string,
    name: string,
    contactPhone: string,
    managedCommunities: seq<string>,
    status: ProfileStatus,
    suppliers: Option<seq<PropertySupplier>>)

  datatype GovernmentProfile = GovernmentProfile(
    id: string,
    regionName: string,
    department: string,
    status: ProfileStatus)

  datatype FleetProfile = FleetProfile(
    id: string,
    name: string,
    managerName: string,
    totalVehicles: int,
    safetyScore: int,
    isAuthorizedPrint: bool,
    status: ProfileStatus,
    projects: seq<FleetProject>)

  datatype EnterpriseProfile = EnterpriseProfile(
    id: string,
    companyName: string,
    contactPhone: string,
    creditLimit: int,
    usedCredit: int,
    billingCycle: string,
    activeProjects: seq<EnterpriseProject>,
    status: ProfileStatus,
    contractPricePerTruck: Option<int>)

  datatype WorkerProfile = WorkerProfile(
    id: string,
    name: string,
    phone: string,
    teamName: Option<string>,
    skills: seq<string>,
    rating: real,
    status: WorkerStatus,
    profileStatus: ProfileStatus)

  datatype ClientProfile = ClientProfile(
    id: string,
    name: string,
    phone: string,
    defaultAddress: Option<string>,
    status: ProfileStatus)

  datatype ComplaintEvent = ComplaintEvent(
    id: string,
    userId: string,
    complaintType: ComplaintType,
    location: GeoLocation,
    description: string,
    mediaData: string,
    status: ComplaintStatus,
    createdAt: int)

  datatype ChatMessage = ChatMessage(
    id: string,
    text: string,
    sender: Sender,
    timestamp: int,
    actionLink: Option<string>)
}
