/**
 * The records and enumerations the canister stores and returns, as declared in
 * `types.rs` and `investment.rs`. Every `u64` field is a `nat`; the floating-point
 * fields (`rental_yield`, `appreciation_rate`, `price_change_24h`, `liquidity_score`
 * and the whole `PerformanceMetrics` record) are not part of this model.
 */
module Types {

  import opened Wrappers

  /** The largest value of a Rust `u64`. */
  const MaxU64: nat := 0xFFFF_FFFF_FFFF_FFFF

  /** `ic_cdk::api::time()` counts nanoseconds. */
  const NanosPerSecond: nat := 1_000_000_000
  const NanosPerHour: nat := 3600 * NanosPerSecond
  const NanosPerDay: nat := 24 * NanosPerHour

  /** A duration given in hours (`hours * 3600 * 1_000_000_000`), in nanoseconds. */
  function HoursInNanos(hours: nat): nat
  {
    hours * NanosPerHour
  }

  /** The price of `tokens` tokens at `price` each (`token_amount * price_per_token`). */
  function Cost(tokens: nat, price: nat): nat
  {
    tokens * price
  }

  /** An Internet Computer principal, as its raw bytes. */
  datatype Principal = Principal(bytes: seq<bv8>)

  /** `Principal::anonymous()`, the principal of an unauthenticated caller (the single byte 0x04). */
  const Anonymous: Principal := Principal([4])

  datatype PropertyType = Residential | Commercial | Industrial | Land | Trophy

  datatype PropertyStatus = Active | Sold | Pending | Inactive | UnderMaintenance

  datatype Property = Property(
    id: nat,
    title: string,
    description: string,
    location: string,
    totalValue: nat,
    totalTokens: nat,
    availableTokens: nat,
    pricePerToken: nat,
    owner: Principal,
    createdAt: nat,
    updatedAt: nat,
    propertyType: PropertyType,
    status: PropertyStatus,
    images: seq<string>,
    documents: seq<string>,
    propertyHighlights: seq<string>,
    legalStructure: string,
    valuationDate: nat,
    nextDividendDate: nat)

  datatype CreatePropertyPayload = CreatePropertyPayload(
    title: string,
    description: string,
    location: string,
    totalValue: nat,
    totalTokens: nat,
    propertyType: PropertyType,
    images: seq<string>,
    documents: seq<string>,
    propertyHighlights: seq<string>,
    legalStructure: string)

  /** Declared in `investment.rs`. */
  datatype InvestmentStatus = Pending | Confirmed | Cancelled

  /** Declared in `investment.rs`. */
  datatype Investment = Investment(
    id: nat,
    investor: Principal,
    propertyId: nat,
    tokenAmount: nat,
    investmentAmount: nat,
    timestamp: nat,
    status: InvestmentStatus)

  /** Declared in `investment.rs`. */
  datatype InvestmentPayload = InvestmentPayload(propertyId: nat, tokenAmount: nat)

  datatype OrderType = Buy | Sell

  datatype OrderStatus = Active | Filled | Cancelled | Expired

  datatype TokenOrder = TokenOrder(
    id: nat,
    propertyId: nat,
    seller: Principal,
    buyer: Option<Principal>,
    tokenAmount: nat,
    pricePerToken: nat,
    totalPrice: nat,
    orderType: OrderType,
    status: OrderStatus,
    createdAt: nat,
    expiresAt: nat)

  datatype CreateOrderPayload = CreateOrderPayload(
    propertyId: nat,
    tokenAmount: nat,
    pricePerToken: nat,
    orderType: OrderType,
    expiresInHours: nat)

  datatype PaymentStatus = Pending | Processing | Completed | Failed

  datatype DividendRecipient = DividendRecipient(
    investor: Principal,
    tokenAmount: nat,
    dividendAmount: nat,
    paid: bool)

  datatype DividendDistribution = DividendDistribution(
    id: nat,
    propertyId: nat,
    totalAmount: nat,
    perTokenAmount: nat,
    distributionDate: nat,
    paymentStatus: PaymentStatus,
    recipients: seq<DividendRecipient>)

  datatype PortfolioProperty = PortfolioProperty(
    propertyId: nat,
    tokenAmount: nat,
    initialInvestment: nat,
    currentValue: nat,
    dividendsReceived: nat,
    purchaseDate: nat)

  datatype Portfolio = Portfolio(
    owner: Principal,
    totalValue: nat,
    totalTokens: nat,
    properties: seq<PortfolioProperty>,
    totalDividendsReceived: nat)

  datatype ProposalType = PropertyMaintenance | PropertySale | ManagementChange | DividendDistribution | Other

  datatype ProposalStatus = Active | Passed | Rejected | Executed

  datatype GovernanceProposal = GovernanceProposal(
    id: nat,
    propertyId: nat,
    proposer: Principal,
    title: string,
    description: string,
    proposalType: ProposalType,
    votingPowerRequired: nat,
    votesFor: nat,
    votesAgainst: nat,
    status: ProposalStatus,
    createdAt: nat,
    votingEndsAt: nat)

  datatype KycLevel = Basic | Standard | Premium | Institutional

  datatype KycVerification = KycVerification(
    user: Principal,
    verificationLevel: KycLevel,
    documentsSubmitted: seq<string>,
    verificationDate: nat,
    expiryDate: nat,
    verifiedBy: string,
    complianceScore: nat)

  datatype KycStatus = Pending | Verified | Rejected | Expired

  datatype RiskProfile = Conservative | Moderate | Aggressive

  datatype UserProfile = UserProfile(
    principal: Principal,
    name: string,
    email: string,
    kycStatus: KycStatus,
    kycVerification: Option<KycVerification>,
    createdAt: nat,
    totalInvestments: nat,
    investmentLimit: nat,
    accreditedInvestor: bool,
    jurisdiction: string,
    riskProfile: RiskProfile)

  datatype MarketData = MarketData(
    propertyId: nat,
    currentPrice: nat,
    tradingVolume24h: nat,
    marketCap: nat,
    lastUpdated: nat)

  datatype PlatformStats = PlatformStats(
    totalProperties: nat,
    totalInvestments: nat,
    totalUsers: nat,
    totalValueLocked: nat,
    totalTradingVolume: nat,
    activeOrders: nat,
    totalDividendsPaid: nat,
    platformFeeCollected: nat)
}
