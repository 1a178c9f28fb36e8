/** The records that the filter's event loop and its window statistics share. */
module FilterTypes {
  import opened Wrappers

  type Address = string
  type Mint = string

  /** A decoded buy. `lamports` estimates the SOL paid; `detectedAt` is monotonic, `detectedAtMs` wall-clock. */
  datatype Buy = Buy(
    mint: Mint,
    buyer: Address,
    feedSource: string,
    tokenProgram: Address,
    lamports: nat,
    instructionData: seq<nat>,
    instructionAccounts: seq<Address>,
    signature: string,
    detectedAtMs: nat,
    detectedAt: nat)

  datatype CreatorProfile = CreatorProfile(firstFunder: Option<Address>)

  datatype BuyerProfile = BuyerProfile(firstFunder: Option<Address>)

  datatype Tier = Preheat | Base | Confirmed

  datatype Status = CreatorPending | Active | Finalizing

  datatype Gate3Path = Fast | Soft

  datatype Trace = Trace(
    gate1AtMs: Option<nat>,
    gate2AtMs: Option<nat>,
    gate3OpenAtMs: Option<nat>,
    gate3TriggerAtMs: Option<nat>,
    gate4AtMs: Option<nat>,
    path: Option<Gate3Path>)

  /**
   * A token under evaluation. `admission` numbers the insertions into the candidate map and `log`
   * lists the deliveries merged into `earlyBuys`; both are history that no handler reads.
   */
  datatype Candidate = Candidate(
    admission: nat,
    mint: Mint,
    creator: Address,
    createdAt: nat,
    detectedAtMs: nat,
    status: Status,
    gate1Penalty: nat,
    templateRepeats: nat,
    narrativeTiers: seq<Tier>,
    gate2Penalty: nat,
    earlyBuys: seq<Buy>,
    buySignatures: set<string>,
    creatorProfile: Option<CreatorProfile>,
    buyerProfiles: map<Address, BuyerProfile>,
    pendingBuyerProfiles: set<Address>,
    trace: Trace,
    log: seq<Buy>)

  datatype HotLists = HotLists(
    smartMoney: set<Address>,
    smartMoneyFunders: set<Address>,
    blockedBuyers: set<Address>)

  /** The configuration fields read by gate 3 and by scoring. SOL amounts and shares are exact reals. */
  datatype Config = Config(
    hasApiKey: bool,
    disableSmartMoneyFilter: bool,
    smartMoneyThreshold: nat,
    smartMoneyFastThreshold: nat,
    softWindowMs: nat,
    fastWindowMs: nat,
    windowSecs: nat,
    hardRejectMs: nat,
    maxBuys: nat,
    fastMinSol: real,
    softMinSol: real,
    selfBuyBlock: bool,
    selfBuyMaxSol: real,
    selfBuyHardSol: real,
    selfBuyMaxShare: real,
    selfBuyHardShare: real,
    selfBuyMinExternalBuyers: nat,
    selfBuyMinExternalSol: real,
    concentrationReject: bool,
    concentrationMinBuys: nat,
    maxSingleBuyerShare: real,
    narrativeCap: nat,
    preheatPerHit: nat,
    basePerHit: nat,
    confirmedPerHit: nat,
    confirmedFastRelief: nat,
    sniperFilter: bool,
    sniperMinSol: real,
    sniperMinQuality: real,
    sniperMaxCurve: real,
    sniperMaxRisk: nat,
    riskCap: nat,
    riskConcentration: nat,
    riskLiquidity: nat,
    riskCreatorFunder: nat,
    riskTemplateThreshold: nat,
    riskTemplate: nat,
    fastMinScore: nat,
    softMinScore: nat,
    minScore: nat)

  /** What a handler reads from outside the loop while it runs: hot lists, both clocks, and remote lookups. */
  datatype Env = Env(
    hot: HotLists,
    nowMs: nat,
    now: nat,
    curveProgressPct: real,
    buyerQualityPct: real,
    clusterWallets: nat,
    clusterRugs: nat)
}
