/**
 * The entities of the loyalty platform, reduced to the fields that the
 * ledger, the bottleneck radar and the navigation menu read or write.
 * Amounts of VND and of points are whole numbers; a merchant's point rate
 * is a fraction and is kept exact as a `real`.
 */
module Types {
  import opened Wrappers

  datatype Role = Admin | Director | Manager | Cashier | Member | Affiliate

  datatype User = User(
    id: string,
    email: string,
    role: Role,
    points: int,
    exp: int,
    streak: int,
    luckySpins: int,
    isBlacklisted: bool)

  /** A partner merchant: its VND escrow wallet and its point counters. */
  datatype Company = Company(
    id: string,
    pointRate: real,
    balance: int,
    totalPointsIssued: int,
    totalPointsRedeemed: int)

  datatype TxStatus = Completed | Pending | Voided | Flagged

  /**
   * One entry of the transaction log. `kind` is the type string the caller
   * passed (EARN, BURN, DEPOSIT, WITHDRAW, TRANSFER, or anything else);
   * the optional counters are absent rather than zero.
   */
  datatype Transaction = Transaction(
    id: string,
    userId: string,
    merchantId: string,
    amount: int,
    pointsEarned: Option<int>,
    pointsSpent: Option<int>,
    platformFee: Option<int>,
    kind: string,
    timestamp: int,
    status: TxStatus,
    receiverId: Option<string>)

  datatype TreasuryStats = TreasuryStats(
    totalLiability: int,
    escrowFund: int,
    safetyRatio: real,
    platformRevenue: int,
    breakageProfit: real,
    forecastBurn: real)

  datatype Category = Financial | Tech | Operational | Ux | Legal

  datatype BottleneckStatus = Stable | Clogged | Fixing | Resolved

  datatype Bottleneck = Bottleneck(
    id: string,
    category: Category,
    menuId: string,
    title: string,
    status: BottleneckStatus,
    score: int)
}
