/**
 * The points/VND ledger of the loyalty platform: the users with their
 * point balances, the partner merchants with their escrow wallets, and the
 * transaction log (newest first), together with the handlers that move
 * points and VND between them and the read-only treasury summary.
 *
 * Each handler is one atomic step. A rejection is reported as
 * `Rejected(reason)` and leaves every part of the state as it was.
 * Transaction ids, timestamps and the lucky-spin draw are parameters.
 */
module Ledger {
  import opened Wrappers
  import opened Types

  /** VND per point. */
  const POINT_VALUE: int := 1000
  /** Share of a redemption's cash value kept by the platform (1.5%). */
  const PLATFORM_FEE_RATE: real := 0.015
  /** Point rate used when the merchant is unknown or its rate is zero. */
  const DEFAULT_POINT_RATE: real := 0.1
  /** VND of spending per point of experience. */
  const VND_PER_EXP: int := 1000
  const CHECK_IN_POINTS: int := 10
  const SPIN_REWARDS: seq<int> := [50, 100, 200, 500, 1000]
  /** Merchant id recorded on a peer-to-peer transfer. */
  const SYSTEM_MERCHANT: string := "SYSTEM"
  /** Safety ratio reported when there is no outstanding liability. */
  const NO_LIABILITY_RATIO: real := 2.0
  const BREAKAGE_RATE: real := 0.05
  const FORECAST_BURN_RATE: real := 0.1

  datatype Reason =
    | BlacklistedActor
    | InsufficientMerchantEscrow
    | InsufficientUserPoints
    | ReceiverNotFound
    | SelfTransferRejected
    | NoSpinsLeft

  datatype Outcome = Ok | Rejected(reason: Reason)

  // ---------------------------------------------------------------------
  // Invariants of the seed data that no handler can break
  // ---------------------------------------------------------------------

  ghost predicate UniqueUserIds(us: seq<User>) {
    forall a, b :: 0 <= a < b < |us| ==> us[a].id != us[b].id
  }

  ghost predicate UniqueCompanyIds(cs: seq<Company>) {
    forall a, b :: 0 <= a < b < |cs| ==> cs[a].id != cs[b].id
  }

  ghost predicate RatesNonNegative(cs: seq<Company>) {
    forall k :: 0 <= k < |cs| ==> cs[k].pointRate >= 0.0
  }

  // The two balance invariants the handlers are meant to protect.

  ghost predicate PointsNonNegative(us: seq<User>) {
    forall k :: 0 <= k < |us| ==> us[k].points >= 0
  }

  ghost predicate EscrowNonNegative(cs: seq<Company>) {
    forall k :: 0 <= k < |cs| ==> cs[k].balance >= 0
  }

  // ---------------------------------------------------------------------
  // Lookups
  // ---------------------------------------------------------------------

  /** `users.findIndex(u => u.id === id)` */
  function FindUserById(us: seq<User>, id: string): (r: Option<nat>)
    ensures r.Some? ==> r.value < |us|
  {
    if |us| == 0 then None
    else if us[0].id == id then Some(0)
    else match FindUserById(us[1..], id)
      case None => None
      case Some(k) => Some(k + 1)
  }

  /** The lookup finds the first position holding `id`, and misses only when there is none. */
  lemma {:induction false} FindUserByIdIsFirst(us: seq<User>, id: string)
    ensures var r := FindUserById(us, id);
            && (r.Some? ==> r.value < |us| && us[r.value].id == id)
            && (r.Some? ==> forall j :: 0 <= j < r.value ==> us[j].id != id)
            && (r.None? ==> forall j :: 0 <= j < |us| ==> us[j].id != id)
  {
    if |us| > 0 && us[0].id != id {
      FindUserByIdIsFirst(us[1..], id);
    }
  }

  /** `users.find(u => u.email === email)`, as a position. */
  function FindUserByEmail(us: seq<User>, email: string): (r: Option<nat>)
    ensures r.Some? ==> r.value < |us|
  {
    if |us| == 0 then None
    else if us[0].email == email then Some(0)
    else match FindUserByEmail(us[1..], email)
      case None => None
      case Some(k) => Some(k + 1)
  }

  /** The lookup finds the first position holding `email`, and misses only when there is none. */
  lemma {:induction false} FindUserByEmailIsFirst(us: seq<User>, email: string)
    ensures var r := FindUserByEmail(us, email);
            && (r.Some? ==> r.value < |us| && us[r.value].email == email)
            && (r.Some? ==> forall j :: 0 <= j < r.value ==> us[j].email != email)
            && (r.None? ==> forall j :: 0 <= j < |us| ==> us[j].email != email)
  {
    if |us| > 0 && us[0].email != email {
      FindUserByEmailIsFirst(us[1..], email);
    }
  }

  /** `users.find(u => u.role === role)`, as a position. */
  function FindUserByRole(us: seq<User>, role: Role): (r: Option<nat>)
    ensures r.Some? ==> r.value < |us|
  {
    if |us| == 0 then None
    else if us[0].role == role then Some(0)
    else match FindUserByRole(us[1..], role)
      case None => None
      case Some(k) => Some(k + 1)
  }

  /** The lookup finds the first position holding `role`, and misses only when there is none. */
  lemma {:induction false} FindUserByRoleIsFirst(us: seq<User>, role: Role)
    ensures var r := FindUserByRole(us, role);
            && (r.Some? ==> r.value < |us| && us[r.value].role == role)
            && (r.Some? ==> forall j :: 0 <= j < r.value ==> us[j].role != role)
            && (r.None? ==> forall j :: 0 <= j < |us| ==> us[j].role != role)
  {
    if |us| > 0 && us[0].role != role {
      FindUserByRoleIsFirst(us[1..], role);
    }
  }

  /** `companies.findIndex(c => c.id === id)` */
  function FindCompany(cs: seq<Company>, id: string): (r: Option<nat>)
    ensures r.Some? ==> r.value < |cs|
  {
    if |cs| == 0 then None
    else if cs[0].id == id then Some(0)
    else match FindCompany(cs[1..], id)
      case None => None
      case Some(k) => Some(k + 1)
  }

  /** The lookup finds the first position holding `id`, and misses only when there is none. */
  lemma {:induction false} FindCompanyIsFirst(cs: seq<Company>, id: string)
    ensures var r := FindCompany(cs, id);
            && (r.Some? ==> r.value < |cs| && cs[r.value].id == id)
            && (r.Some? ==> forall j :: 0 <= j < r.value ==> cs[j].id != id)
            && (r.None? ==> forall j :: 0 <= j < |cs| ==> cs[j].id != id)
  {
    if |cs| > 0 && cs[0].id != id {
      FindCompanyIsFirst(cs[1..], id);
    }
  }

  /**
   * The acting user: the first user with the session's id, or the first
   * user of all when no user has it.
   */
  function ActingIndex(us: seq<User>, id: string): (i: nat)
    requires |us| > 0
    ensures i < |us|
    ensures us[i].id == id || (i == 0 && forall k :: 0 <= k < |us| ==> us[k].id != id)
    ensures forall k :: 0 <= k < i ==> us[k].id != id
  {
    FindUserByIdIsFirst(us, id);
    match FindUserById(us, id)
    case Some(k) => k
    case None => 0
  }

  /** The user a role switch selects: the first with that role, else the first user. */
  function RoleSwitchIndex(us: seq<User>, role: Role): (i: nat)
    requires |us| > 0
    ensures i < |us|
    ensures us[i].role == role || (i == 0 && forall k :: 0 <= k < |us| ==> us[k].role != role)
    ensures forall k :: 0 <= k < i ==> us[k].role != role
  {
    FindUserByRoleIsFirst(us, role);
    match FindUserByRole(us, role)
    case Some(k) => k
    case None => 0
  }

  /** With distinct ids, looking a user up by its own id finds that user. */
  lemma ActingIndexOfOwnId(us: seq<User>, k: nat)
    requires k < |us| && UniqueUserIds(us)
    ensures ActingIndex(us, us[k].id) == k
  {
    assert us[ActingIndex(us, us[k].id)].id == us[k].id;
  }

  /** `companies.find(c => c.id === id)`: the first company with the id, if there is one. */
  function MerchantOf(cs: seq<Company>, id: string): (m: Option<Company>)
    ensures m.Some? ==> m.value.id == id
    ensures m.Some? ==> exists k :: 0 <= k < |cs| && cs[k] == m.value && forall j :: 0 <= j < k ==> cs[j].id != id
    ensures m.None? ==> forall k :: 0 <= k < |cs| ==> cs[k].id != id
  {
    FindCompanyIsFirst(cs, id);
    match FindCompany(cs, id)
    case Some(k) => Some(cs[k])
    case None => None
  }

  // ---------------------------------------------------------------------
  // Arithmetic of the four merchant transaction types
  // ---------------------------------------------------------------------

  /** `merchant?.pointRate || 0.1` */
  function RateOf(m: Option<Company>): (r: real)
    ensures r != 0.0
    ensures m.Some? && m.value.pointRate != 0.0 ==> r == m.value.pointRate
    ensures m.None? || m.value.pointRate == 0.0 ==> r == DEFAULT_POINT_RATE
    ensures (m.Some? ==> m.value.pointRate >= 0.0) ==> r > 0.0
  {
    if m.Some? && m.value.pointRate != 0.0 then m.value.pointRate else DEFAULT_POINT_RATE
  }

  /** `Math.floor(amount * rate / 1000)`, on exact reals. */
  function PointsEarned(amount: int, rate: real): int {
    (amount as real * rate / POINT_VALUE as real).Floor
  }

  /** The points earned are the largest whole number of points the spend is worth. */
  lemma PointsEarnedIsFloor(amount: int, rate: real)
    ensures var e := PointsEarned(amount, rate);
            (e * POINT_VALUE) as real <= amount as real * rate < ((e + 1) * POINT_VALUE) as real
  {
  }

  /** Spending a non-negative amount at a non-negative rate never takes points away. */
  lemma EarnedNonNegative(amount: int, rate: real)
    requires amount >= 0 && rate >= 0.0
    ensures PointsEarned(amount, rate) >= 0
  {
    PointsEarnedIsFloor(amount, rate);
    assert 0.0 <= amount as real * rate by {
      if amount > 0 && rate > 0.0 {
        assert amount as real * rate > 0.0;
      }
    }
  }

  /** `Math.floor(amount / 1000)`: Dafny's division by a positive divisor floors. */
  function ExpGain(amount: int): (g: int)
    ensures g * VND_PER_EXP <= amount < (g + 1) * VND_PER_EXP
  {
    amount / VND_PER_EXP
  }

  /** `options?.burnPoints || amount`: a zero or absent override falls back to `amount`. */
  function SpentPoints(amount: int, burnPoints: Option<int>): (p: int)
    ensures burnPoints.Some? && burnPoints.value != 0 ==> p == burnPoints.value
    ensures burnPoints.None? || burnPoints.value == 0 ==> p == amount
    ensures p == 0 ==> amount == 0
  {
    if burnPoints.Some? && burnPoints.value != 0 then burnPoints.value else amount
  }

  /**
   * The platform's cut of a redemption of `spent` points. A point is worth
   * 1000 VND, so 1.5% of the cash value is a whole 15 VND per point.
   */
  function PlatformFee(spent: int): (fee: int)
    ensures fee as real == (spent * POINT_VALUE) as real * PLATFORM_FEE_RATE
    ensures spent * POINT_VALUE - fee == 985 * spent
  {
    15 * spent
  }

  /** `x || undefined` on a counter: zero is recorded as absent. */
  function OmitZero(x: int): (r: Option<int>)
    ensures r.None? <==> x == 0
    ensures r.Some? ==> r.value == x
  {
    if x == 0 then None else Some(x)
  }

  /** The record a completed merchant transaction prepends to the log. */
  function Receipt(txId: string, userId: string, merchantId: string, amount: int,
                   earned: int, spent: int, fee: int, kind: string, now: int): (t: Transaction)
    ensures FeeOrZero(t) == fee
    ensures t.status == Completed && t.receiverId.None?
  {
    Transaction(txId, userId, merchantId, amount, OmitZero(earned), OmitZero(spent),
                OmitZero(fee), kind, now, Completed, None)
  }

  /** An update that keeps every user's id keeps the ids distinct. */
  lemma SameIdsStayUnique(us: seq<User>, vs: seq<User>)
    requires |vs| == |us| && UniqueUserIds(us)
    requires forall k :: 0 <= k < |us| ==> vs[k].id == us[k].id
    ensures UniqueUserIds(vs)
  {
  }

  /** An update that keeps every company's id and rate keeps the seed invariants. */
  lemma SameIdsAndRatesStayValid(cs: seq<Company>, ds: seq<Company>)
    requires |ds| == |cs| && UniqueCompanyIds(cs) && RatesNonNegative(cs)
    requires forall k :: 0 <= k < |cs| ==> ds[k].id == cs[k].id && ds[k].pointRate == cs[k].pointRate
    ensures UniqueCompanyIds(ds) && RatesNonNegative(ds)
  {
  }

  // ---------------------------------------------------------------------
  // Entry updates: `list.map(x => x.id === id ? changed : x)`
  // ---------------------------------------------------------------------

  function Adjusted(c: Company, dBalance: int, dIssued: int, dRedeemed: int): Company {
    c.(balance := c.balance + dBalance,
       totalPointsIssued := c.totalPointsIssued + dIssued,
       totalPointsRedeemed := c.totalPointsRedeemed + dRedeemed)
  }

  /** Every company with the given id, adjusted; all others as they were. */
  function AdjustMerchant(cs: seq<Company>, id: string, dBalance: int, dIssued: int, dRedeemed: int): (r: seq<Company>)
    ensures |r| == |cs|
  {
    if |cs| == 0 then []
    else [if cs[0].id == id then Adjusted(cs[0], dBalance, dIssued, dRedeemed) else cs[0]]
         + AdjustMerchant(cs[1..], id, dBalance, dIssued, dRedeemed)
  }

  /** The map adjusts exactly the companies carrying the id. */
  lemma {:induction false} AdjustMerchantPointwise(cs: seq<Company>, id: string, dBalance: int, dIssued: int, dRedeemed: int)
    ensures var r := AdjustMerchant(cs, id, dBalance, dIssued, dRedeemed);
            forall k :: 0 <= k < |cs| ==>
              r[k] == if cs[k].id == id then Adjusted(cs[k], dBalance, dIssued, dRedeemed) else cs[k]
  {
    if |cs| > 0 {
      AdjustMerchantPointwise(cs[1..], id, dBalance, dIssued, dRedeemed);
    }
  }

  /**
   * With distinct company ids, the map over all companies changes at most
   * the one merchant the id names, keeps every id and rate, and moves the
   * escrow fund by exactly `dBalance` when that merchant exists.
   */
  lemma AdjustMerchantTouchesOne(cs: seq<Company>, id: string, dBalance: int, dIssued: int, dRedeemed: int)
    requires UniqueCompanyIds(cs)
    ensures FindCompany(cs, id).None? ==> AdjustMerchant(cs, id, dBalance, dIssued, dRedeemed) == cs
    ensures FindCompany(cs, id).Some? ==>
              var k := FindCompany(cs, id).value;
              AdjustMerchant(cs, id, dBalance, dIssued, dRedeemed) == cs[k := Adjusted(cs[k], dBalance, dIssued, dRedeemed)]
    ensures SumBalances(AdjustMerchant(cs, id, dBalance, dIssued, dRedeemed))
              == SumBalances(cs) + (if FindCompany(cs, id).Some? then dBalance else 0)
  {
    var r := AdjustMerchant(cs, id, dBalance, dIssued, dRedeemed);
    FindCompanyIsFirst(cs, id);
    AdjustMerchantPointwise(cs, id, dBalance, dIssued, dRedeemed);
    match FindCompany(cs, id)
    case None =>
      assert r == cs;
    case Some(k) =>
      forall j | 0 <= j < |cs| ensures r[j] == cs[k := Adjusted(cs[k], dBalance, dIssued, dRedeemed)][j] {
        if j != k {
          if j < k { assert cs[j].id != cs[k].id; } else { assert cs[k].id != cs[j].id; }
        }
      }
      assert r == cs[k := Adjusted(cs[k], dBalance, dIssued, dRedeemed)];
      SumBalancesUpdate(cs, k, Adjusted(cs[k], dBalance, dIssued, dRedeemed));
  }

  function AdjustedUser(u: User, dPoints: int, dStreak: int, dSpins: int): User {
    u.(points := u.points + dPoints, streak := u.streak + dStreak, luckySpins := u.luckySpins + dSpins)
  }

  /** Every user with the given id, adjusted; all others as they were. */
  function AdjustUser(us: seq<User>, id: string, dPoints: int, dStreak: int, dSpins: int): (r: seq<User>)
    ensures |r| == |us|
  {
    if |us| == 0 then []
    else [if us[0].id == id then AdjustedUser(us[0], dPoints, dStreak, dSpins) else us[0]]
         + AdjustUser(us[1..], id, dPoints, dStreak, dSpins)
  }

  /** The map adjusts exactly the users carrying the id. */
  lemma {:induction false} AdjustUserPointwise(us: seq<User>, id: string, dPoints: int, dStreak: int, dSpins: int)
    ensures var r := AdjustUser(us, id, dPoints, dStreak, dSpins);
            forall k :: 0 <= k < |us| ==>
              r[k] == if us[k].id == id then AdjustedUser(us[k], dPoints, dStreak, dSpins) else us[k]
  {
    if |us| > 0 {
      AdjustUserPointwise(us[1..], id, dPoints, dStreak, dSpins);
    }
  }

  /**
   * With distinct user ids, adjusting by a user's own id changes that user
   * alone, moves the total of points by `dPoints`, keeps the ids distinct,
   * and keeps every balance non-negative when that user's stays so.
   */
  lemma AdjustUserTouchesOne(us: seq<User>, i: nat, dPoints: int, dStreak: int, dSpins: int)
    requires i < |us| && UniqueUserIds(us)
    ensures var r := AdjustUser(us, us[i].id, dPoints, dStreak, dSpins);
            && r == us[i := AdjustedUser(us[i], dPoints, dStreak, dSpins)]
            && UniqueUserIds(r)
            && SumPoints(r) == SumPoints(us) + dPoints
            && (PointsNonNegative(us) && us[i].points + dPoints >= 0 ==> PointsNonNegative(r))
  {
    var r := AdjustUser(us, us[i].id, dPoints, dStreak, dSpins);
    AdjustUserPointwise(us, us[i].id, dPoints, dStreak, dSpins);
    var expected := us[i := AdjustedUser(us[i], dPoints, dStreak, dSpins)];
    forall j | 0 <= j < |us| ensures r[j] == expected[j] {
      if j != i {
        if j < i { assert us[j].id != us[i].id; } else { assert us[i].id != us[j].id; }
      }
    }
    assert r == expected;
    SumPointsUpdate(us, i, expected[i]);
    SameIdsStayUnique(us, expected);
  }

  /** One user's side of a peer transfer. */
  function Transferred(u: User, fromId: string, toId: string, amount: int): User {
    if u.id == fromId then u.(points := u.points - amount)
    else if u.id == toId then u.(points := u.points + amount)
    else u
  }

  /** The users after a peer transfer: the sender debited, the receiver credited. */
  function TransferMap(us: seq<User>, fromId: string, toId: string, amount: int): (r: seq<User>)
    ensures |r| == |us|
  {
    if |us| == 0 then [] else [Transferred(us[0], fromId, toId, amount)] + TransferMap(us[1..], fromId, toId, amount)
  }

  /** Every user goes through `Transferred`, in place. */
  lemma {:induction false} TransferMapPointwise(us: seq<User>, fromId: string, toId: string, amount: int)
    ensures var r := TransferMap(us, fromId, toId, amount);
            forall k :: 0 <= k < |us| ==> r[k] == Transferred(us[k], fromId, toId, amount)
  {
    if |us| > 0 {
      TransferMapPointwise(us[1..], fromId, toId, amount);
    }
  }

  /**
   * With distinct ids, a transfer between two different users changes
   * exactly those two entries and leaves the total number of points as it was.
   */
  lemma TransferMapTouchesTwo(us: seq<User>, i: nat, j: nat, amount: int)
    requires i < |us| && j < |us| && i != j && UniqueUserIds(us)
    ensures TransferMap(us, us[i].id, us[j].id, amount)
              == us[i := us[i].(points := us[i].points - amount)][j := us[j].(points := us[j].points + amount)]
    ensures SumPoints(TransferMap(us, us[i].id, us[j].id, amount)) == SumPoints(us)
    ensures UniqueUserIds(TransferMap(us, us[i].id, us[j].id, amount))
  {
    var r := TransferMap(us, us[i].id, us[j].id, amount);
    TransferMapPointwise(us, us[i].id, us[j].id, amount);
    SameIdsStayUnique(us, r);
    var debited := us[i := us[i].(points := us[i].points - amount)];
    var expected := debited[j := us[j].(points := us[j].points + amount)];
    forall k | 0 <= k < |us| ensures r[k] == expected[k] {
      if k != i {
        if k < i { assert us[k].id != us[i].id; } else { assert us[i].id != us[k].id; }
      }
      if k != j {
        if k < j { assert us[k].id != us[j].id; } else { assert us[j].id != us[k].id; }
      }
    }
    assert r == expected;
    SumPointsUpdate(us, i, debited[i]);
    SumPointsUpdate(debited, j, expected[j]);
  }

  // ---------------------------------------------------------------------
  // Treasury summary
  // ---------------------------------------------------------------------

  function SumPoints(us: seq<User>): int {
    if |us| == 0 then 0 else us[0].points + SumPoints(us[1..])
  }

  function SumBalances(cs: seq<Company>): int {
    if |cs| == 0 then 0 else cs[0].balance + SumBalances(cs[1..])
  }

  /** `t.platformFee || 0` */
  function FeeOrZero(t: Transaction): int {
    match t.platformFee
    case Some(f) => f
    case None => 0
  }

  function SumFees(log: seq<Transaction>): int {
    if |log| == 0 then 0 else FeeOrZero(log[0]) + SumFees(log[1..])
  }

  /** Replacing one user moves the total by exactly that user's difference. */
  lemma {:induction false} SumPointsUpdate(us: seq<User>, i: nat, u: User)
    requires i < |us|
    ensures SumPoints(us[i := u]) == SumPoints(us) - us[i].points + u.points
  {
    if i == 0 {
      assert us[i := u][1..] == us[1..];
    } else {
      assert us[i := u][1..] == us[1..][i - 1 := u];
      SumPointsUpdate(us[1..], i - 1, u);
    }
  }

  /** Replacing one company moves the escrow fund by exactly that company's difference. */
  lemma {:induction false} SumBalancesUpdate(cs: seq<Company>, i: nat, c: Company)
    requires i < |cs|
    ensures SumBalances(cs[i := c]) == SumBalances(cs) - cs[i].balance + c.balance
  {
    if i == 0 {
      assert cs[i := c][1..] == cs[1..];
    } else {
      assert cs[i := c][1..] == cs[1..][i - 1 := c];
      SumBalancesUpdate(cs[1..], i - 1, c);
    }
  }

  /** Prepending a record adds its fee (or nothing) to the platform revenue. */
  lemma SumFeesPrepend(t: Transaction, log: seq<Transaction>)
    ensures SumFees([t] + log) == FeeOrZero(t) + SumFees(log)
  {
    assert ([t] + log)[1..] == log;
  }

  /** Every company's id and rate survive an adjustment, so the seed invariants do too. */
  lemma AdjustMerchantKeepsInvariant(cs: seq<Company>, id: string, dBalance: int, dIssued: int, dRedeemed: int)
    requires UniqueCompanyIds(cs) && RatesNonNegative(cs)
    ensures UniqueCompanyIds(AdjustMerchant(cs, id, dBalance, dIssued, dRedeemed))
    ensures RatesNonNegative(AdjustMerchant(cs, id, dBalance, dIssued, dRedeemed))
  {
    var r := AdjustMerchant(cs, id, dBalance, dIssued, dRedeemed);
    AdjustMerchantPointwise(cs, id, dBalance, dIssued, dRedeemed);
    assert forall k :: 0 <= k < |cs| ==> r[k].id == cs[k].id && r[k].pointRate == cs[k].pointRate;
    SameIdsAndRatesStayValid(cs, r);
  }

  // ---------------------------------------------------------------------
  // The ledger state and the treasury summary
  // ---------------------------------------------------------------------

  /** The three collections the handlers update. */
  datatype LedgerState = LedgerState(users: seq<User>, companies: seq<Company>, log: seq<Transaction>)

  /** A handler's verdict together with the state it leaves behind. */
  datatype Step = Step(outcome: Outcome, next: LedgerState)

  /** What the seed data guarantees and every handler keeps. */
  ghost predicate Invariant(st: LedgerState) {
    && |st.users| > 0
    && UniqueUserIds(st.users)
    && UniqueCompanyIds(st.companies)
    && RatesNonNegative(st.companies)
  }

  /** The VND value of every point the users hold. */
  function Liability(st: LedgerState): int {
    POINT_VALUE * SumPoints(st.users)
  }

  /** The VND the merchants hold in escrow. */
  function EscrowFund(st: LedgerState): int {
    SumBalances(st.companies)
  }

  /** The platform fees recorded in the log. */
  function Revenue(st: LedgerState): int {
    SumFees(st.log)
  }

  /**
   * The treasury summary: the liability, the escrow fund, how many times
   * the escrow covers the liability, the fees earned, and two
   * fixed-percentage projections of the liability.
   */
  function Treasury(st: LedgerState): (t: TreasuryStats)
    ensures t.totalLiability == Liability(st) && t.escrowFund == EscrowFund(st)
    ensures t.platformRevenue == Revenue(st)
    ensures t.totalLiability > 0 ==> t.safetyRatio * t.totalLiability as real == t.escrowFund as real
    ensures t.totalLiability <= 0 ==> t.safetyRatio == NO_LIABILITY_RATIO
    ensures t.breakageProfit == t.totalLiability as real * BREAKAGE_RATE
    ensures t.forecastBurn == t.totalLiability as real * FORECAST_BURN_RATE
  {
    var liability := Liability(st);
    var escrow := EscrowFund(st);
    TreasuryStats(
      totalLiability := liability,
      escrowFund := escrow,
      safetyRatio := if liability > 0 then escrow as real / liability as real else NO_LIABILITY_RATIO,
      platformRevenue := Revenue(st),
      breakageProfit := liability as real * BREAKAGE_RATE,
      forecastBurn := liability as real * FORECAST_BURN_RATE)
  }

  /** The summary depends on the state only through its three totals. */
  lemma TreasuryFollowsTotals(a: LedgerState, b: LedgerState)
    requires Liability(a) == Liability(b) && EscrowFund(a) == EscrowFund(b) && Revenue(a) == Revenue(b)
    ensures Treasury(a) == Treasury(b)
  {
  }

  /**
   * The safety ratio reads as solvent (at least 1) exactly when the escrow
   * covers the liability, or when there is no liability at all.
   */
  lemma SafetyRatioMeansCoverage(st: LedgerState)
    ensures var t := Treasury(st);
            t.safetyRatio >= 1.0 <==> t.totalLiability <= 0 || t.escrowFund >= t.totalLiability
  {
    var t := Treasury(st);
    if t.totalLiability > 0 {
      var l := t.totalLiability as real;
      if t.safetyRatio >= 1.0 {
        assert t.safetyRatio * l >= 1.0 * l;
      } else {
        assert t.safetyRatio * l < 1.0 * l;
      }
    }
  }

  // ---------------------------------------------------------------------
  // The handlers as functions of the state
  // ---------------------------------------------------------------------

  /**
   * EARN, BURN, DEPOSIT or WITHDRAW by the acting user of session
   * `sessionId` at merchant `merchantId`. A blacklisted actor is turned
   * away; any other `kind` moves nothing but is still recorded.
   */
  function TransactStep(st: LedgerState, sessionId: string, kind: string, amount: int, merchantId: string,
                        burnPoints: Option<int>, txId: string, now: int): (r: Step)
    requires |st.users| > 0
    ensures r.outcome.Rejected? ==> r.next == st
    ensures r.outcome.Ok? ==> |r.next.log| == |st.log| + 1 && r.next.log[1..] == st.log
  {
    var i := ActingIndex(st.users, sessionId);
    if st.users[i].isBlacklisted then Step(Rejected(BlacklistedActor), st)
    else if kind == "EARN" then EarnStep(st, i, amount, merchantId, txId, now)
    else if kind == "BURN" then BurnStep(st, i, amount, merchantId, burnPoints, txId, now)
    else if kind == "DEPOSIT" || kind == "WITHDRAW" then EscrowStep(st, i, kind, amount, merchantId, txId, now)
    else Step(Ok, st.(log := [Receipt(txId, st.users[i].id, merchantId, amount, 0, 0, 0, kind, now)] + st.log))
  }

  /**
   * The state after a completed merchant transaction: user `i` replaced by
   * `actor`, the counters of the merchant named `merchantId` moved, and
   * `receipt` prepended to the log.
   */
  function Settle(st: LedgerState, i: nat, actor: User, merchantId: string,
                  dBalance: int, dIssued: int, dRedeemed: int, receipt: Transaction): LedgerState
    requires i < |st.users|
  {
    LedgerState(
      st.users[i := actor],
      AdjustMerchant(st.companies, merchantId, dBalance, dIssued, dRedeemed),
      [receipt] + st.log)
  }

  /** EARN by user `i`: the merchant's escrow pays for the points it issues. */
  function EarnStep(st: LedgerState, i: nat, amount: int, merchantId: string, txId: string, now: int): (r: Step)
    requires i < |st.users|
    ensures r.outcome.Rejected? ==> r == Step(Rejected(InsufficientMerchantEscrow), st)
    ensures r.outcome.Ok? ==> |r.next.log| == |st.log| + 1 && r.next.log[1..] == st.log
  {
    var u := st.users[i];
    var m := MerchantOf(st.companies, merchantId);
    var e := PointsEarned(amount, RateOf(m));
    if m.Some? && m.value.balance < e * POINT_VALUE then Step(Rejected(InsufficientMerchantEscrow), st)
    else Step(Ok, Settle(st, i, u.(points := u.points + e, exp := u.exp + ExpGain(amount)), merchantId,
                         -(e * POINT_VALUE), e, 0, Receipt(txId, u.id, merchantId, amount, e, 0, 0, "EARN", now)))
  }

  /** BURN by user `i`: the merchant is paid for the points less the platform fee. */
  function BurnStep(st: LedgerState, i: nat, amount: int, merchantId: string, burnPoints: Option<int>,
                    txId: string, now: int): (r: Step)
    requires i < |st.users|
    ensures r.outcome.Rejected? ==> r == Step(Rejected(InsufficientUserPoints), st)
    ensures r.outcome.Ok? ==> |r.next.log| == |st.log| + 1 && r.next.log[1..] == st.log
  {
    var u := st.users[i];
    var p := SpentPoints(amount, burnPoints);
    if u.points < p then Step(Rejected(InsufficientUserPoints), st)
    else Step(Ok, Settle(st, i, u.(points := u.points - p), merchantId, p * POINT_VALUE - PlatformFee(p), 0, p,
                         Receipt(txId, u.id, merchantId, amount, 0, p, PlatformFee(p), "BURN", now)))
  }

  /** DEPOSIT into, or WITHDRAW out of, the merchant's escrow, recorded as made by user `i`. */
  function EscrowStep(st: LedgerState, i: nat, kind: string, amount: int, merchantId: string,
                      txId: string, now: int): (r: Step)
    requires i < |st.users|
    ensures r.outcome.Rejected? ==> r == Step(Rejected(InsufficientMerchantEscrow), st)
    ensures r.outcome.Ok? ==> r.next.users == st.users
    ensures r.outcome.Ok? ==> |r.next.log| == |st.log| + 1 && r.next.log[1..] == st.log
  {
    var m := MerchantOf(st.companies, merchantId);
    if kind == "WITHDRAW" && (if m.Some? then m.value.balance else 0) < amount then
      Step(Rejected(InsufficientMerchantEscrow), st)
    else Step(Ok, LedgerState(
      st.users,
      AdjustMerchant(st.companies, merchantId, if kind == "DEPOSIT" then amount else -amount, 0, 0),
      [Receipt(txId, st.users[i].id, merchantId, amount, 0, 0, 0, kind, now)] + st.log))
  }

  /** The record of a peer transfer: no merchant, no VND, the points as spent. */
  function TransferRecord(txId: string, senderId: string, receiverId: string, amount: int, now: int): (t: Transaction)
    ensures FeeOrZero(t) == 0 && t.amount == 0 && t.merchantId == SYSTEM_MERCHANT
    ensures t.pointsSpent == Some(amount) && t.receiverId == Some(receiverId) && t.status == Completed
  {
    Transaction(txId, senderId, SYSTEM_MERCHANT, 0, None, Some(amount), None, "TRANSFER", now, Completed, Some(receiverId))
  }

  /** The acting user sends `amount` points to the user registered under `email`. */
  function TransferStep(st: LedgerState, sessionId: string, email: string, amount: int, txId: string, now: int): (r: Step)
    requires |st.users| > 0
    ensures r.outcome.Rejected? ==> r.next == st
    ensures r.next.companies == st.companies
    ensures r.outcome.Ok? ==> |r.next.log| == |st.log| + 1 && r.next.log[1..] == st.log
  {
    var i := ActingIndex(st.users, sessionId);
    match FindUserByEmail(st.users, email)
    case None => Step(Rejected(ReceiverNotFound), st)
    case Some(j) =>
      if st.users[i].points < amount then Step(Rejected(InsufficientUserPoints), st)
      else if st.users[j].id == st.users[i].id then Step(Rejected(SelfTransferRejected), st)
      else Step(Ok, TransferBetween(st, i, j, amount, txId, now))
  }

  /** The state after user `i` has sent `amount` points to user `j`. */
  function TransferBetween(st: LedgerState, i: nat, j: nat, amount: int, txId: string, now: int): LedgerState
    requires i < |st.users| && j < |st.users|
  {
    LedgerState(
      TransferMap(st.users, st.users[i].id, st.users[j].id, amount),
      st.companies,
      [TransferRecord(txId, st.users[i].id, st.users[j].id, amount, now)] + st.log)
  }

  /** The users after the acting user's check-in (no date is checked, so every call pays again). */
  function CheckInUsers(us: seq<User>, sessionId: string): (r: seq<User>)
    requires |us| > 0
    ensures |r| == |us|
    ensures forall k :: 0 <= k < |us| ==> r[k].id == us[k].id && r[k].role == us[k].role
  {
    AdjustUserPointwise(us, us[ActingIndex(us, sessionId)].id, CHECK_IN_POINTS, 1, 1);
    AdjustUser(us, us[ActingIndex(us, sessionId)].id, CHECK_IN_POINTS, 1, 1)
  }

  /** The acting user spends a lucky spin on the reward the draw picked. */
  function SpinStep(st: LedgerState, sessionId: string, rewardIndex: nat): (r: Step)
    requires |st.users| > 0 && rewardIndex < |SPIN_REWARDS|
    ensures r.outcome.Rejected? ==> r == Step(Rejected(NoSpinsLeft), st)
    ensures r.next.companies == st.companies && r.next.log == st.log
  {
    var u := st.users[ActingIndex(st.users, sessionId)];
    if u.luckySpins <= 0 then Step(Rejected(NoSpinsLeft), st)
    else Step(Ok, st.(users := AdjustUser(st.users, u.id, SPIN_REWARDS[rewardIndex], 0, -1)))
  }

  // ---------------------------------------------------------------------
  // What the transaction handler guarantees
  // ---------------------------------------------------------------------

  /** With distinct company ids, every company carrying the id is the merchant the lookup finds. */
  lemma MerchantIsTheOne(cs: seq<Company>, id: string, k: nat)
    requires UniqueCompanyIds(cs) && k < |cs| && cs[k].id == id
    ensures FindCompany(cs, id) == Some(k) && MerchantOf(cs, id) == Some(cs[k])
  {
    FindCompanyIsFirst(cs, id);
  }

  /** Settling changes no user but `i`, no company but those carrying `merchantId`, and prepends the receipt. */
  lemma SettleFootprint(st: LedgerState, i: nat, actor: User, merchantId: string,
                        dBalance: int, dIssued: int, dRedeemed: int, receipt: Transaction)
    requires i < |st.users|
    ensures var n := Settle(st, i, actor, merchantId, dBalance, dIssued, dRedeemed, receipt);
            && |n.users| == |st.users| && |n.companies| == |st.companies|
            && (forall k :: 0 <= k < |st.users| && k != i ==> n.users[k] == st.users[k])
            && (forall k :: 0 <= k < |st.companies| && st.companies[k].id != merchantId ==>
                  n.companies[k] == st.companies[k])
            && n.log[0] == receipt && n.log[1..] == st.log
  {
    AdjustMerchantPointwise(st.companies, merchantId, dBalance, dIssued, dRedeemed);
    assert ([receipt] + st.log)[1..] == st.log;
  }

  /**
   * Settling a merchant transaction replaces the actor, adjusts the one
   * merchant the id names (if any) and prepends the receipt. The liability
   * moves by the VND value of the actor's point change, the escrow fund by
   * the merchant's balance change, the revenue by the receipt's fee; ids,
   * rates and (when the merchant can afford its change) non-negative escrow
   * are kept.
   */
  lemma SettleAccounting(st: LedgerState, i: nat, actor: User, merchantId: string,
                         dBalance: int, dIssued: int, dRedeemed: int, receipt: Transaction)
    requires Invariant(st) && i < |st.users| && actor.id == st.users[i].id
    ensures var n := Settle(st, i, actor, merchantId, dBalance, dIssued, dRedeemed, receipt);
            var f := FindCompany(st.companies, merchantId);
            && (f.None? ==> n.companies == st.companies)
            && (f.Some? ==> n.companies == st.companies[f.value := Adjusted(st.companies[f.value], dBalance, dIssued, dRedeemed)])
            && n.log[0] == receipt && n.log[1..] == st.log
            && Liability(n) == Liability(st) + POINT_VALUE * (actor.points - st.users[i].points)
            && EscrowFund(n) == EscrowFund(st) + (if f.Some? then dBalance else 0)
            && Revenue(n) == Revenue(st) + FeeOrZero(receipt)
            && Invariant(n)
            && (EscrowNonNegative(st.companies) && (f.Some? ==> st.companies[f.value].balance + dBalance >= 0)
                ==> EscrowNonNegative(n.companies))
  {
    var n := Settle(st, i, actor, merchantId, dBalance, dIssued, dRedeemed, receipt);
    AdjustMerchantTouchesOne(st.companies, merchantId, dBalance, dIssued, dRedeemed);
    AdjustMerchantKeepsInvariant(st.companies, merchantId, dBalance, dIssued, dRedeemed);
    SumPointsUpdate(st.users, i, actor);
    SameIdsStayUnique(st.users, n.users);
    SumFeesPrepend(receipt, st.log);
  }

  /**
   * EARN: floor(amount * rate / 1000) points, where the rate falls back to
   * 0.1 for an unknown merchant or a zero rate. A known merchant must hold
   * the points' VND value and pays exactly that out of escrow; an unknown
   * merchant is not checked and pays nothing. The actor gains the points and
   * one exp per 1000 VND. No escrow is ever overdrawn by it.
   */
  lemma EarnAccounting(st: LedgerState, i: nat, amount: int, merchantId: string, txId: string, now: int)
    requires Invariant(st) && i < |st.users|
    ensures var r := EarnStep(st, i, amount, merchantId, txId, now);
            var u := st.users[i];
            var m := MerchantOf(st.companies, merchantId);
            var e := PointsEarned(amount, RateOf(m));
            && (r.outcome.Rejected? <==> m.Some? && m.value.balance < e * POINT_VALUE)
            && (r.outcome.Rejected? ==> r.outcome.reason == InsufficientMerchantEscrow && r.next == st)
            && (r.outcome.Ok? ==>
                  && r.next.users == st.users[i := u.(points := u.points + e, exp := u.exp + ExpGain(amount))]
                  && (m.None? ==> r.next.companies == st.companies)
                  && (m.Some? ==>
                        var k := FindCompany(st.companies, merchantId).value;
                        && r.next.companies == st.companies[k := Adjusted(st.companies[k], -(e * POINT_VALUE), e, 0)]
                        && r.next.companies[k].balance == m.value.balance - e * POINT_VALUE
                        && r.next.companies[k].totalPointsIssued == m.value.totalPointsIssued + e)
                  && r.next.log == [Receipt(txId, u.id, merchantId, amount, e, 0, 0, "EARN", now)] + st.log
                  && r.next.log[0].pointsEarned == OmitZero(e) && r.next.log[0].pointsSpent.None?
                  && r.next.log[0].platformFee.None?
                  && Liability(r.next) == Liability(st) + e * POINT_VALUE
                  && EscrowFund(r.next) == EscrowFund(st) - (if m.Some? then e * POINT_VALUE else 0)
                  && Revenue(r.next) == Revenue(st)
                  && Invariant(r.next)
                  && (EscrowNonNegative(st.companies) ==> EscrowNonNegative(r.next.companies)))
  {
    var r := EarnStep(st, i, amount, merchantId, txId, now);
    var u := st.users[i];
    var e := PointsEarned(amount, RateOf(MerchantOf(st.companies, merchantId)));
    if r.outcome.Ok? {
      var receipt := Receipt(txId, u.id, merchantId, amount, e, 0, 0, "EARN", now);
      assert r.next == Settle(st, i, u.(points := u.points + e, exp := u.exp + ExpGain(amount)),
                              merchantId, -(e * POINT_VALUE), e, 0, receipt);
      EarnSettled(st, i, e, u.exp + ExpGain(amount), merchantId, receipt);
    }
  }

  /** The accepted half of `EarnAccounting`, for any number `e` of points earned and new exp `xp`. */
  lemma EarnSettled(st: LedgerState, i: nat, e: int, xp: int, merchantId: string, receipt: Transaction)
    requires Invariant(st) && i < |st.users|
    requires MerchantOf(st.companies, merchantId).Some? ==>
               MerchantOf(st.companies, merchantId).value.balance >= e * POINT_VALUE
    ensures var u := st.users[i];
            var n := Settle(st, i, u.(points := u.points + e, exp := xp), merchantId, -(e * POINT_VALUE), e, 0, receipt);
            var m := MerchantOf(st.companies, merchantId);
            && (m.None? ==> n.companies == st.companies)
            && (m.Some? ==>
                  var k := FindCompany(st.companies, merchantId).value;
                  && n.companies == st.companies[k := Adjusted(st.companies[k], -(e * POINT_VALUE), e, 0)]
                  && n.companies[k].balance == m.value.balance - e * POINT_VALUE
                  && n.companies[k].totalPointsIssued == m.value.totalPointsIssued + e)
            && Liability(n) == Liability(st) + e * POINT_VALUE
            && EscrowFund(n) == EscrowFund(st) - (if m.Some? then e * POINT_VALUE else 0)
            && Revenue(n) == Revenue(st) + FeeOrZero(receipt)
            && Invariant(n)
            && (EscrowNonNegative(st.companies) ==> EscrowNonNegative(n.companies))
  {
    var u := st.users[i];
    SettleAccounting(st, i, u.(points := u.points + e, exp := xp), merchantId, -(e * POINT_VALUE), e, 0, receipt);
  }

  /**
   * BURN: the points spent are `burnPoints` unless that is zero or absent,
   * then `amount`. The actor must hold them and loses exactly them; the
   * platform keeps 15 VND per point (1.5% of 1000) and a known merchant
   * receives the other 985 VND per point.
   */
  lemma BurnAccounting(st: LedgerState, i: nat, amount: int, merchantId: string, burnPoints: Option<int>,
                       txId: string, now: int)
    requires Invariant(st) && i < |st.users|
    ensures var r := BurnStep(st, i, amount, merchantId, burnPoints, txId, now);
            var u := st.users[i];
            var m := MerchantOf(st.companies, merchantId);
            var p := SpentPoints(amount, burnPoints);
            && (r.outcome.Rejected? <==> u.points < p)
            && (r.outcome.Rejected? ==> r.outcome.reason == InsufficientUserPoints && r.next == st)
            && (r.outcome.Ok? ==>
                  && r.next.users == st.users[i := u.(points := u.points - p)]
                  && r.next.users[i].points == u.points - p >= 0
                  && (m.None? ==> r.next.companies == st.companies)
                  && (m.Some? ==>
                        var k := FindCompany(st.companies, merchantId).value;
                        && r.next.companies == st.companies[k := Adjusted(st.companies[k], 985 * p, 0, p)]
                        && r.next.companies[k].balance == m.value.balance + 985 * p
                        && r.next.companies[k].totalPointsRedeemed == m.value.totalPointsRedeemed + p)
                  && r.next.log == [Receipt(txId, u.id, merchantId, amount, 0, p, 15 * p, "BURN", now)] + st.log
                  && r.next.log[0].pointsEarned.None?
                  && r.next.log[0].pointsSpent == OmitZero(p)
                  && r.next.log[0].platformFee == OmitZero(15 * p)
                  && Liability(r.next) == Liability(st) - p * POINT_VALUE
                  && EscrowFund(r.next) == EscrowFund(st) + (if m.Some? then 985 * p else 0)
                  && Revenue(r.next) == Revenue(st) + 15 * p
                  && Invariant(r.next)
                  && (EscrowNonNegative(st.companies) && p >= 0 ==> EscrowNonNegative(r.next.companies)))
  {
    var r := BurnStep(st, i, amount, merchantId, burnPoints, txId, now);
    var u := st.users[i];
    var p := SpentPoints(amount, burnPoints);
    if r.outcome.Ok? {
      var receipt := Receipt(txId, u.id, merchantId, amount, 0, p, 15 * p, "BURN", now);
      assert r.next == Settle(st, i, u.(points := u.points - p), merchantId, 985 * p, 0, p, receipt);
      SettleAccounting(st, i, u.(points := u.points - p), merchantId, 985 * p, 0, p, receipt);
    }
  }

  /**
   * DEPOSIT always succeeds and adds `amount` to a known merchant's escrow;
   * WITHDRAW is refused when the merchant's balance (0 if unknown) is below
   * `amount`, and otherwise takes `amount` out. Neither touches any user.
   */
  lemma EscrowAccounting(st: LedgerState, i: nat, kind: string, amount: int, merchantId: string,
                         txId: string, now: int)
    requires Invariant(st) && i < |st.users|
    requires kind == "DEPOSIT" || kind == "WITHDRAW"
    ensures var r := EscrowStep(st, i, kind, amount, merchantId, txId, now);
            var m := MerchantOf(st.companies, merchantId);
            var delta := if kind == "DEPOSIT" then amount else -amount;
            && (r.outcome.Rejected? <==> kind == "WITHDRAW" && (if m.Some? then m.value.balance else 0) < amount)
            && (r.outcome.Rejected? ==> r.outcome.reason == InsufficientMerchantEscrow && r.next == st)
            && (r.outcome.Ok? ==>
                  && r.next.users == st.users
                  && (m.None? ==> r.next.companies == st.companies)
                  && (m.Some? ==>
                        var k := FindCompany(st.companies, merchantId).value;
                        && r.next.companies == st.companies[k := Adjusted(st.companies[k], delta, 0, 0)]
                        && r.next.companies[k].balance == m.value.balance + delta)
                  && r.next.log == [Receipt(txId, st.users[i].id, merchantId, amount, 0, 0, 0, kind, now)] + st.log
                  && r.next.log[0].pointsEarned.None? && r.next.log[0].pointsSpent.None?
                  && r.next.log[0].platformFee.None?
                  && EscrowFund(r.next) == EscrowFund(st) + (if m.Some? then delta else 0)
                  && Liability(r.next) == Liability(st)
                  && Revenue(r.next) == Revenue(st)
                  && Invariant(r.next)
                  && (EscrowNonNegative(st.companies) && (kind == "DEPOSIT" ==> amount >= 0)
                      ==> EscrowNonNegative(r.next.companies)))
  {
    var r := EscrowStep(st, i, kind, amount, merchantId, txId, now);
    if r.outcome.Ok? {
      assert st.users[i := st.users[i]] == st.users;
      SettleAccounting(st, i, st.users[i], merchantId, if kind == "DEPOSIT" then amount else -amount, 0, 0,
                       Receipt(txId, st.users[i].id, merchantId, amount, 0, 0, 0, kind, now));
    }
  }

  /**
   * How the handler dispatches: a blacklisted actor is turned away before
   * anything else; EARN, BURN, DEPOSIT and WITHDRAW go to their own rules;
   * any other type string moves nothing and is still logged.
   */
  lemma TransactDispatch(st: LedgerState, sessionId: string, kind: string, amount: int, merchantId: string,
                         burnPoints: Option<int>, txId: string, now: int)
    requires |st.users| > 0
    ensures var r := TransactStep(st, sessionId, kind, amount, merchantId, burnPoints, txId, now);
            var i := ActingIndex(st.users, sessionId);
            && (st.users[i].isBlacklisted ==> r == Step(Rejected(BlacklistedActor), st))
            && (!st.users[i].isBlacklisted && kind == "EARN" ==> r == EarnStep(st, i, amount, merchantId, txId, now))
            && (!st.users[i].isBlacklisted && kind == "BURN" ==>
                  r == BurnStep(st, i, amount, merchantId, burnPoints, txId, now))
            && (!st.users[i].isBlacklisted && (kind == "DEPOSIT" || kind == "WITHDRAW") ==>
                  r == EscrowStep(st, i, kind, amount, merchantId, txId, now))
            && (!st.users[i].isBlacklisted && kind !in {"EARN", "BURN", "DEPOSIT", "WITHDRAW"} ==>
                  && r.outcome == Ok && r.next.users == st.users && r.next.companies == st.companies
                  && r.next.log[1..] == st.log && Revenue(r.next) == Revenue(st))
  {
    var r := TransactStep(st, sessionId, kind, amount, merchantId, burnPoints, txId, now);
    if !st.users[ActingIndex(st.users, sessionId)].isBlacklisted && kind !in {"EARN", "BURN", "DEPOSIT", "WITHDRAW"} {
      SumFeesPrepend(r.next.log[0], st.log);
      assert r.next.log[1..] == st.log;
    }
  }

  /**
   * A rejected call changes nothing. An accepted call changes no user but
   * the actor and no company but the one named `merchantId`, and prepends
   * exactly one COMPLETED record of the call, attributed to the actor.
   */
  lemma TransactFootprint(st: LedgerState, sessionId: string, kind: string, amount: int, merchantId: string,
                          burnPoints: Option<int>, txId: string, now: int)
    requires |st.users| > 0
    ensures var r := TransactStep(st, sessionId, kind, amount, merchantId, burnPoints, txId, now);
            var i := ActingIndex(st.users, sessionId);
            && (r.outcome.Rejected? ==> r.next == st)
            && |r.next.users| == |st.users| && |r.next.companies| == |st.companies|
            && (forall k :: 0 <= k < |st.users| && k != i ==> r.next.users[k] == st.users[k])
            && (forall k :: 0 <= k < |st.companies| && st.companies[k].id != merchantId ==>
                  r.next.companies[k] == st.companies[k])
            && (r.outcome.Ok? ==>
                  && r.next.log[1..] == st.log
                  && r.next.log[0].userId == st.users[i].id && r.next.log[0].status == Completed
                  && r.next.log[0].kind == kind && r.next.log[0].amount == amount
                  && r.next.log[0].merchantId == merchantId)
  {
    var r := TransactStep(st, sessionId, kind, amount, merchantId, burnPoints, txId, now);
    var i := ActingIndex(st.users, sessionId);
    var u := st.users[i];
    if r.outcome.Ok? && !u.isBlacklisted {
      if kind == "EARN" {
        var e := PointsEarned(amount, RateOf(MerchantOf(st.companies, merchantId)));
        var receipt := Receipt(txId, u.id, merchantId, amount, e, 0, 0, "EARN", now);
        var actor := u.(points := u.points + e, exp := u.exp + ExpGain(amount));
        assert r.next == Settle(st, i, actor, merchantId, -(e * POINT_VALUE), e, 0, receipt);
        SettleFootprint(st, i, actor, merchantId, -(e * POINT_VALUE), e, 0, receipt);
      } else if kind == "BURN" {
        var p := SpentPoints(amount, burnPoints);
        var receipt := Receipt(txId, u.id, merchantId, amount, 0, p, 15 * p, "BURN", now);
        var actor := u.(points := u.points - p);
        assert r.next == Settle(st, i, actor, merchantId, 985 * p, 0, p, receipt);
        SettleFootprint(st, i, actor, merchantId, 985 * p, 0, p, receipt);
      } else if kind == "DEPOSIT" || kind == "WITHDRAW" {
        var delta := if kind == "DEPOSIT" then amount else -amount;
        var receipt := Receipt(txId, u.id, merchantId, amount, 0, 0, 0, kind, now);
        assert st.users[i := u] == st.users;
        assert r.next == Settle(st, i, u, merchantId, delta, 0, 0, receipt);
        SettleFootprint(st, i, u, merchantId, delta, 0, 0, receipt);
      } else {
        assert r.next.log[1..] == st.log;
      }
    }
  }

  /**
   * Over every transaction type: the invariant is kept, no point balance
   * goes negative when an EARN amount is non-negative, and no escrow is
   * overdrawn when a DEPOSIT amount and the BURN points are non-negative
   * (the handler itself checks neither).
   */
  lemma TransactKeepsInvariant(st: LedgerState, sessionId: string, kind: string, amount: int, merchantId: string,
                               burnPoints: Option<int>, txId: string, now: int)
    requires Invariant(st)
    ensures var r := TransactStep(st, sessionId, kind, amount, merchantId, burnPoints, txId, now);
            && Invariant(r.next)
            && (PointsNonNegative(st.users) && (kind == "EARN" ==> amount >= 0) ==> PointsNonNegative(r.next.users))
            && (EscrowNonNegative(st.companies) && (kind == "DEPOSIT" ==> amount >= 0)
                && (kind == "BURN" ==> SpentPoints(amount, burnPoints) >= 0)
                ==> EscrowNonNegative(r.next.companies))
  {
    var r := TransactStep(st, sessionId, kind, amount, merchantId, burnPoints, txId, now);
    var i := ActingIndex(st.users, sessionId);
    TransactDispatch(st, sessionId, kind, amount, merchantId, burnPoints, txId, now);
    TransactFootprint(st, sessionId, kind, amount, merchantId, burnPoints, txId, now);
    if !st.users[i].isBlacklisted {
      if kind == "EARN" {
        EarnAccounting(st, i, amount, merchantId, txId, now);
        var m := MerchantOf(st.companies, merchantId);
        if amount >= 0 {
          assert RateOf(m) >= 0.0;
          EarnedNonNegative(amount, RateOf(m));
        }
      } else if kind == "BURN" {
        BurnAccounting(st, i, amount, merchantId, burnPoints, txId, now);
      } else if kind == "DEPOSIT" || kind == "WITHDRAW" {
        EscrowAccounting(st, i, kind, amount, merchantId, txId, now);
      }
    }
  }

  // ---------------------------------------------------------------------
  // Transfers, check-ins and lucky spins
  // ---------------------------------------------------------------------

  /**
   * A transfer is refused, in this order, when no user has the email, when
   * the sender holds fewer points than `amount`, and when the receiver is
   * the sender; a refusal changes nothing, and an accepted transfer moves
   * the points from the acting user to the user found by email.
   */
  lemma TransferOutcome(st: LedgerState, sessionId: string, email: string, amount: int, txId: string, now: int)
    requires |st.users| > 0 && UniqueUserIds(st.users)
    ensures var r := TransferStep(st, sessionId, email, amount, txId, now);
            var i := ActingIndex(st.users, sessionId);
            var t := FindUserByEmail(st.users, email);
            && r.outcome == (if t.None? then Rejected(ReceiverNotFound)
                             else if st.users[i].points < amount then Rejected(InsufficientUserPoints)
                             else if t.value == i then Rejected(SelfTransferRejected)
                             else Ok)
            && (r.outcome.Rejected? ==> r.next == st)
            && (r.outcome.Ok? ==> r.next == TransferBetween(st, i, t.value, amount, txId, now))
  {
    var i := ActingIndex(st.users, sessionId);
    var t := FindUserByEmail(st.users, email);
    if t.Some? && t.value != i {
      var j := t.value;
      if i < j { assert st.users[i].id != st.users[j].id; }
      else { assert st.users[j].id != st.users[i].id; }
    }
  }

  /**
   * A transfer between two different users changes exactly those two, by
   * `amount` each way, leaves the liability, the escrow fund, the revenue
   * and the invariant as they were, and prepends one TRANSFER record.
   */
  lemma TransferAccounting(st: LedgerState, i: nat, j: nat, amount: int, txId: string, now: int)
    requires Invariant(st) && i < |st.users| && j < |st.users| && i != j
    ensures var n := TransferBetween(st, i, j, amount, txId, now);
            && n.users == st.users[i := st.users[i].(points := st.users[i].points - amount)]
                                  [j := st.users[j].(points := st.users[j].points + amount)]
            && n.companies == st.companies
            && n.log == [TransferRecord(txId, st.users[i].id, st.users[j].id, amount, now)] + st.log
            && Liability(n) == Liability(st) && EscrowFund(n) == EscrowFund(st) && Revenue(n) == Revenue(st)
            && Invariant(n)
  {
    var n := TransferBetween(st, i, j, amount, txId, now);
    TransferMapTouchesTwo(st.users, i, j, amount);
    SumFeesPrepend(n.log[0], st.log);
  }

  /** A transfer moves points between users and leaves the whole treasury summary as it was. */
  lemma TransferKeepsTreasury(st: LedgerState, i: nat, j: nat, amount: int, txId: string, now: int)
    requires Invariant(st) && i < |st.users| && j < |st.users| && i != j
    ensures Treasury(TransferBetween(st, i, j, amount, txId, now)) == Treasury(st)
  {
    TransferAccounting(st, i, j, amount, txId, now);
    TreasuryFollowsTotals(st, TransferBetween(st, i, j, amount, txId, now));
  }

  /** A transfer of a non-negative amount leaves no balance negative. */
  lemma TransferPointsNonNegative(st: LedgerState, sessionId: string, email: string, amount: int, txId: string, now: int)
    requires Invariant(st) && PointsNonNegative(st.users) && amount >= 0
    ensures PointsNonNegative(TransferStep(st, sessionId, email, amount, txId, now).next.users)
  {
    TransferOutcome(st, sessionId, email, amount, txId, now);
    if TransferStep(st, sessionId, email, amount, txId, now).outcome.Ok? {
      TransferAccounting(st, ActingIndex(st.users, sessionId), FindUserByEmail(st.users, email).value, amount, txId, now);
    }
  }

  /**
   * A check-in gives the acting user alone ten points, one day of streak and
   * one lucky spin.
   */
  lemma CheckInEffect(us: seq<User>, sessionId: string)
    requires |us| > 0 && UniqueUserIds(us)
    ensures var i, r := ActingIndex(us, sessionId), CheckInUsers(us, sessionId);
            && r == us[i := us[i].(points := us[i].points + CHECK_IN_POINTS,
                                   streak := us[i].streak + 1, luckySpins := us[i].luckySpins + 1)]
            && UniqueUserIds(r)
            && SumPoints(r) == SumPoints(us) + CHECK_IN_POINTS
            && (PointsNonNegative(us) ==> PointsNonNegative(r))
  {
    AdjustUserTouchesOne(us, ActingIndex(us, sessionId), CHECK_IN_POINTS, 1, 1);
  }

  /**
   * A spin is refused when the acting user has no spin left; otherwise that
   * user alone gains one of the five rewards and has one spin fewer.
   */
  lemma SpinEffect(st: LedgerState, sessionId: string, rewardIndex: nat)
    requires Invariant(st) && rewardIndex < |SPIN_REWARDS|
    ensures var r := SpinStep(st, sessionId, rewardIndex);
            var i := ActingIndex(st.users, sessionId);
            var u := st.users[i];
            && (r.outcome.Rejected? <==> u.luckySpins <= 0)
            && (r.outcome.Rejected? ==> r.outcome.reason == NoSpinsLeft && r.next == st)
            && (r.outcome.Ok? ==>
                  && r.next.users == st.users[i := u.(points := u.points + SPIN_REWARDS[rewardIndex],
                                                      luckySpins := u.luckySpins - 1)]
                  && r.next.users[i].luckySpins >= 0
                  && r.next.users[i].points - u.points in {50, 100, 200, 500, 1000}
                  && r.next.companies == st.companies && r.next.log == st.log)
            && Invariant(r.next)
            && (PointsNonNegative(st.users) ==> PointsNonNegative(r.next.users))
  {
    if st.users[ActingIndex(st.users, sessionId)].luckySpins > 0 {
      AdjustUserTouchesOne(st.users, ActingIndex(st.users, sessionId), SPIN_REWARDS[rewardIndex], 0, -1);
    }
  }

  // ---------------------------------------------------------------------
  // The ledger as the application holds it
  // ---------------------------------------------------------------------

  class LoyaltyLedger {
    var users: seq<User>
    var companies: seq<Company>
    /** Newest first. */
    var log: seq<Transaction>
    /** The session's user id; the acting user is looked up from it. */
    var currentUserId: string

    function State(): LedgerState
      reads this
    {
      LedgerState(users, companies, log)
    }

    ghost predicate Valid()
      reads this
    {
      Invariant(State())
    }

    /** Starts a session from seed data with the first seed user acting and an empty log. */
    constructor (seedUsers: seq<User>, seedCompanies: seq<Company>)
      requires Invariant(LedgerState(seedUsers, seedCompanies, []))
      ensures Valid()
      ensures State() == LedgerState(seedUsers, seedCompanies, [])
      ensures currentUserId == seedUsers[0].id
    {
      users := seedUsers;
      companies := seedCompanies;
      log := [];
      currentUserId := seedUsers[0].id;
    }

    function Actor(): (i: nat)
      reads this
      requires |users| > 0
      ensures i < |users|
    {
      ActingIndex(users, currentUserId)
    }

    function CurrentUser(): User
      reads this
      requires |users| > 0
    {
      users[Actor()]
    }

    /** Makes the first user with `role` (or the first user) the acting one. */
    method SwitchRole(role: Role)
      requires Valid()
      modifies this`currentUserId
      ensures Valid()
      ensures Actor() == RoleSwitchIndex(users, role)
      ensures CurrentUser().role == role || forall k :: 0 <= k < |users| ==> users[k].role != role
    {
      var k := RoleSwitchIndex(users, role);
      currentUserId := users[k].id;
      ActingIndexOfOwnId(users, k);
    }

    /**
     * A merchant transaction by the acting user. The branches for EARN, BURN
     * and the two escrow movements are the methods below.
     */
    method Transact(kind: string, amount: int, merchantId: string, burnPoints: Option<int>,
                    txId: string, now: int)
      returns (outcome: Outcome)
      requires Valid()
      modifies this`users, this`companies, this`log
      ensures Valid()
      ensures Step(outcome, State())
              == TransactStep(old(State()), currentUserId, kind, amount, merchantId, burnPoints, txId, now)
    {
      ghost var st := State();
      TransactKeepsInvariant(st, currentUserId, kind, amount, merchantId, burnPoints, txId, now);
      var i := ActingIndex(users, currentUserId);
      if users[i].isBlacklisted {
        return Rejected(BlacklistedActor);
      }
      if kind == "EARN" {
        outcome := Earn(i, amount, merchantId, txId, now);
      } else if kind == "BURN" {
        outcome := Burn(i, amount, merchantId, burnPoints, txId, now);
      } else if kind == "DEPOSIT" || kind == "WITHDRAW" {
        outcome := MoveEscrow(i, kind, amount, merchantId, txId, now);
      } else {
        log := [Receipt(txId, users[i].id, merchantId, amount, 0, 0, 0, kind, now)] + log;
        outcome := Ok;
      }
    }

    /** The EARN branch of `Transact`, for the acting user `i`. */
    method Earn(i: nat, amount: int, merchantId: string, txId: string, now: int) returns (outcome: Outcome)
      requires i < |users|
      modifies this`users, this`companies, this`log
      ensures Step(outcome, State()) == EarnStep(old(State()), i, amount, merchantId, txId, now)
    {
      var actor := users[i];
      var merchant := MerchantOf(companies, merchantId);
      var pointsEarned := PointsEarned(amount, RateOf(merchant));
      var pointCost := pointsEarned * POINT_VALUE;
      if merchant.Some? && merchant.value.balance < pointCost {
        return Rejected(InsufficientMerchantEscrow);
      }
      companies := AdjustMerchant(companies, merchantId, -pointCost, pointsEarned, 0);
      users := users[i := actor.(points := actor.points + pointsEarned, exp := actor.exp + ExpGain(amount))];
      log := [Receipt(txId, actor.id, merchantId, amount, pointsEarned, 0, 0, "EARN", now)] + log;
      outcome := Ok;
    }

    /** The BURN branch of `Transact`, for the acting user `i`. */
    method Burn(i: nat, amount: int, merchantId: string, burnPoints: Option<int>, txId: string, now: int)
      returns (outcome: Outcome)
      requires i < |users|
      modifies this`users, this`companies, this`log
      ensures Step(outcome, State()) == BurnStep(old(State()), i, amount, merchantId, burnPoints, txId, now)
    {
      var actor := users[i];
      var pointsSpent := SpentPoints(amount, burnPoints);
      if actor.points < pointsSpent {
        return Rejected(InsufficientUserPoints);
      }
      var cashValue := pointsSpent * POINT_VALUE;
      var platformFee := PlatformFee(pointsSpent);
      users := users[i := actor.(points := actor.points - pointsSpent)];
      companies := AdjustMerchant(companies, merchantId, cashValue - platformFee, 0, pointsSpent);
      log := [Receipt(txId, actor.id, merchantId, amount, 0, pointsSpent, platformFee, "BURN", now)] + log;
      outcome := Ok;
    }

    /** The DEPOSIT and WITHDRAW branches of `Transact`, for the acting user `i`. */
    method MoveEscrow(i: nat, kind: string, amount: int, merchantId: string, txId: string, now: int)
      returns (outcome: Outcome)
      requires i < |users| && (kind == "DEPOSIT" || kind == "WITHDRAW")
      modifies this`companies, this`log
      ensures Step(outcome, State()) == EscrowStep(old(State()), i, kind, amount, merchantId, txId, now)
    {
      var merchant := MerchantOf(companies, merchantId);
      if kind == "DEPOSIT" {
        companies := AdjustMerchant(companies, merchantId, amount, 0, 0);
      } else {
        if (if merchant.Some? then merchant.value.balance else 0) < amount {
          return Rejected(InsufficientMerchantEscrow);
        }
        companies := AdjustMerchant(companies, merchantId, -amount, 0, 0);
      }
      log := [Receipt(txId, users[i].id, merchantId, amount, 0, 0, 0, kind, now)] + log;
      outcome := Ok;
    }

    method Transfer(email: string, amount: int, txId: string, now: int) returns (outcome: Outcome)
      requires Valid()
      modifies this`users, this`log
      ensures Valid()
      ensures Step(outcome, State()) == TransferStep(old(State()), currentUserId, email, amount, txId, now)
    {
      ghost var st := State();
      TransferOutcome(st, currentUserId, email, amount, txId, now);
      var i := ActingIndex(users, currentUserId);
      var sender := users[i];
      var found := FindUserByEmail(users, email);
      if found.None? {
        return Rejected(ReceiverNotFound);
      }
      var target := users[found.value];
      if sender.points < amount {
        return Rejected(InsufficientUserPoints);
      }
      if target.id == sender.id {
        return Rejected(SelfTransferRejected);
      }
      TransferAccounting(st, i, found.value, amount, txId, now);
      users := TransferMap(users, sender.id, target.id, amount);
      log := [TransferRecord(txId, sender.id, target.id, amount, now)] + log;
      outcome := Ok;
    }

    method CheckIn()
      requires Valid()
      modifies this`users
      ensures Valid()
      ensures users == CheckInUsers(old(users), currentUserId)
    {
      CheckInEffect(users, currentUserId);
      var actor := users[ActingIndex(users, currentUserId)];
      users := AdjustUser(users, actor.id, CHECK_IN_POINTS, 1, 1);
    }

    /** `rewardIndex` is the position the random draw picked among the rewards. */
    method Spin(rewardIndex: nat) returns (outcome: Outcome)
      requires Valid()
      requires rewardIndex < |SPIN_REWARDS|
      modifies this`users
      ensures Valid()
      ensures Step(outcome, State()) == SpinStep(old(State()), currentUserId, rewardIndex)
    {
      SpinEffect(State(), currentUserId, rewardIndex);
      var actor := users[ActingIndex(users, currentUserId)];
      if actor.luckySpins <= 0 {
        return Rejected(NoSpinsLeft);
      }
      var win := SPIN_REWARDS[rewardIndex];
      users := AdjustUser(users, actor.id, win, 0, -1);
      outcome := Ok;
    }
  }
}
