/**
 * Worked cases of the transaction handler on a one-user, one-merchant
 * ledger: three worked figures, an EARN, a refused WITHDRAW and a BURN.
 */
module Scenarios {
  import opened Wrappers
  import opened Types
  import opened Ledger

  function Shopper(points: int): User {
    User("u1", "an@example.com", Member, points, 0, 0, 0, false)
  }

  function Shop(balance: int): Company {
    Company("c1", 0.1, balance, 0, 0)
  }

  function Start(points: int, balance: int): (st: LedgerState)
    ensures Invariant(st)
  {
    LedgerState([Shopper(points)], [Shop(balance)], [])
  }

  /**
   * Spending 100,000 VND at a merchant with rate 0.1 and 5,000,000 VND of
   * escrow earns 10 points, paid for with 10,000 VND of that escrow.
   */
  lemma EarnScenario(points: int)
    ensures var r := TransactStep(Start(points, 5_000_000), "u1", "EARN", 100_000, "c1", None, "TX-1", 0);
            && r.outcome == Ok
            && r.next.users[0].points == points + 10
            && r.next.companies[0].balance == 4_990_000
            && r.next.companies[0].totalPointsIssued == 10
  {
    var st := Start(points, 5_000_000);
    assert PointsEarned(100_000, 0.1) == 10;
    MerchantIsTheOne(st.companies, "c1", 0);
    TransactDispatch(st, "u1", "EARN", 100_000, "c1", None, "TX-1", 0);
    EarnAccounting(st, 0, 100_000, "c1", "TX-1", 0);
  }

  /**
   * Burning all of 50 points is worth 50,000 VND: the platform keeps 750
   * and the merchant is credited 49,250; the user is left with nothing.
   */
  lemma BurnScenario(balance: int)
    ensures var r := TransactStep(Start(50, balance), "u1", "BURN", 50, "c1", None, "TX-2", 0);
            && r.outcome == Ok
            && r.next.users[0].points == 0
            && r.next.companies[0].balance == balance + 49_250
            && r.next.log[0].platformFee == Some(750)
            && Revenue(r.next) == 750
  {
    var st := Start(50, balance);
    MerchantIsTheOne(st.companies, "c1", 0);
    TransactDispatch(st, "u1", "BURN", 50, "c1", None, "TX-2", 0);
    BurnAccounting(st, 0, 50, "c1", None, "TX-2", 0);
  }

  /** Withdrawing 1,000,000 VND from 500,000 of escrow is refused and changes nothing. */
  lemma WithdrawScenario(points: int)
    ensures var st := Start(points, 500_000);
            TransactStep(st, "u1", "WITHDRAW", 1_000_000, "c1", None, "TX-3", 0)
              == Step(Rejected(InsufficientMerchantEscrow), st)
  {
    var st := Start(points, 500_000);
    MerchantIsTheOne(st.companies, "c1", 0);
    TransactDispatch(st, "u1", "WITHDRAW", 1_000_000, "c1", None, "TX-3", 0);
  }
}
