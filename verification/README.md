# Loyalty ledger, bottleneck radar and navigation menu

This project models the core of a loyalty-points platform in Dafny. Users
earn points when they spend VND at partner merchants and redeem points
there. Each merchant backs the points it issues with an escrow wallet. The
platform keeps a 1.5% fee on every redemption and reports a treasury
summary of its liability against the escrow.

The model has four parts.

- **Ledger** (`ledger.dfy`) is the session state held by `App.tsx`: users,
  merchants (companies), the transaction log (newest first) and the acting
  user's id. The class `LoyaltyLedger` has one method per handler:
  - `Transact` covers EARN, BURN, DEPOSIT and WITHDRAW;
  - `Transfer` is a peer transfer;
  - `CheckIn` and `Spin` are the check-in and the lucky spin;
  - `SwitchRole` is the role switch.

  Each method is proved equal to a pure step function on a `LedgerState`
  (`TransactStep`, `TransferStep`, `CheckInUsers`, `SpinStep`). The
  accounting lemmas are proved about those functions. The treasury
  summary is the function `Treasury`.
- **Radar** (`radar.dfy`) is the bottleneck badge. It selects the open
  bottlenecks of one category, picks the dot colour, and decides whether
  the overflow note is shown.
- **Menu** (`menu.dfy`) is the navigation bar's role-to-menu mapping.
- **Scenarios** (`scenarios.dfy`) holds three worked figures on a
  one-user, one-merchant ledger.

`types.dfy` holds the entities, reduced to the fields these parts read or
write. `seqs.dfy` holds `Option` and array `filter`.

Modelling choices:

- Amounts, points, balances and fees are unbounded integers. A merchant's
  point rate is an exact `real`.
- `Math.floor(amount * rate / 1000)` is the floor of an exact real.
- The fee `pointsSpent * 1000 * 0.015` is the whole number `15 * pointsSpent`.
- JavaScript's `||` fallbacks are written out:
  - `merchant?.pointRate || 0.1` in `RateOf`;
  - `options?.burnPoints || amount` in `SpentPoints`;
  - `x || undefined` on the log's counters in `OmitZero`;
  - `merchant?.balance || 0` in `EscrowStep`.
- A rejection (the source's `alert` followed by `return`) is
  `Rejected(reason)` and leaves the state unchanged. An accepted call
  applies all of its updates as one step.
- The invariant every handler keeps holds from the seed data on:
  - there is at least one user;
  - user ids and company ids are distinct;
  - point rates are non-negative.

In these cases the code does something a reader might not expect, and the model does what the code does:

- **EARN**
  - The rate falls back to 0.1 for an unknown merchant or a zero rate.
  - An unknown merchant is not checked against any escrow, and nothing is
    debited from it.
- **BURN**: a `burnPoints` override of 0 counts as absent.
- **WITHDRAW**: an unknown merchant counts as having 0 escrow.
- **Other transaction types**: a type string other than the four is still
  logged as a COMPLETED record, and no balance moves.
- **Negative amounts**: no handler rejects them. The "no balance goes
  negative" property therefore holds only for non-negative amounts, and
  the lemmas state it that way.
- **Blacklist**: transfers, check-ins and spins do not check it.
- **Spins**: the spin handler has a rejection of its own, for a user with
  no spin left.

## Model

| member | source | states |
|---|---|---|
| Ledger.FindUserByIdIsFirst | App.tsx:23 | the id lookup returns the first user with that id, and misses only when no user has it |
| Ledger.FindUserByEmailIsFirst | App.tsx:85 | the email lookup returns the first user with that email, and misses only when none has it |
| Ledger.FindUserByRoleIsFirst | App.tsx:28 | the role lookup returns the first user with that role, and misses only when none has it |
| Ledger.FindCompanyIsFirst | App.tsx:37 | the merchant lookup returns the first company with that id, and misses only when none has it |
| Ledger.ActingIndex | App.tsx:22-25 | the current user is the first user whose id is the session's id; when no user has it, it is the first user |
| Ledger.RoleSwitchIndex | App.tsx:28 | the user a role switch picks is the first user with the role; when no user has it, it is the first user |
| Ledger.ActingIndexOfOwnId | App.tsx:28-29 | with distinct ids, storing a user's id as the session id makes exactly that user current |
| Ledger.MerchantOf | App.tsx:37 | a found merchant is the first entry of the company list that carries the requested id; "not found" means that no company has it |
| Ledger.MerchantIsTheOne | App.tsx:37 | with distinct ids, any company carrying the id is the merchant the lookup returns |
| Ledger.RateOf | App.tsx:48 | the rate is the merchant's own when the merchant is known and its rate is non-zero, else 0.1; it is never 0, and positive when the merchant's rate is non-negative |
| Ledger.PointsEarnedIsFloor | App.tsx:48 | the points earned (`PointsEarned`) are the largest whole number n with n*1000 <= amount*rate |
| Ledger.EarnedNonNegative | App.tsx:48 | a non-negative spend at a non-negative rate earns no negative points |
| Ledger.ExpGain | App.tsx:53 | exp gained is the floor of amount/1000 |
| Ledger.SpentPoints | App.tsx:55 | the points spent are the `burnPoints` override when it is present and non-zero, else `amount`; they are 0 only when `amount` is 0 |
| Ledger.PlatformFee | App.tsx:57-58 | the fee is exactly 1.5% of the cash value (1000 per point), so the merchant keeps 985 per point |
| Ledger.OmitZero | App.tsx:75-77 | a zero counter is recorded as absent, and any other value is recorded as itself |
| Ledger.Receipt | App.tsx:70-81 | a merchant transaction's record is COMPLETED, names no receiver, and contributes exactly its fee to the revenue |
| Ledger.TransferRecord | App.tsx:96-106 | a transfer's record names the SYSTEM merchant, carries 0 VND and no fee, records the points as spent, and names the receiver |
| Ledger.AdjustMerchantPointwise | App.tsx:51 | the company map changes exactly the entries carrying the id, and each by the given deltas |
| Ledger.AdjustMerchantTouchesOne | App.tsx:51 | with distinct ids, the map changes at most the merchant found by the lookup; the escrow fund moves by the balance delta only when that merchant exists |
| Ledger.AdjustMerchantKeepsInvariant | App.tsx:51 | the company map keeps company ids distinct and rates non-negative |
| Ledger.AdjustUserPointwise | App.tsx:112 | the user map changes exactly the entries with the id, by the given point, streak and spin deltas |
| Ledger.AdjustUserTouchesOne | App.tsx:112 | with distinct ids, the map changes only that one user; total points move by the point delta, and no balance goes negative if that user's stays non-negative |
| Ledger.TransferMapPointwise | App.tsx:90-94 | the transfer map debits the sender's entries, credits the receiver's, and leaves every other user unchanged |
| Ledger.TransferMapTouchesTwo | App.tsx:90-94 | between two distinct users, the map is exactly a debit of the sender and a credit of the receiver; total points and distinct ids are kept |
| Ledger.SumPointsUpdate | App.tsx:125 | replacing one user moves the points total by exactly that user's difference |
| Ledger.SumBalancesUpdate | App.tsx:126 | replacing one company moves the escrow total by exactly that company's difference |
| Ledger.SumFeesPrepend | App.tsx:131 | a new log record adds its fee (or 0 when absent) to the revenue |
| Ledger.Treasury | App.tsx:124-135 | liability = 1000 * total points; escrow = total balances; revenue = total fees; the safety ratio times the liability is the escrow when the liability is positive, else 2.0; breakage is 5% and forecast burn 10% of the liability |
| Ledger.TreasuryFollowsTotals | App.tsx:124-135 | the summary depends only on the three totals: states with equal totals have equal summaries |
| Ledger.SafetyRatioMeansCoverage | App.tsx:130 | the safety ratio is at least 1 exactly when the escrow covers the liability or there is no liability |
| Ledger.TransactStep | App.tsx:34-82 | a refused transaction leaves the state as it was; an accepted one prepends exactly one record to the log |
| Ledger.EarnStep | App.tsx:47-53 | a refused EARN reports insufficient escrow and changes nothing; an accepted one prepends one record |
| Ledger.BurnStep | App.tsx:54-61 | a refused BURN reports insufficient points and changes nothing; an accepted one prepends one record |
| Ledger.EscrowStep | App.tsx:62-66 | a refused WITHDRAW reports insufficient escrow and changes nothing; an accepted DEPOSIT or WITHDRAW leaves the users as they were and prepends one record |
| Ledger.TransferStep | App.tsx:84-106 | a refused transfer changes nothing; no transfer touches a company; an accepted one prepends one record |
| Ledger.CheckInUsers | App.tsx:111-112 | a check-in keeps the list's length and every user's id and role |
| Ledger.SpinStep | App.tsx:116-120 | a refused spin reports no spins left and changes nothing; no spin touches companies or the log |
| Ledger.SettleFootprint | App.tsx:45-81 | settling changes no user but the actor and no company but those with the merchant's id, and prepends the receipt |
| Ledger.SettleAccounting | App.tsx:51-81 | settling replaces the actor, adjusts the named merchant if it exists, and prepends the receipt; liability, escrow and revenue move by exactly the actor's point change, the merchant's balance change and the receipt's fee |
| Ledger.EarnAccounting | App.tsx:47-53 | EARN is refused exactly when a known merchant's escrow is below the points' VND value; a refusal changes nothing; otherwise the user list is the old one with only the actor's points (+floor(amount*rate/1000)) and exp (+amount/1000) changed; the company list is the old one with only a known merchant's balance (-1000 per point) and issued counter changed; the log is the old one with exactly the EARN receipt (no points spent, no fee) in front; liability rises, escrow falls by the same VND, and revenue is unchanged |
| Ledger.EarnSettled | App.tsx:49-53 | for any number of points earned that a known merchant can afford: only that merchant's balance and issued counter change, the totals move by the points' VND value, and the invariant and non-negative escrow are kept |
| Ledger.BurnAccounting | App.tsx:54-61 | BURN is refused exactly when the user holds fewer points than are spent; a refusal changes nothing; otherwise the user list is the old one with only the actor's points reduced by exactly those points; the company list is the old one with only a known merchant's balance (+985 VND per point) and redeemed counter changed; the log is the old one with exactly the BURN receipt (no points earned, the 15 VND per point fee) in front; revenue grows by that fee |
| Ledger.EscrowAccounting | App.tsx:62-66 | DEPOSIT always succeeds; WITHDRAW is refused exactly when the merchant's balance (0 if unknown) is below the amount; otherwise the users are unchanged, the company list is the old one with only a known merchant's balance moved by the amount (counters and rate kept), and the log is the old one with exactly the receipt (no counters, no fee) in front |
| Ledger.TransactDispatch | App.tsx:34-82 | a blacklisted actor is refused before anything else; the four types follow their own rules; any other type only prepends a record |
| Ledger.TransactFootprint | App.tsx:45-81 | a refusal changes nothing; an accepted call changes no user but the actor and no company but the named one, and prepends one COMPLETED record of the actor, type, amount and merchant |
| Ledger.TransactKeepsInvariant | App.tsx:34-82 | every transaction keeps the invariant; point balances stay non-negative (given a non-negative EARN amount); escrow stays non-negative (given non-negative DEPOSIT and BURN amounts) |
| Ledger.TransferOutcome | App.tsx:84-88 | a transfer is refused, in this order, for an unknown email, too few points, or a self-transfer; a refusal changes nothing; otherwise the acting user pays the user found by email |
| Ledger.TransferAccounting | App.tsx:90-106 | a transfer debits the sender and credits the receiver by the amount; nothing else changes; total points and all three treasury totals are kept; a SYSTEM, zero-VND TRANSFER record naming both users is prepended |
| Ledger.TransferKeepsTreasury | App.tsx:90-94 | a transfer leaves the whole treasury summary unchanged |
| Ledger.TransferPointsNonNegative | App.tsx:87-94 | a transfer of a non-negative amount leaves no point balance negative |
| Ledger.CheckInEffect | App.tsx:111-114 | a check-in gives the acting user alone +10 points, +1 streak and +1 spin; total points rise by 10 |
| Ledger.SpinEffect | App.tsx:116-122 | a spin is refused exactly when the acting user has no spin left; otherwise that user alone gains one of 50, 100, 200, 500 or 1000 points and loses one spin; companies and log are unchanged |
| Ledger.LoyaltyLedger.constructor | App.tsx:15-19 | the session starts from the seed users and companies, with an empty log and the first user acting |
| Ledger.LoyaltyLedger.Actor | App.tsx:22-25 | the current user is a valid position in the user list |
| Ledger.LoyaltyLedger.SwitchRole | App.tsx:27-32 | after a role switch, the first user with the role is acting (or the first user, if none has it) |
| Ledger.LoyaltyLedger.Transact | App.tsx:34-82 | the handler's outcome and new state are exactly `TransactStep` of the old state; the invariant is kept |
| Ledger.LoyaltyLedger.Earn | App.tsx:47-53 | the EARN branch's outcome and new state are exactly `EarnStep` |
| Ledger.LoyaltyLedger.Burn | App.tsx:54-61 | the BURN branch's outcome and new state are exactly `BurnStep` |
| Ledger.LoyaltyLedger.MoveEscrow | App.tsx:62-66 | the DEPOSIT and WITHDRAW branches' outcome and new state are exactly `EscrowStep`; users are not touched |
| Ledger.LoyaltyLedger.Transfer | App.tsx:84-109 | the transfer's outcome and new state are exactly `TransferStep`; companies are not touched; the invariant is kept |
| Ledger.LoyaltyLedger.CheckIn | App.tsx:111-114 | the users after a check-in are exactly `CheckInUsers` of the old users |
| Ledger.LoyaltyLedger.Spin | App.tsx:116-122 | the spin's outcome and new users are exactly `SpinStep` for the drawn reward |
| Scenarios.EarnScenario | App.tsx:47-53 | spending 100,000 VND at rate 0.1 with 5,000,000 of escrow earns 10 points and leaves 4,990,000 of escrow |
| Scenarios.BurnScenario | App.tsx:54-61 | burning all of 50 points leaves 0 points, credits the merchant 49,250, and records a fee of 750 |
| Scenarios.WithdrawScenario | App.tsx:64-65 | withdrawing 1,000,000 from 500,000 of escrow is refused and changes nothing |
| Seqs.Filter | components/BottleneckRadar.tsx:11-12 | filter keeps exactly the elements satisfying the test, each as often as before and in their original order |
| Radar.Relevant | components/BottleneckRadar.tsx:11 | the relevant bottlenecks are exactly those of the category that are not RESOLVED, each as often as it occurs, in their original order |
| Radar.CloggedAmong | components/BottleneckRadar.tsx:12 | the clogged list is exactly the CLOGGED members of the relevant list, each as often as it occurs there, in order |
| Radar.IsClogged | components/BottleneckRadar.tsx:13 | the badge is clogged exactly when some relevant bottleneck is CLOGGED |
| Radar.CloggedInCategory | components/BottleneckRadar.tsx:11-13 | the relevant list holds a clogged entry exactly when some bottleneck of the category is CLOGGED |
| Radar.Render | components/BottleneckRadar.tsx:15-44 | nothing is shown exactly when the category has no open bottleneck; otherwise the dot is red exactly when one of them is CLOGGED, every open one is listed, and the overflow note appears exactly above three, reporting the count beyond three |
| Menu.MenuItems | components/Navbar.tsx:17-49 | every role's menu starts at the dashboard, ends with the strategy entry, has no repeated id, and has 5 entries for members and affiliates and 4 for the other roles |
| Menu.MemberMenu | components/Navbar.tsx:20-27 | MEMBER and AFFILIATE get dashboard, marketplace, gamification, affiliate, strategy |
| Menu.MerchantMenu | components/Navbar.tsx:29-36 | DIRECTOR, MANAGER and CASHIER get dashboard, inventory, settlement, strategy |
| Menu.AdminMenu | components/Navbar.tsx:38-43 | ADMIN gets dashboard, partners, security, strategy |

## Left out

- Rendering is not modelled: JSX, modals, tabs, alerts' wording, CSS
  classes and number formatting. This covers the views under
  `components/` other than the radar and the menu. The `activeTab` reset
  and the scroll in the role switch are left out too.
- The AI advisor and the chat support (`services/gemini.ts`) are external
  network calls with no effect on the ledger.
- Floating point is not modelled. Rates, the earn formula and the fee are
  exact. The fee `cashValue * 0.015` is taken as the whole number
  `15 * pointsSpent`, which IEEE doubles may miss in the last bit.
- Ids and time are parameters. Random transaction ids and `new Date()`
  are `txId` and `now`. The spin's `Math.random()` draw is the parameter
  `rewardIndex`.
- React's asynchronous state updates are not modelled. The model applies
  each handler's updates as one step on the current state.
- `amount` values that are not numbers (NaN, from unparsed input) are not
  modelled. Amounts are integers.
- The seed data of `data/mockData.ts` is not part of this model. Neither
  is the extra `reserve` and `lastReconDelta` fields added to companies at
  start-up (`App.tsx:17`), which nothing in the core reads.
- User, company and transaction fields the core does not read are left
  out: name, tier, avatar, products, quests, and the bottleneck texts and
  impact.
- The declared but unused transaction types, the static stats structures,
  and the 2-of-2 signature and T+1 payout rules are left out. They have no
  logic in the source.
- Menu labels and icons are left out.
- Menu.MenuItems: the `default` branch of the role switch (an empty base
  menu) is left out. The role type has exactly six roles, so that branch
  cannot be reached.
- Radar.Render: the tooltip's per-item texts and colours are left out.
- Ledger.TransactKeepsInvariant: non-negative balances are stated only for
  non-negative EARN, DEPOSIT and BURN amounts. The handler does not reject
  negative amounts, so the unconditional property does not hold for the
  source.
- Ledger.TransferPointsNonNegative: stated only for a non-negative amount,
  for the same reason.
- Ledger.LoyaltyLedger.Transact: the EARN, BURN and escrow branches are
  split into the helper methods `Earn`, `Burn` and `MoveEscrow`.
