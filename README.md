# Pachinko slot bot: verified model of the spin engine, the ledger and the money-moving handlers

This project models the part of the Discord slot-machine bot that decides who
wins how much and keeps the books:

- **The spin engine** (`slot.dfy`, module `Slot`). It models `weightedRandom`.
  A roll over a total weight of 103 gives wild on the first 1.5 units, scatter
  on the next 1.5, and then the six catalog symbols in catalog order. It also
  models `spin`: three draws, then the five payout rules applied in the
  source's order. The rules are triple match, wild bonus, scatter free spins,
  the ultimate combo (7, diamond, wild) and 777 jackpot/fever.
  `WeightedRandom` and `Evaluate` keep the source's loop and if-cascade. They
  are proved equal to an independent, declarative view: `DrawOf` describes the
  cumulative weight bands. `Classify` sorts the reels into a *hand*, and
  `Paytable` and `Captions` give that hand's pay and description.
- **The ledger** (`store.dfy`, module `Ledger`). The SQLite store becomes a
  class `Store`. Its users table is a `map<UserId, Account>` and its jackpot
  row is an `int`. The model covers lazy account creation, the post-spin
  update, the 24-hour daily check and the calendar-day streak, adding to and
  paying out the jackpot, and the balance leaderboard.
- **The handlers** (`bot.dfy`, module `SlotBot`). `/slot` checks the balance
  and the cooldown, feeds the pool, plays the paid round and its free rounds,
  and commits the session. `/daily` applies the bonus formula and its wait
  message (`msToReadable`).

Randomness comes in as parameters. A reel draw is the uniform value `u` that
`Math.random()` would return; a round draws three of them, one per reel
(`slot.ts:51`). The jackpot draw is a fourth uniform value, used only on 777
(`slot.ts:84`). All four live in `RoundDraws`, and a session's draws are a function
`nat -> RoundDraws`, where round `k` uses `draws(k)`. The clock `now`, the
configured `startingBalance`, `dailyReward` and `spinCooldownMs`, and the
host's offset from UTC are parameters too.

Three details of the code shape the model:

- A roll past every band falls back to the first catalog symbol, cherry (`slot.ts:31`).
- Free rounds never grant further free rounds, and they add nothing to the jackpot (`index.ts:123-130`).
- `topBalances` with a negative limit lists every user, as SQLite's `LIMIT -1` does (`store.ts:149`).

## Model

| member | source | states |
|---|---|---|
| Slot.TotalWeight | src/slot.ts:20 | the draw's total weight is 103: the catalog weights plus 3 for wild and scatter |
| Slot.CumOfCatalog | src/slot.ts:7-14 | the six catalog weights add up to 100 |
| Slot.CumIncreasing | src/slot.ts:27-30 | the cumulative catalog bands are strictly increasing, so each roll falls in at most one band |
| Slot.WeightedRandom | src/slot.ts:19-32 | the decrementing loop returns exactly the icon of the band that holds `u * 103` (`DrawOf`), including the fallback |
| Slot.BandIndexFinds | src/slot.ts:27-30 | an offset in `[Cum(k), Cum(k+1))` is matched by catalog entry `k` and no earlier one |
| Slot.BandIndexPastAll | src/slot.ts:27-31 | an offset at or past 100 matches no catalog entry |
| Slot.DrawOfBands | src/slot.ts:20-31 | wild iff roll < 1.5; scatter iff 1.5 <= roll < 3; entry `k` on `[3 + Cum(k), 3 + Cum(k+1))`; cherry (the first entry) from 103 on |
| Slot.FallbackNeedsOutOfRangeRoll | src/slot.ts:21-31 | a uniform value in [0, 1) always lands in a band; only a value of 1 or more reaches the cherry fallback |
| Slot.Count | src/slot.ts:38-40 | the count is at most the reel count, positive iff the icon shows, and full iff every reel shows it |
| Slot.CountIsMultiplicity | src/slot.ts:38-40 | the count is exactly the number of reels showing the icon, its multiplicity in the reels |
| Slot.AllSame | src/slot.ts:34-36 | true iff every reel equals the first (vacuously true on no reels) |
| Slot.Find | src/slot.ts:61 | `Some` only with a catalog entry for the icon at or after the start index; `None` iff there is no such entry |
| Slot.CatalogMultiplier | src/slot.ts:61-62 | the multiplier looked up for a catalog icon is that entry's base multiplier |
| Slot.HandFacts | src/slot.ts:60-83 | each rule guard of `spin` (triple, wilds >= 2 and == 2, scatters >= 2 and == 2, combo, 777) holds iff the reels make the matching hand |
| Slot.Evaluate | src/slot.ts:52-94 | the five-rule cascade over three reels yields the paytable's payout, captions, free spins and jackpot flag for their hand |
| Slot.Spin | src/slot.ts:50-95 | a round is three draws by the band rule, then evaluated by the paytable |
| Slot.TripleMatchPays | src/slot.ts:60-64 | three equal catalog icons other than 7 pay exactly bet times their multiplier, with a triple caption, no free spins and no jackpot |
| Slot.CherryTriplePays200 | src/slot.ts:60-64 | three cherries at bet 100 pay 200 |
| Slot.WildBonusPays | src/slot.ts:60-70 | two wilds pay at least bet*6 and three at least bet*25, with the wild caption replacing the description; three wilds are never a triple match |
| Slot.FreeSpinsFromScatters | src/slot.ts:56-73 | free spins are 0 below two scatters, 1 for two and 3 for three, so always 0, 1 or 3 |
| Slot.ScatterPays | src/slot.ts:72-76 | with two or more scatters the payout is floor(bet * scatters / 2), and the free-spin note is appended to the default caption |
| Slot.UltimateComboPays | src/slot.ts:78-81 | 7, diamond and wild together pay at least bet*75 under the ultimate caption |
| Slot.SevensPay | src/slot.ts:62-92 | for 777 the jackpot is hit iff the draw is below 0.25; a hit pays bet*35 plus the whole pool; a miss pays exactly bet*50 |
| Slot.JackpotOnlyOnSevens | src/slot.ts:83-84 | only 777 with a draw below 0.25 sets the jackpot flag |
| Slot.PayoutNonNegative | src/slot.ts:55-92 | a non-negative bet against a non-negative pool never pays a negative amount |
| Ledger.AfterSpinBooksNetResult | src/store.ts:86-103 | a committed session counts one spin and books its net as a win or a loss, never both; won minus lost moves by payout minus bet; the biggest win becomes at least the payout; the daily columns are untouched |
| Ledger.YesterdayIsPreviousDay | src/store.ts:117 | the calendar day 24 hours before `now` is the day before `now`'s |
| Ledger.StreakRule | src/store.ts:119-121 | the same day keeps the streak, the next day extends it by one, and any other day restarts it at 1 |
| Ledger.DailyGateSkipsSameDay | src/store.ts:105-121 | a claim that passed the 24-hour check is always on a later calendar day than the last one |
| Ledger.ClaimOpensADayLater | src/store.ts:105-111 | after a claim at `t`, claiming opens exactly at `t` + 24 h, and until then the wait is positive and counts down to that moment |
| Ledger.RankedPrefixExtend | src/store.ts:149 | listing the richest unlisted user next keeps the listing duplicate-free, ordered by balance and ahead of everyone unlisted |
| Ledger.Store.Open | src/store.ts:26-48 | opening keeps the stored users; the pool is the stored amount, or 5000 when no pool row exists yet |
| Ledger.Store.GetOrCreateUser | src/store.ts:50-70 | an existing row is returned unchanged; otherwise a row with the starting balance and every counter 0 is inserted and returned; no other row changes |
| Ledger.Store.UpdateAfterSpin | src/store.ts:86-103 | only that user's row changes: new balance and spin time, one more spin, won/lost/biggest-win updated; a missing user changes nothing |
| Ledger.Store.CanClaimDaily | src/store.ts:105-111 | the remaining wait is max(0, last claim + 24 h - now), and a claim is allowed iff that wait is 0 |
| Ledger.Store.ClaimDaily | src/store.ts:113-130 | the streak follows the calendar-day rule; the row gets the reward, the claim time and the new streak; the row is created first if missing |
| Ledger.Store.GetJackpot | src/store.ts:132-135 | returns the current pool |
| Ledger.Store.AddJackpot | src/store.ts:137-139 | the pool grows by exactly the amount |
| Ledger.Store.ConsumeJackpot | src/store.ts:141-145 | returns the pool as it was and leaves exactly 5000 |
| Ledger.Store.Richest | src/store.ts:149 | picks a user among the given ones with the largest balance |
| Ledger.Store.TopBalances | src/store.ts:147-151 | returns `limit` rows, or all users when there are fewer or the limit is negative; the rows are real users' columns, each user at most once, ordered by non-increasing balance, and no unlisted user is richer than a listed one |
| SlotBot.Contribution | src/index.ts:113 | the contribution is at least 1; from a bet of 50 on it is the floor of 2% of the bet |
| SlotBot.SecondsCeil | src/index.ts:103-104 | the cooldown seconds are the ceiling of the remaining milliseconds over 1000 |
| SlotBot.MsToReadable | src/index.ts:27-31 | for a non-negative duration: whole hours, plus 0 to 59 whole minutes left over, with the duration between h:m and h:(m+1); JavaScript's truncating `%` keeps minutes at or above -60 otherwise |
| SlotBot.PlaySlot | src/index.ts:93-133 | a bet over the balance is refused, and so is one inside the cooldown, with only the user lookup done; a played session is committed with balance - bet + the sum of the round payouts, and the pool is what the last round left; from a non-negative bet and pool the committed balance is at least balance - bet, so never negative |
| SlotBot.PlayRounds | src/index.ts:108-130 | the paid round sees the pool plus the contribution; then as many free rounds as the paid round granted, each at bet 0, seeing what the previous round left (the seed after a hit); the total is the sum of the payouts |
| SlotBot.SessionExtend | src/index.ts:123-130 | a free round played against the pool the session left extends the session and adds its payout to the total |
| SlotBot.PoolChainExtend | src/index.ts:124-129 | appending a bet-0 round that sees the previous round's leftover pool keeps the pool chain |
| SlotBot.RoundsDrawnExtend | src/index.ts:124 | appending the spin of the next draws keeps every round the spin of its own draws |
| SlotBot.SessionPrefix | src/index.ts:115-130 | a session minus its last round is still a session |
| SlotBot.HitResetsLaterRounds | src/index.ts:119-129 | once a round hits the jackpot, every later round of the session sees 5000, so a pool is paid out at most once |
| SlotBot.SessionPaysNonNegative | src/index.ts:115-130 | from a non-negative bet and pool, every round sees a non-negative pool and the session pays a non-negative total |
| SlotBot.CommittedBalanceNonNegative | src/index.ts:97-132 | a session that passed the balance check commits a balance of at least the old balance minus the bet, so never below 0 |
| SlotBot.SessionLength | src/index.ts:117-123 | a session has 1, 2 or 4 rounds: free rounds never grant more rounds |
| SlotBot.Daily | src/index.ts:64-75 | inside 24 h the handler reports the positive wait and its hours and minutes; otherwise it pays dailyReward + 100 per streak day held before the claim, and the new streak is the old one plus 1, or 1 |

## Left out

- Discord I/O is not modelled: the client, command registration, embeds, replies and the log and caption strings. Captions are kept only as tags (`Caption`), so "replaced" and "appended" can still be told apart.
- Configuration loading (`src/config.ts`) is not part of this model. `startingBalance`, `dailyReward`, `spinCooldownMs` and the host's UTC offset are parameters.
- SQLite mechanics are not modelled: file creation, the WAL pragma, DDL, prepared statements and row mapping. The tables are a map and an int, and an `UPDATE` on a missing row is a no-op.
- The `/balance`, `/jackpot`, `/rank` and `/help_slot` replies are not modelled. They only read and format values that `GetOrCreateUser`, `GetJackpot` and `TopBalances` already model.
- Slot.WeightedRandom: the rolls are exact reals, so floating-point rounding of `Math.random() * 103` and of the repeated subtraction is not modelled.
- SlotBot.Contribution: `Math.floor(bet * 0.02)` is taken as the exact floor of bet/50, and `Math.floor(bet * 0.5 * scatters)` as floor(bet * scatters / 2). Floating-point rounding could only differ from these for wagers far beyond any balance.
- Ledger.DayOf: `toDateString` is modelled as a fixed offset from UTC. Daylight-saving changes, which make some local days 23 or 25 hours long, are not modelled.
- Ledger.Store.TopBalances: the default `limit = 10` of `topBalances` is not modelled; the limit is always passed, as the one caller passes 10.
- Ledger.Store.TopBalances: SQLite's order among users with equal balances is unspecified, so the model promises only non-increasing balances.
- SlotBot.PlaySlot: the model accepts any integer bet. The `/slot` option's minimum of 10 is enforced by Discord and is not a precondition here.
- Concurrency is not modelled. The handlers run one at a time on a single thread, so each is one atomic method.
- The statistical distribution of draws is not modelled. Frequency claims are not contracts.
