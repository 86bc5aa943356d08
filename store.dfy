/**
 * The account ledger: one row per user, keyed by user id, and the singleton
 * jackpot pool. The two database tables become a map field and an int field
 * of `Store`; every statement the source runs against them becomes one
 * atomic method.
 */
module Ledger {
  import opened Wrappers

  type UserId = string

  /** Milliseconds in 24 hours: the daily-claim interval and a calendar day. */
  const DayMs: int := 24 * 60 * 60 * 1000

  /** The amount the jackpot pool is created with and reset to after a payout. */
  const JackpotSeed: int := 5000

  /** One row of the users table. Timestamps are milliseconds, 0 meaning never. */
  datatype Account = Account(
    userId: UserId,
    balance: int,
    totalSpins: int,
    totalWon: int,
    totalLost: int,
    biggestWin: int,
    lastDailyAt: int,
    lastSpinAt: int,
    streakDays: int)

  /** The counters a row only ever grows from zero. */
  predicate WellFormed(a: Account) {
    a.totalSpins >= 0 && a.totalWon >= 0 && a.totalLost >= 0 && a.biggestWin >= 0 && a.streakDays >= 0
  }

  /** A freshly inserted row: the starting balance and every other column at its default, 0. */
  function NewAccount(userId: UserId, startingBalance: int): Account {
    Account(userId, startingBalance, 0, 0, 0, 0, 0, 0, 0)
  }

  function Max(a: int, b: int): int {
    if a < b then b else a
  }

  /** The row after one committed spin session (the `UPDATE` of `updateAfterSpin`). */
  function AfterSpin(a: Account, nextBalance: int, bet: int, payout: int, now: int): Account {
    a.(balance := nextBalance,
       totalSpins := a.totalSpins + 1,
       totalWon := a.totalWon + Max(0, payout - bet),
       totalLost := a.totalLost + Max(0, bet - payout),
       biggestWin := Max(a.biggestWin, payout),
       lastSpinAt := now)
  }

  /**
   * A committed spin counts once, books its net result as either a win or a
   * loss (never both), so that won minus lost moves by exactly payout minus
   * bet, raises the biggest win to at least the payout, and leaves the daily
   * columns alone.
   */
  lemma AfterSpinBooksNetResult(a: Account, nextBalance: int, bet: int, payout: int, now: int)
    ensures var b := AfterSpin(a, nextBalance, bet, payout, now);
      && b.userId == a.userId && b.balance == nextBalance && b.lastSpinAt == now
      && b.totalSpins == a.totalSpins + 1
      && (b.totalWon == a.totalWon || b.totalLost == a.totalLost)
      && b.totalWon >= a.totalWon && b.totalLost >= a.totalLost
      && (b.totalWon - b.totalLost) - (a.totalWon - a.totalLost) == payout - bet
      && b.biggestWin >= a.biggestWin && b.biggestWin >= payout
      && (b.biggestWin == a.biggestWin || b.biggestWin == payout)
      && b.lastDailyAt == a.lastDailyAt && b.streakDays == a.streakDays
      && (WellFormed(a) ==> WellFormed(b))
  {
  }

  /** The calendar day of a timestamp, for a fixed offset of local time from UTC. */
  function DayOf(t: int, utcOffsetMs: int): int {
    (t + utcOffsetMs) / DayMs
  }

  /** The calendar day 24 hours before `now` is the day before `now`'s. */
  lemma YesterdayIsPreviousDay(now: int, utcOffsetMs: int)
    ensures DayOf(now - DayMs, utcOffsetMs) == DayOf(now, utcOffsetMs) - 1
  {
    var t := now + utcOffsetMs;
    assert t - DayMs == (t / DayMs - 1) * DayMs + t % DayMs;
  }

  /**
   * The streak after a claim on day `today` when the last claim was on day
   * `lastDay`: unchanged on the same day, one more on the next day, and
   * restarted at 1 after a gap (or a last claim dated in the future).
   */
  function StreakAfter(lastDay: int, today: int, streak: int): int {
    if lastDay == today then streak
    else if lastDay == today - 1 then streak + 1
    else 1
  }

  /** What `canClaimDaily` reports. */
  datatype DailyCheck = DailyCheck(canClaim: bool, remainingMs: int)

  /** One leaderboard row, the four columns `topBalances` selects. */
  datatype LeaderRow = LeaderRow(userId: UserId, balance: int, totalSpins: int, biggestWin: int)

  function RowOf(id: UserId, a: Account): LeaderRow {
    LeaderRow(id, a.balance, a.totalSpins, a.biggestWin)
  }

  /** The user ids a leaderboard lists. */
  function Listed(rows: seq<LeaderRow>): set<UserId> {
    set i | 0 <= i < |rows| :: rows[i].userId
  }

  /**
   * The persistent store: the users table as a map from user id to row and
   * the jackpot table's single row as an int.
   */
  class Store {
    var users: map<UserId, Account>
    var jackpot: int
    const startingBalance: int
    const utcOffsetMs: int

    /** Every row is filed under its own user id and its counters are well formed. */
    ghost predicate Valid()
      reads this
    {
      forall id :: id in users ==> users[id].userId == id && WellFormed(users[id])
    }

    /** The row `getOrCreateUser` yields for `id`: the stored one, or a fresh one. */
    function AccountOrNew(id: UserId): (a: Account)
      reads this
    {
      if id in users then users[id] else NewAccount(id, startingBalance)
    }

    /**
     * Opens the store over whatever tables already exist: `CREATE TABLE IF
     * NOT EXISTS` keeps stored rows, and `INSERT OR IGNORE` seeds the pool
     * with 5000 only when it has no row yet.
     */
    constructor Open(startingBalance: int, utcOffsetMs: int, storedUsers: map<UserId, Account>, storedJackpot: Option<int>)
      requires forall id :: id in storedUsers ==> storedUsers[id].userId == id && WellFormed(storedUsers[id])
      ensures Valid()
      ensures this.startingBalance == startingBalance && this.utcOffsetMs == utcOffsetMs
      ensures users == storedUsers
      ensures jackpot == match storedJackpot case Some(amount) => amount case None => JackpotSeed
    {
      this.startingBalance := startingBalance;
      this.utcOffsetMs := utcOffsetMs;
      users := storedUsers;
      jackpot := match storedJackpot case Some(amount) => amount case None => JackpotSeed;
    }

    /** Returns the user's row, inserting one with the starting balance if there is none. */
    method GetOrCreateUser(userId: UserId) returns (a: Account)
      requires Valid()
      modifies this`users
      ensures Valid()
      ensures old(userId in users) ==> a == old(users[userId]) && users == old(users)
      ensures old(userId !in users) ==> a == NewAccount(userId, startingBalance) && users == old(users)[userId := a]
      ensures a == old(AccountOrNew(userId)) && users == old(users)[userId := a]
    {
      if userId in users {
        a := users[userId];
        return;
      }
      a := NewAccount(userId, startingBalance);
      users := users[userId := a];
    }

    /**
     * Commits a spin session: sets the balance and the spin time and books the
     * session's bet and payout. Like the `UPDATE ... WHERE user_id = ?` it
     * models, it does nothing for a user without a row.
     */
    method UpdateAfterSpin(userId: UserId, nextBalance: int, bet: int, payout: int, now: int)
      requires Valid()
      modifies this`users
      ensures Valid()
      ensures userId in old(users) ==>
        users == old(users)[userId := AfterSpin(old(users[userId]), nextBalance, bet, payout, now)]
      ensures userId !in old(users) ==> users == old(users)
    {
      var deltaWon := Max(0, payout - bet);
      var deltaLost := Max(0, bet - payout);
      if userId in users {
        var row := users[userId];
        users := users[userId := row.(
          balance := nextBalance,
          totalSpins := row.totalSpins + 1,
          totalWon := row.totalWon + deltaWon,
          totalLost := row.totalLost + deltaLost,
          biggestWin := Max(row.biggestWin, payout),
          lastSpinAt := now)];
      }
    }

    /**
     * Whether a user may claim the daily reward at `now`, and if not, how long
     * until they may: the claim opens 24 hours after the last one.
     */
    static function CanClaimDaily(user: Account, now: int): (c: DailyCheck)
      ensures c.remainingMs == Max(0, user.lastDailyAt + DayMs - now)
      ensures c.canClaim <==> c.remainingMs == 0
    {
      var interval := 24 * 60 * 60 * 1000;
      var elapsed := now - user.lastDailyAt;
      if elapsed >= interval then DailyCheck(true, 0) else DailyCheck(false, interval - elapsed)
    }

    /**
     * Grants `reward` and records the claim at `now`, returning the new streak.
     * The streak compares calendar days; the row is created first if missing.
     */
    method ClaimDaily(userId: UserId, reward: int, now: int) returns (streak: int)
      requires Valid()
      modifies this`users
      ensures Valid()
      ensures var before := old(AccountOrNew(userId));
        && streak == StreakAfter(DayOf(before.lastDailyAt, utcOffsetMs), DayOf(now, utcOffsetMs), before.streakDays)
        && users == old(users)[userId := before.(balance := before.balance + reward, lastDailyAt := now, streakDays := streak)]
    {
      var user := GetOrCreateUser(userId);
      var lastDate := DayOf(user.lastDailyAt, utcOffsetMs);
      var nowDate := DayOf(now, utcOffsetMs);
      var yesterdayDate := DayOf(now - DayMs, utcOffsetMs);
      YesterdayIsPreviousDay(now, utcOffsetMs);

      var nextStreak := 1;
      if lastDate == yesterdayDate {
        nextStreak := user.streakDays + 1;
      }
      if lastDate == nowDate {
        nextStreak := user.streakDays;
      }

      var row := users[userId];
      users := users[userId := row.(balance := row.balance + reward, lastDailyAt := now, streakDays := nextStreak)];
      streak := nextStreak;
    }

    /** The pool amount (`getJackpot`). */
    method GetJackpot() returns (amount: int)
      ensures amount == jackpot
    {
      amount := jackpot;
    }

    /** Adds `amount` to the pool. */
    method AddJackpot(amount: int)
      modifies this`jackpot
      ensures jackpot == old(jackpot) + amount
    {
      jackpot := jackpot + amount;
    }

    /** Pays out the pool: returns its amount and resets it to the seed. */
    method ConsumeJackpot() returns (amount: int)
      modifies this`jackpot
      ensures amount == old(jackpot) && jackpot == JackpotSeed
    {
      amount := GetJackpot();
      jackpot := JackpotSeed;
    }

    /** A user among `keys` with the largest balance. */
    method Richest(keys: set<UserId>) returns (best: UserId)
      requires keys != {} && keys <= users.Keys
      ensures best in keys
      ensures forall id :: id in keys ==> users[id].balance <= users[best].balance
    {
      best :| best in keys;
      var rest := keys - {best};
      while rest != {}
        invariant rest <= keys && best in keys
        invariant forall id :: id in keys && id !in rest ==> users[id].balance <= users[best].balance
        decreases rest
      {
        var id :| id in rest;
        if users[id].balance > users[best].balance {
          best := id;
        }
        rest := rest - {id};
      }
    }

    /**
     * The leaderboard (`ORDER BY balance DESC LIMIT limit`): the `limit`
     * richest users, richest first, ties in no particular order. As in SQLite,
     * a negative limit means no limit.
     */
    method TopBalances(limit: int) returns (rows: seq<LeaderRow>)
      ensures |rows| == if 0 <= limit < |users| then limit else |users|
      ensures forall i :: 0 <= i < |rows| ==> rows[i].userId in users && rows[i] == RowOf(rows[i].userId, users[rows[i].userId])
      ensures forall i, j :: 0 <= i < j < |rows| ==> rows[i].userId != rows[j].userId
      ensures forall i, j :: 0 <= i < j < |rows| ==> rows[i].balance >= rows[j].balance
      ensures forall id, i :: id in users && id !in Listed(rows) && 0 <= i < |rows| ==> users[id].balance <= rows[i].balance
    {
      var n := if 0 <= limit < |users| then limit else |users|;
      var remaining := users.Keys;
      rows := [];
      while |rows| < n
        invariant |rows| <= n
        invariant |remaining| == |users| - |rows|
        invariant RankedPrefix(users, rows, remaining)
        decreases n - |rows|
      {
        var best := Richest(remaining);
        RankedPrefixExtend(users, rows, remaining, best);
        rows := rows + [RowOf(best, users[best])];
        remaining := remaining - {best};
      }
    }
  }

  /**
   * `rows` lists, richest first and each once, users of `users` who are all at
   * least as rich as every user in `remaining`, the users not yet listed.
   */
  ghost predicate RankedPrefix(users: map<UserId, Account>, rows: seq<LeaderRow>, remaining: set<UserId>) {
    && remaining == users.Keys - Listed(rows)
    && (forall i :: 0 <= i < |rows| ==> rows[i].userId in users && rows[i] == RowOf(rows[i].userId, users[rows[i].userId]))
    && (forall i, j :: 0 <= i < j < |rows| ==> rows[i].userId != rows[j].userId)
    && (forall i, j :: 0 <= i < j < |rows| ==> rows[i].balance >= rows[j].balance)
    && (forall id, i :: id in remaining && 0 <= i < |rows| ==> users[id].balance <= rows[i].balance)
  }

  /** Listing the richest remaining user next keeps the listing ranked. */
  lemma RankedPrefixExtend(users: map<UserId, Account>, rows: seq<LeaderRow>, remaining: set<UserId>, best: UserId)
    requires RankedPrefix(users, rows, remaining)
    requires best in remaining
    requires forall id :: id in remaining ==> users[id].balance <= users[best].balance
    ensures RankedPrefix(users, rows + [RowOf(best, users[best])], remaining - {best})
  {
    var rows' := rows + [RowOf(best, users[best])];
    assert Listed(rows') == Listed(rows) + {best} by {
      forall id | id in Listed(rows')
        ensures id in Listed(rows) + {best}
      {
        var i :| 0 <= i < |rows'| && rows'[i].userId == id;
        if i < |rows| {
          assert rows[i].userId == id;
        }
      }
      forall id | id in Listed(rows)
        ensures id in Listed(rows')
      {
        var i :| 0 <= i < |rows| && rows[i].userId == id;
        assert rows'[i].userId == id;
      }
      assert rows'[|rows|].userId == best;
    }
    assert best !in Listed(rows);
    forall i, j | 0 <= i < j < |rows'|
      ensures rows'[i].userId != rows'[j].userId && rows'[i].balance >= rows'[j].balance
    {
      if j == |rows| {
        assert rows'[i] == rows[i] && rows[i].userId in Listed(rows);
      }
    }
  }

  /** A claim that passed the 24-hour check is never on the same calendar day as the last one. */
  lemma {:induction false} DailyGateSkipsSameDay(last: int, now: int, utcOffsetMs: int)
    requires Store.CanClaimDaily(Account("", 0, 0, 0, 0, 0, last, 0, 0), now).canClaim
    ensures DayOf(last, utcOffsetMs) < DayOf(now, utcOffsetMs)
  {
    assert now - last >= DayMs;
    YesterdayIsPreviousDay(now, utcOffsetMs);
    assert DayOf(last, utcOffsetMs) <= DayOf(now - DayMs, utcOffsetMs);
  }

  /** The streak rule by calendar days: same day keeps it, next day extends it, any other day restarts it. */
  lemma StreakRule(lastDay: int, today: int, streak: int)
    ensures lastDay == today ==> StreakAfter(lastDay, today, streak) == streak
    ensures lastDay == today - 1 ==> StreakAfter(lastDay, today, streak) == streak + 1
    ensures lastDay < today - 1 || today < lastDay ==> StreakAfter(lastDay, today, streak) == 1
    ensures streak >= 0 ==> StreakAfter(lastDay, today, streak) >= 1 || (lastDay == today && streak == 0)
  {
  }

  /** After a claim at `t`, the next one opens exactly 24 hours later. */
  lemma ClaimOpensADayLater(a: Account, t: int, now: int)
    ensures var c := Store.CanClaimDaily(a.(lastDailyAt := t), now);
      && (c.canClaim <==> now >= t + DayMs)
      && (!c.canClaim ==> 0 < c.remainingMs && c.remainingMs == t + DayMs - now)
  {
  }
}
