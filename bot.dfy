/**
 * The bot's command handlers that move money: `/slot`, which validates a wager,
 * feeds the jackpot, plays the paid round and the free rounds it grants, and
 * commits the session to the ledger; and `/daily`, which pays the daily bonus.
 * Chat I/O is left out: a handler receives the user id, the command's
 * arguments and the clock, and returns what it would have replied.
 */
module SlotBot {
  import opened Slot
  import opened Ledger

  /** One logged round: its wager, the pool amount it was evaluated against, and its outcome. */
  datatype Round = Round(bet: int, jackpotSeen: int, result: SpinResult)

  datatype Rejection = InsufficientBalance | CoolingDown(secondsLeft: int)

  /** What a played `/slot` reports: bet, payout, the round log, the new balance and the pool. */
  datatype SpinReport = SpinReport(totalBet: int, totalPayout: int, rounds: seq<Round>, balance: int, jackpot: int)

  datatype SlotOutcome = Rejected(reason: Rejection) | Played(report: SpinReport)

  datatype DailyOutcome = NotYet(remainingMs: int, hours: int, minutes: int) | Granted(bonus: int, streak: int)

  /** The jackpot contribution of a wager: 2% of it rounded down, but at least 1. */
  function Contribution(bet: int): (c: int)
    ensures c >= 1
    ensures bet >= 50 ==> c * 50 <= bet < (c + 1) * 50
    ensures bet < 50 ==> c == 1
  {
    Ledger.Max(1, bet / 50)
  }

  /** Whole seconds left of a cooldown, rounded up (`Math.ceil(left / 1000)`). */
  function SecondsCeil(ms: int): (s: int)
    ensures (s - 1) * 1000 < ms <= s * 1000
  {
    -((-ms) / 1000)
  }

  /** JavaScript's `%`: the remainder of truncating division, with the sign of `a`. */
  function JsRem(a: int, b: int): int
    requires b > 0
  {
    if a >= 0 then a % b else -((-a) % b)
  }

  /** `msToReadable`: a duration as whole hours and the whole minutes left over. */
  function MsToReadable(ms: int): (hm: (int, int))
    ensures ms >= 0 ==> 0 <= hm.1 < 60
    ensures ms >= 0 ==> hm.0 * 3_600_000 + hm.1 * 60_000 <= ms < hm.0 * 3_600_000 + (hm.1 + 1) * 60_000
    ensures -60 <= hm.1 < 60
  {
    var h := ms / (60 * 60 * 1000);
    var m := JsRem(ms, 60 * 60 * 1000) / (60 * 1000);
    (h, m)
  }

  /** The pool left after a round: reset to the seed on a hit, as it was otherwise. */
  function PoolAfter(round: Round): int {
    if round.result.jackpotHit then JackpotSeed else round.jackpotSeen
  }

  /** Sum of the payouts of a round log. */
  function SumPayouts(rounds: seq<Round>): int {
    if rounds == [] then 0 else SumPayouts(rounds[..|rounds| - 1]) + rounds[|rounds| - 1].result.payout
  }

  /**
   * The rounds of one session, started with wager `bet` against a pool of
   * `poolBefore`, with round `k` drawing `draws(k)`: the paid round comes first
   * and sees the pool after the contribution; every later round is free (bet
   * 0) and sees the pool the round before it left.
   */
  ghost predicate SessionFollows(rounds: seq<Round>, bet: int, poolBefore: int, draws: nat -> RoundDraws) {
    PoolChain(rounds, bet, poolBefore) && RoundsDrawn(rounds, draws)
  }

  /** The wagers and pool amounts of a session's rounds, as described above. */
  ghost predicate PoolChain(rounds: seq<Round>, bet: int, poolBefore: int) {
    && |rounds| >= 1
    && rounds[0].bet == bet
    && rounds[0].jackpotSeen == poolBefore + Contribution(bet)
    && (forall k :: 1 <= k < |rounds| ==> rounds[k].bet == 0 && rounds[k].jackpotSeen == PoolAfter(rounds[k - 1]))
  }

  /** Round `k` of the log is the spin of `draws(k)` at that round's wager and pool. */
  ghost predicate RoundsDrawn(rounds: seq<Round>, draws: nat -> RoundDraws) {
    forall k {:trigger RoundDrawn(draws(k), rounds[k])} :: 0 <= k < |rounds| ==> RoundDrawn(draws(k), rounds[k])
  }

  /** The round is the spin of the draws `d` at the round's own wager and pool. */
  ghost predicate RoundDrawn(d: RoundDraws, round: Round) {
    SpinSpec(d, round.bet, round.jackpotSeen, round.result)
  }

  /** A free round played against the pool the session left extends the session. */
  lemma SessionExtend(rounds: seq<Round>, bet: int, poolBefore: int, draws: nat -> RoundDraws, next: Round)
    requires SessionFollows(rounds, bet, poolBefore, draws)
    requires next.bet == 0 && next.jackpotSeen == PoolAfter(rounds[|rounds| - 1])
    requires RoundDrawn(draws(|rounds|), next)
    ensures SessionFollows(rounds + [next], bet, poolBefore, draws)
    ensures SumPayouts(rounds + [next]) == SumPayouts(rounds) + next.result.payout
  {
    PoolChainExtend(rounds, bet, poolBefore, next);
    RoundsDrawnExtend(rounds, draws, next);
    assert (rounds + [next])[..|rounds|] == rounds;
  }

  lemma PoolChainExtend(rounds: seq<Round>, bet: int, poolBefore: int, next: Round)
    requires PoolChain(rounds, bet, poolBefore)
    requires next.bet == 0 && next.jackpotSeen == PoolAfter(rounds[|rounds| - 1])
    ensures PoolChain(rounds + [next], bet, poolBefore)
  {
    var longer := rounds + [next];
    forall k | 1 <= k < |longer|
      ensures longer[k].bet == 0 && longer[k].jackpotSeen == PoolAfter(longer[k - 1])
    {
      if k < |rounds| {
        assert longer[k] == rounds[k] && longer[k - 1] == rounds[k - 1];
      }
    }
  }

  lemma RoundsDrawnExtend(rounds: seq<Round>, draws: nat -> RoundDraws, next: Round)
    requires RoundsDrawn(rounds, draws)
    requires RoundDrawn(draws(|rounds|), next)
    ensures RoundsDrawn(rounds + [next], draws)
  {
    var longer := rounds + [next];
    forall k | 0 <= k < |longer|
      ensures RoundDrawn(draws(k), longer[k])
    {
      if k < |rounds| {
        assert longer[k] == rounds[k] && RoundDrawn(draws(k), rounds[k]);
      }
    }
  }

  /**
   * The `/slot` handler: the user's row is fetched (or created) first, then a
   * wager above the balance or inside the cooldown is rejected with nothing
   * else changed; otherwise the pool gets its contribution, the paid round and
   * the free rounds it grants are played, and the session is committed.
   */
  method PlaySlot(store: Store, userId: UserId, bet: int, now: int, cooldownMs: int, draws: nat -> RoundDraws)
    returns (outcome: SlotOutcome)
    requires store.Valid()
    modifies store
    ensures store.Valid()
    ensures var user := old(store.AccountOrNew(userId));
      && (outcome == Rejected(InsufficientBalance) <==> bet > user.balance)
      && (outcome.Rejected? && outcome.reason.CoolingDown? <==>
            bet <= user.balance && now - user.lastSpinAt < cooldownMs)
      && (outcome.Rejected? && outcome.reason.CoolingDown? ==>
            outcome.reason.secondsLeft == SecondsCeil(cooldownMs - (now - user.lastSpinAt)))
      && (outcome.Rejected? ==>
            store.jackpot == old(store.jackpot) && store.users == old(store.users)[userId := user])
    ensures var user := old(store.AccountOrNew(userId));
      outcome.Played? ==>
        var report := outcome.report;
        && SessionFollows(report.rounds, bet, old(store.jackpot), draws)
        && |report.rounds| == 1 + report.rounds[0].result.freeSpins
        && report.totalBet == bet
        && report.totalPayout == SumPayouts(report.rounds)
        && report.balance == user.balance - bet + report.totalPayout
        && store.jackpot == PoolAfter(report.rounds[|report.rounds| - 1])
        && report.jackpot == store.jackpot
        && store.users == old(store.users)[userId := AfterSpin(user, report.balance, bet, report.totalPayout, now)]
        && (bet >= 0 && old(store.jackpot) >= 0 ==> report.balance >= user.balance - bet >= 0)
  {
    var user := store.GetOrCreateUser(userId);

    if bet > user.balance {
      return Rejected(InsufficientBalance);
    }

    if now - user.lastSpinAt < cooldownMs {
      var left := cooldownMs - (now - user.lastSpinAt);
      return Rejected(CoolingDown(SecondsCeil(left)));
    }

    var rounds, totalPayout := PlayRounds(store, bet, draws);
    if bet >= 0 && old(store.jackpot) >= 0 {
      CommittedBalanceNonNegative(user.balance, bet, rounds, old(store.jackpot), draws);
    }
    var totalBet := bet;

    var nextBalance := user.balance - totalBet + totalPayout;
    ghost var committed := AfterSpin(user, nextBalance, totalBet, totalPayout, now);
    store.UpdateAfterSpin(userId, nextBalance, totalBet, totalPayout, now);
    assert store.users == old(store.users)[userId := user][userId := committed];
    assert old(store.users)[userId := user][userId := committed] == old(store.users)[userId := committed];

    var pool := store.GetJackpot();
    return Played(SpinReport(totalBet, totalPayout, rounds, nextBalance, pool));
  }

  /**
   * The money-moving core of `/slot` once the wager is accepted: the pool gets
   * the wager's contribution, the paid round is spun against it, and the free
   * rounds it grants are spun at bet 0; each round that hits the jackpot
   * resets the pool to the seed before the next round reads it.
   */
  method PlayRounds(store: Store, bet: int, draws: nat -> RoundDraws) returns (rounds: seq<Round>, totalPayout: int)
    modifies store`jackpot
    ensures SessionFollows(rounds, bet, old(store.jackpot), draws)
    ensures |rounds| == 1 + rounds[0].result.freeSpins
    ensures totalPayout == SumPayouts(rounds)
    ensures store.jackpot == PoolAfter(rounds[|rounds| - 1])
  {
    totalPayout := 0;
    var freeSpins := 0;
    rounds := [];

    store.AddJackpot(Contribution(bet));

    var seen := store.GetJackpot();
    var first := Spin(draws(0), bet, seen);
    totalPayout := totalPayout + first.payout;
    freeSpins := freeSpins + first.freeSpins;
    rounds := rounds + [Round(bet, seen, first)];
    assert SumPayouts(rounds) == first.payout;
    assert RoundDrawn(draws(0), rounds[0]);
    assert SessionFollows(rounds, bet, old(store.jackpot), draws);
    if first.jackpotHit {
      var paid := store.ConsumeJackpot();
    }

    for i := 0 to freeSpins
      invariant |rounds| == i + 1 && rounds[0].result == first
      invariant SessionFollows(rounds, bet, old(store.jackpot), draws)
      invariant store.jackpot == PoolAfter(rounds[i])
      invariant totalPayout == SumPayouts(rounds)
    {
      seen := store.GetJackpot();
      var fs := Spin(draws(i + 1), 0, seen);
      SessionExtend(rounds, bet, old(store.jackpot), draws, Round(0, seen, fs));
      totalPayout := totalPayout + fs.payout;
      rounds := rounds + [Round(0, seen, fs)];
      if fs.jackpotHit {
        var paid := store.ConsumeJackpot();
      }
    }
  }

  /**
   * The `/daily` handler: the user's row is fetched (or created) first; inside
   * 24 hours of the last claim it reports the wait, otherwise it pays the base
   * reward plus 100 per day of the streak held before this claim.
   */
  method Daily(store: Store, userId: UserId, now: int, dailyReward: int) returns (outcome: DailyOutcome)
    requires store.Valid()
    modifies store
    ensures store.Valid()
    ensures store.jackpot == old(store.jackpot)
    ensures var user := old(store.AccountOrNew(userId));
      var check := Store.CanClaimDaily(user, now);
      && (outcome.NotYet? <==> !check.canClaim)
      && (outcome.NotYet? ==>
            && outcome.remainingMs == check.remainingMs > 0
            && (outcome.hours, outcome.minutes) == MsToReadable(check.remainingMs)
            && store.users == old(store.users)[userId := user])
      && (outcome.Granted? ==>
            && outcome.bonus == dailyReward + user.streakDays * 100
            && outcome.streak == StreakAfter(DayOf(user.lastDailyAt, store.utcOffsetMs), DayOf(now, store.utcOffsetMs), user.streakDays)
            && (outcome.streak == user.streakDays + 1 || outcome.streak == 1)
            && store.users == old(store.users)[userId := user.(
                 balance := user.balance + outcome.bonus, lastDailyAt := now, streakDays := outcome.streak)])
  {
    var user := store.GetOrCreateUser(userId);
    var can := Store.CanClaimDaily(user, now);
    if !can.canClaim {
      var readable := MsToReadable(can.remainingMs);
      return NotYet(can.remainingMs, readable.0, readable.1);
    }

    var bonus := dailyReward + user.streakDays * 100;
    DailyGateSkipsSameDay(user.lastDailyAt, now, store.utcOffsetMs);
    var streak := store.ClaimDaily(userId, bonus, now);
    return Granted(bonus, streak);
  }

  /** Dropping the last round of a session leaves a session. */
  lemma SessionPrefix(rounds: seq<Round>, bet: int, poolBefore: int, draws: nat -> RoundDraws)
    requires SessionFollows(rounds, bet, poolBefore, draws) && |rounds| > 1
    ensures SessionFollows(rounds[..|rounds| - 1], bet, poolBefore, draws)
  {
    var prefix := rounds[..|rounds| - 1];
    forall k | 1 <= k < |prefix|
      ensures prefix[k].bet == 0 && prefix[k].jackpotSeen == PoolAfter(prefix[k - 1])
    {
      assert prefix[k] == rounds[k] && prefix[k - 1] == rounds[k - 1];
    }
    forall k | 0 <= k < |prefix|
      ensures RoundDrawn(draws(k), prefix[k])
    {
      assert prefix[k] == rounds[k] && RoundDrawn(draws(k), rounds[k]);
    }
  }

  /**
   * Once a round of a session hits the jackpot, every later round of that
   * session sees the seed amount: a pool is paid out at most once.
   */
  lemma {:induction false} HitResetsLaterRounds(rounds: seq<Round>, bet: int, poolBefore: int, i: nat, j: nat)
    requires PoolChain(rounds, bet, poolBefore)
    requires i < j < |rounds| && rounds[i].result.jackpotHit
    ensures rounds[j].jackpotSeen == JackpotSeed
    decreases j
  {
    if j > i + 1 {
      HitResetsLaterRounds(rounds, bet, poolBefore, i, j - 1);
      assert rounds[j - 1].jackpotSeen == JackpotSeed;
      assert rounds[j].jackpotSeen == PoolAfter(rounds[j - 1]);
    }
  }

  /**
   * With a non-negative wager and pool, every round of a session sees a
   * non-negative pool and the session pays a non-negative total.
   */
  lemma {:induction false} SessionPaysNonNegative(rounds: seq<Round>, bet: int, poolBefore: int, draws: nat -> RoundDraws)
    requires SessionFollows(rounds, bet, poolBefore, draws)
    requires bet >= 0 && poolBefore >= 0
    ensures rounds[|rounds| - 1].jackpotSeen >= 0
    ensures SumPayouts(rounds) >= 0
    decreases |rounds|
  {
    var n := |rounds|;
    if n > 1 {
      SessionPrefix(rounds, bet, poolBefore, draws);
      var prefix := rounds[..n - 1];
      SessionPaysNonNegative(prefix, bet, poolBefore, draws);
      assert prefix[n - 2] == rounds[n - 2];
      assert rounds[n - 1].jackpotSeen == PoolAfter(rounds[n - 2]);
    }
    var last := rounds[n - 1];
    assert RoundDrawn(draws(n - 1), last);
    PayoutNonNegative(last.result.reels, last.bet, last.jackpotSeen, draws(n - 1).jackpot, last.result);
  }

  /**
   * A session that passed the balance check from a non-negative pool never
   * leaves a negative balance: the committed balance is at least the old
   * balance minus the wager.
   */
  lemma CommittedBalanceNonNegative(balance: int, bet: int, rounds: seq<Round>, poolBefore: int, draws: nat -> RoundDraws)
    requires SessionFollows(rounds, bet, poolBefore, draws)
    requires 0 <= bet <= balance && poolBefore >= 0
    ensures balance - bet + SumPayouts(rounds) >= balance - bet >= 0
  {
    SessionPaysNonNegative(rounds, bet, poolBefore, draws);
  }

  /** A session has one paid round and the paid round's free spins: 1, 2 or 4 rounds in all. */
  lemma SessionLength(rounds: seq<Round>, bet: int, poolBefore: int, draws: nat -> RoundDraws)
    requires SessionFollows(rounds, bet, poolBefore, draws)
    requires |rounds| == 1 + rounds[0].result.freeSpins
    ensures |rounds| == 1 || |rounds| == 2 || |rounds| == 4
  {
    assert RoundDrawn(draws(0), rounds[0]);
  }
}
