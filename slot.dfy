/**
 * The slot engine: the weighted reel draw and the outcome evaluator that layers
 * the five payout rules (triple match, wild bonus, scatter free spins, the
 * ultimate combo and the 777 jackpot/fever) over one set of three reels.
 *
 * Randomness is passed in: each reel draw receives the uniform value that
 * `Math.random()` would have produced, and the jackpot draw receives its own
 * uniform value, compared against 0.25.
 */
module Slot {
  import opened Wrappers

  /** The eight icons a reel can show: the two specials, then the catalog. */
  datatype Icon = Wild | Scatter | Cherry | Lemon | Bell | Star | Diamond | Seven

  /** One entry of the symbol catalog. */
  datatype SymbolDef = SymbolDef(icon: Icon, weight: nat, baseMultiplier: nat)

  /** The catalog of ordinary symbols, in draw order. */
  const Symbols: seq<SymbolDef> := [
    SymbolDef(Cherry, 30, 2),
    SymbolDef(Lemon, 25, 3),
    SymbolDef(Bell, 20, 5),
    SymbolDef(Star, 14, 8),
    SymbolDef(Diamond, 8, 15),
    SymbolDef(Seven, 3, 35)
  ]

  /** The weight units shared by wild and scatter (1.5 each). */
  const SpecialWeight: real := 3.0

  /** The probability of a jackpot hit on a 777 line. */
  const JackpotChance: real := 0.25

  predicate IsOrdinary(icon: Icon) {
    icon != Wild && icon != Scatter
  }

  /** Sum of the weights of a list of catalog entries. */
  function SumWeights(defs: seq<SymbolDef>): nat {
    if defs == [] then 0 else defs[0].weight + SumWeights(defs[1..])
  }

  /** The combined weight pool a uniform value is scaled by. */
  function TotalWeight(): (t: real)
    ensures t == 103.0
  {
    SumWeights(Symbols) as real + SpecialWeight
  }

  /** Cumulative weight of the first `k` catalog entries. */
  function Cum(k: nat): real
    requires k <= |Symbols|
  {
    if k == 0 then 0.0 else Cum(k - 1) + Symbols[k - 1].weight as real
  }

  /** The catalog's bands end at 100 weight units. */
  lemma CumOfCatalog()
    ensures Cum(|Symbols|) == 100.0
  {
  }

  lemma {:induction false} CumIncreasing(j: nat, k: nat)
    requires j < k <= |Symbols|
    ensures Cum(j + 1) <= Cum(k)
    ensures Cum(j) < Cum(k)
    decreases k - j
  {
    if j + 1 < k {
      CumIncreasing(j + 1, k);
    }
  }

  /**
   * The catalog band an offset `r` (the roll past the two specials) falls in,
   * searching from index `i`: the first entry whose cumulative weight exceeds
   * `r`, or `|Symbols|` when `r` is past every band.
   */
  function BandIndex(r: real, i: nat): (k: nat)
    requires i <= |Symbols|
    ensures i <= k <= |Symbols|
    decreases |Symbols| - i
  {
    if i == |Symbols| || r < Cum(i + 1) then i else BandIndex(r, i + 1)
  }

  /**
   * The icon a scaled roll draws, by cumulative weight: wild on the first 1.5
   * units, scatter on the next 1.5, then the catalog band the rest falls in;
   * past every band, the first catalog entry.
   */
  function DrawOf(roll: real): Icon {
    if roll < 1.5 then Wild
    else if roll < SpecialWeight then Scatter
    else
      var k := BandIndex(roll - SpecialWeight, 0);
      if k < |Symbols| then Symbols[k].icon else Symbols[0].icon
  }

  /** The roll a uniform value `u` in `[0, 1)` stands for: `u` scaled by the weight pool. */
  function Scaled(u: real): real {
    u * TotalWeight()
  }

  /** One reel draw (`weightedRandom`), from the uniform value `u` it scales. */
  method WeightedRandom(u: real) returns (icon: Icon)
    ensures icon == DrawOf(Scaled(u))
  {
    var total := SumWeights(Symbols) as real + SpecialWeight;
    var roll := u * total;
    ghost var scaled := roll;
    assert scaled == Scaled(u);
    if roll < 1.5 {
      return Wild;
    }
    if roll < SpecialWeight {
      return Scatter;
    }
    roll := roll - SpecialWeight;
    for i := 0 to |Symbols|
      invariant roll == scaled - SpecialWeight - Cum(i)
      invariant BandIndex(scaled - SpecialWeight, 0) == BandIndex(scaled - SpecialWeight, i)
    {
      if roll < Symbols[i].weight as real {
        return Symbols[i].icon;
      }
      roll := roll - Symbols[i].weight as real;
    }
    return Symbols[0].icon;
  }

  /** An offset inside band `k` is found in band `k` by a search starting at or before it. */
  lemma {:induction false} BandIndexFinds(r: real, i: nat, k: nat)
    requires i <= k < |Symbols| && Cum(k) <= r < Cum(k + 1)
    ensures BandIndex(r, i) == k
    decreases k - i
  {
    if i < k {
      CumIncreasing(i, k);
      BandIndexFinds(r, i + 1, k);
    }
  }

  /** An offset past the last band is past every band. */
  lemma {:induction false} BandIndexPastAll(r: real, i: nat)
    requires i <= |Symbols| && Cum(|Symbols|) <= r
    ensures BandIndex(r, i) == |Symbols|
    decreases |Symbols| - i
  {
    if i < |Symbols| {
      if i + 1 < |Symbols| {
        CumIncreasing(i + 1, |Symbols|);
      }
      BandIndexPastAll(r, i + 1);
    }
  }

  /**
   * The draw follows the bands: wild on exactly the first 1.5 units, scatter on
   * exactly the next 1.5, catalog entry `k` on `[3 + Cum(k), 3 + Cum(k + 1))`,
   * and the first catalog entry, cherry, at 103 and beyond.
   */
  lemma DrawOfBands(roll: real, k: nat)
    ensures DrawOf(roll) == Wild <==> roll < 1.5
    ensures DrawOf(roll) == Scatter <==> 1.5 <= roll < SpecialWeight
    ensures k < |Symbols| && SpecialWeight + Cum(k) <= roll < SpecialWeight + Cum(k + 1) ==>
      DrawOf(roll) == Symbols[k].icon
    ensures TotalWeight() <= roll ==> DrawOf(roll) == Cherry
  {
    CumOfCatalog();
    if k < |Symbols| && SpecialWeight + Cum(k) <= roll < SpecialWeight + Cum(k + 1) {
      BandIndexFinds(roll - SpecialWeight, 0, k);
    }
    if TotalWeight() <= roll {
      BandIndexPastAll(roll - SpecialWeight, 0);
    }
  }

  /**
   * A uniform value in `[0, 1)` always lands inside a band, so the first-symbol
   * fallback is reached only by a value of 1 or more.
   */
  lemma FallbackNeedsOutOfRangeRoll(u: real)
    ensures 0.0 <= u < 1.0 ==> 0.0 <= Scaled(u) < TotalWeight()
    ensures 1.0 <= u ==> DrawOf(Scaled(u)) == Cherry
  {
    DrawOfBands(Scaled(u), 0);
  }

  /** How many reels show `target` (`count`). */
  function Count(reels: seq<Icon>, target: Icon): (n: nat)
    ensures n <= |reels|
    ensures n > 0 <==> target in reels
    ensures n == |reels| <==> forall i :: 0 <= i < |reels| ==> reels[i] == target
  {
    if reels == [] then 0
    else (if reels[0] == target then 1 else 0) + Count(reels[1..], target)
  }

  /** The count is exactly the icon's multiplicity among the reels. */
  lemma {:induction false} CountIsMultiplicity(reels: seq<Icon>, target: Icon)
    ensures Count(reels, target) == multiset(reels)[target]
  {
    if reels != [] {
      CountIsMultiplicity(reels[1..], target);
      assert reels == [reels[0]] + reels[1..];
      assert multiset(reels) == multiset([reels[0]]) + multiset(reels[1..]);
    }
  }

  /** Whether every reel shows the first reel's icon (`allSame`). */
  function AllSame(reels: seq<Icon>): (b: bool)
    ensures |reels| > 0 ==> (b <==> Count(reels, reels[0]) == |reels|)
    ensures |reels| == 0 ==> b
  {
    forall i :: 0 <= i < |reels| ==> reels[i] == reels[0]
  }

  /**
   * The first catalog entry at or after index `from` that shows `icon`
   * (`symbols.find`); absent for the specials.
   */
  function Find(icon: Icon, from: nat): (r: Option<SymbolDef>)
    requires from <= |Symbols|
    ensures r.Some? ==> exists k :: from <= k < |Symbols| && Symbols[k] == r.value && r.value.icon == icon
    ensures r.None? ==> forall k :: from <= k < |Symbols| ==> Symbols[k].icon != icon
    decreases |Symbols| - from
  {
    if from == |Symbols| then None
    else if Symbols[from].icon == icon then Some(Symbols[from])
    else Find(icon, from + 1)
  }

  /** The triple-match multiplier of an icon, 1 where the catalog has none. */
  function MultiplierOf(icon: Icon): nat {
    match Find(icon, 0)
    case Some(d) => d.baseMultiplier
    case None => 1
  }

  /** A catalog icon's triple-match multiplier is its catalog entry's. */
  lemma CatalogMultiplier(k: nat)
    requires k < |Symbols|
    ensures MultiplierOf(Symbols[k].icon) == Symbols[k].baseMultiplier
  {
    var r := Find(Symbols[k].icon, 0);
    assert r.Some?;
    var j :| 0 <= j < |Symbols| && Symbols[j] == r.value && r.value.icon == Symbols[k].icon;
    assert j == k;
  }

  /** The parts a round's description is made of. */
  datatype Caption =
    | NoWin
    | TripleCaption(icon: Icon, multiplier: nat)
    | WildCaption(multiplier: nat)
    | FreeSpinCaption(spins: nat)
    | UltimateCaption
    | JackpotCaption(amount: int)
    | FeverCaption

  /** What one round produced. */
  datatype SpinResult = SpinResult(
    reels: seq<Icon>,
    payout: int,
    description: seq<Caption>,
    freeSpins: nat,
    jackpotHit: bool)

  /** The random values one round consumes: one per reel and one for the jackpot. */
  datatype RoundDraws = RoundDraws(reel0: real, reel1: real, reel2: real, jackpot: real)

  function Max(a: int, b: int): int {
    if a < b then b else a
  }

  /**
   * The paytable view of a set of three reels. On three reels the five rules
   * can never apply together except as listed, so every reel set is exactly
   * one of these hands.
   */
  datatype Hand =
    | TripleHand(icon: Icon)
    | WildTriple
    | WildPair
    | ScatterTriple
    | ScatterPair
    | UltimateHand
    | NoHand

  function Classify(reels: seq<Icon>): Hand
    requires |reels| == 3
  {
    if IsOrdinary(reels[0]) && reels[1] == reels[0] && reels[2] == reels[0] then TripleHand(reels[0])
    else if Count(reels, Wild) == 3 then WildTriple
    else if Count(reels, Wild) == 2 then WildPair
    else if Count(reels, Scatter) == 3 then ScatterTriple
    else if Count(reels, Scatter) == 2 then ScatterPair
    else if Seven in reels && Diamond in reels && Wild in reels then UltimateHand
    else NoHand
  }

  /** The payout the five rules give a hand. */
  function Paytable(hand: Hand, bet: int, jackpotAmount: int, hit: bool): int {
    match hand
    case TripleHand(Seven) => if hit then bet * MultiplierOf(Seven) + jackpotAmount else Max(bet * MultiplierOf(Seven), bet * 50)
    case TripleHand(icon) => bet * MultiplierOf(icon)
    case WildTriple => Max(0, bet * 25)
    case WildPair => Max(0, bet * 6)
    case ScatterTriple => (bet * 3) / 2
    case ScatterPair => bet
    case UltimateHand => Max(0, bet * 75)
    case NoHand => 0
  }

  /** The description of a hand: scatter hands append their note to the miss caption. */
  function Captions(hand: Hand, jackpotAmount: int, hit: bool): seq<Caption> {
    match hand
    case TripleHand(Seven) => if hit then [JackpotCaption(jackpotAmount)] else [FeverCaption]
    case TripleHand(icon) => [TripleCaption(icon, MultiplierOf(icon))]
    case WildTriple => [WildCaption(25)]
    case WildPair => [WildCaption(6)]
    case ScatterTriple => [NoWin, FreeSpinCaption(3)]
    case ScatterPair => [NoWin, FreeSpinCaption(1)]
    case UltimateHand => [UltimateCaption]
    case NoHand => [NoWin]
  }

  /** Free spins granted by a number of scatters. */
  function FreeSpinsFor(scatters: nat): nat {
    if scatters < 2 then 0 else if scatters == 2 then 1 else 3
  }

  /** The outcome the five rules give three reels, a wager, the pool amount and the jackpot draw. */
  predicate Evaluated(reels: seq<Icon>, bet: int, jackpotAmount: int, jackpotRoll: real, r: SpinResult) {
    && |reels| == 3
    && r.reels == reels
    && r.jackpotHit == (Classify(reels) == TripleHand(Seven) && jackpotRoll < JackpotChance)
    && r.payout == Paytable(Classify(reels), bet, jackpotAmount, r.jackpotHit)
    && r.description == Captions(Classify(reels), jackpotAmount, r.jackpotHit)
    && r.freeSpins == FreeSpinsFor(Count(reels, Scatter))
  }

  /** The round `Spin` must produce from the draws `d`, a wager and the pool amount. */
  predicate SpinSpec(d: RoundDraws, bet: int, jackpotAmount: int, r: SpinResult) {
    && r.reels == [DrawOf(Scaled(d.reel0)), DrawOf(Scaled(d.reel1)), DrawOf(Scaled(d.reel2))]
    && Evaluated(r.reels, bet, jackpotAmount, d.jackpot, r)
  }

  lemma CountOfThree(reels: seq<Icon>, t: Icon)
    requires |reels| == 3
    ensures Count(reels, t) ==
      (if reels[0] == t then 1 else 0) + (if reels[1] == t then 1 else 0) + (if reels[2] == t then 1 else 0)
  {
    assert reels[1..][1..] == [reels[2]];
  }

  /** Each guard of the five rules, in terms of the hand the reels make. */
  lemma HandFacts(reels: seq<Icon>)
    requires |reels| == 3
    ensures var hand, wilds, scatters := Classify(reels), Count(reels, Wild), Count(reels, Scatter);
      && (AllSame(reels) && reels[0] != Scatter && reels[0] != Wild <==> hand.TripleHand?)
      && (hand.TripleHand? ==> hand.icon == reels[0])
      && (wilds >= 2 <==> hand == WildTriple || hand == WildPair)
      && (wilds == 2 <==> hand == WildPair)
      && (scatters >= 2 <==> hand == ScatterTriple || hand == ScatterPair)
      && (scatters == 2 <==> hand == ScatterPair)
      && (Seven in reels && Diamond in reels && Wild in reels <==> hand == UltimateHand)
      && (AllSame(reels) && reels[0] == Seven <==> hand == TripleHand(Seven))
  {
    CountOfThree(reels, Wild);
    CountOfThree(reels, Scatter);
  }

  /** One round (`spin`): draw three reels, then apply the five rules in order. */
  method Spin(d: RoundDraws, bet: int, jackpotAmount: int) returns (r: SpinResult)
    ensures SpinSpec(d, bet, jackpotAmount, r)
  {
    var a := WeightedRandom(d.reel0);
    var b := WeightedRandom(d.reel1);
    var c := WeightedRandom(d.reel2);
    r := Evaluate([a, b, c], bet, jackpotAmount, d.jackpot);
  }

  /** The five payout rules of `spin`, applied in order to drawn reels. */
  method Evaluate(reels: seq<Icon>, bet: int, jackpotAmount: int, jackpotRoll: real) returns (r: SpinResult)
    requires |reels| == 3
    ensures Evaluated(reels, bet, jackpotAmount, jackpotRoll, r)
  {
    var scatters := Count(reels, Scatter);
    var wilds := Count(reels, Wild);
    ghost var hand := Classify(reels);
    HandFacts(reels);

    var payout := 0;
    var freeSpins := 0;
    var description := [NoWin];
    var jackpotHit := false;

    if AllSame(reels) && reels[0] != Scatter && reels[0] != Wild {
      var multiplier := MultiplierOf(reels[0]);
      payout := bet * multiplier;
      description := [TripleCaption(reels[0], multiplier)];
    }

    if wilds >= 2 {
      var multi := if wilds == 2 then 6 else 25;
      assert bet * multi == if wilds == 2 then bet * 6 else bet * 25;
      payout := Max(payout, bet * multi);
      description := [WildCaption(multi)];
    }

    if scatters >= 2 {
      freeSpins := if scatters == 2 then 1 else 3;
      description := description + [FreeSpinCaption(freeSpins)];
      assert bet * scatters == if scatters == 2 then bet * 2 else bet * 3;
      payout := payout + (bet * scatters) / 2;
    }

    if Seven in reels && Diamond in reels && Wild in reels {
      payout := Max(payout, bet * 75);
      description := [UltimateCaption];
    }

    if AllSame(reels) && reels[0] == Seven {
      jackpotHit := jackpotRoll < JackpotChance;
      if jackpotHit {
        payout := payout + jackpotAmount;
        description := [JackpotCaption(jackpotAmount)];
      } else {
        payout := Max(payout, bet * 50);
        description := [FeverCaption];
      }
    }

    r := SpinResult(reels, payout, description, freeSpins, jackpotHit);
  }

  /** Three equal catalog icons other than 7 pay exactly the bet times that icon's multiplier. */
  lemma TripleMatchPays(reels: seq<Icon>, bet: int, jackpotAmount: int, jackpotRoll: real, r: SpinResult)
    requires Evaluated(reels, bet, jackpotAmount, jackpotRoll, r)
    requires reels[1] == reels[0] && reels[2] == reels[0] && IsOrdinary(reels[0]) && reels[0] != Seven
    ensures r.payout == bet * MultiplierOf(reels[0])
    ensures r.description == [TripleCaption(reels[0], MultiplierOf(reels[0]))]
    ensures r.freeSpins == 0 && !r.jackpotHit
  {
    HandFacts(reels);
  }

  /** Three cherries at a bet of 100 pay 200 and grant no free spins. */
  lemma CherryTriplePays200(jackpotAmount: int, jackpotRoll: real, r: SpinResult)
    requires Evaluated([Cherry, Cherry, Cherry], 100, jackpotAmount, jackpotRoll, r)
    ensures r.payout == 200 && r.freeSpins == 0
  {
    TripleMatchPays([Cherry, Cherry, Cherry], 100, jackpotAmount, jackpotRoll, r);
    CatalogMultiplier(0);
  }

  /**
   * Two wilds pay at least 6 times the bet and three at least 25 times; the
   * wild caption replaces the description, and three wilds are never a triple match.
   */
  lemma WildBonusPays(reels: seq<Icon>, bet: int, jackpotAmount: int, jackpotRoll: real, r: SpinResult)
    requires Evaluated(reels, bet, jackpotAmount, jackpotRoll, r)
    ensures Count(reels, Wild) == 2 ==> r.payout >= bet * 6 && r.description == [WildCaption(6)]
    ensures Count(reels, Wild) == 3 ==> r.payout >= bet * 25 && r.description == [WildCaption(25)]
    ensures Count(reels, Wild) == 3 ==> !Classify(reels).TripleHand?
  {
    HandFacts(reels);
  }

  /** Free spins: none below two scatters, one for two, three for three. */
  lemma FreeSpinsFromScatters(reels: seq<Icon>, bet: int, jackpotAmount: int, jackpotRoll: real, r: SpinResult)
    requires Evaluated(reels, bet, jackpotAmount, jackpotRoll, r)
    ensures Count(reels, Scatter) < 2 ==> r.freeSpins == 0
    ensures Count(reels, Scatter) == 2 ==> r.freeSpins == 1
    ensures Count(reels, Scatter) == 3 ==> r.freeSpins == 3
    ensures r.freeSpins == 0 || r.freeSpins == 1 || r.freeSpins == 3
  {
  }

  /**
   * With two or more scatters the payout is the floor of half the bet per
   * scatter, and the free-spin note is appended to the earlier description.
   */
  lemma ScatterPays(reels: seq<Icon>, bet: int, jackpotAmount: int, jackpotRoll: real, r: SpinResult)
    requires Evaluated(reels, bet, jackpotAmount, jackpotRoll, r)
    requires Count(reels, Scatter) >= 2
    ensures r.payout == (bet * Count(reels, Scatter)) / 2
    ensures r.description == [NoWin, FreeSpinCaption(r.freeSpins)]
  {
    HandFacts(reels);
  }

  /** 7, diamond and wild together pay at least 75 times the bet. */
  lemma UltimateComboPays(reels: seq<Icon>, bet: int, jackpotAmount: int, jackpotRoll: real, r: SpinResult)
    requires Evaluated(reels, bet, jackpotAmount, jackpotRoll, r)
    requires Seven in reels && Diamond in reels && Wild in reels
    ensures r.payout >= bet * 75 && r.payout >= 0
    ensures r.description == [UltimateCaption] && r.freeSpins == 0 && !r.jackpotHit
  {
    HandFacts(reels);
  }

  /**
   * 777 either hits the jackpot, paying 35 times the bet plus the whole pool,
   * or is a fever paying 50 times the bet; never neither.
   */
  lemma SevensPay(bet: int, jackpotAmount: int, jackpotRoll: real, r: SpinResult)
    requires Evaluated([Seven, Seven, Seven], bet, jackpotAmount, jackpotRoll, r)
    requires bet >= 0
    ensures r.jackpotHit <==> jackpotRoll < JackpotChance
    ensures r.jackpotHit ==> r.payout == bet * 35 + jackpotAmount && r.description == [JackpotCaption(jackpotAmount)]
    ensures !r.jackpotHit ==> r.payout == bet * 50 && r.description == [FeverCaption]
  {
    CatalogMultiplier(5);
  }

  /** Only 777 can hit the jackpot. */
  lemma JackpotOnlyOnSevens(reels: seq<Icon>, bet: int, jackpotAmount: int, jackpotRoll: real, r: SpinResult)
    requires Evaluated(reels, bet, jackpotAmount, jackpotRoll, r)
    requires r.jackpotHit
    ensures reels == [Seven, Seven, Seven] && jackpotRoll < JackpotChance
  {
  }

  /** A non-negative bet against a non-negative pool never pays a negative amount. */
  lemma PayoutNonNegative(reels: seq<Icon>, bet: int, jackpotAmount: int, jackpotRoll: real, r: SpinResult)
    requires Evaluated(reels, bet, jackpotAmount, jackpotRoll, r)
    requires bet >= 0 && jackpotAmount >= 0
    ensures r.payout >= 0
  {
  }
}
