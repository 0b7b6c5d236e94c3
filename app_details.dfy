/**
 * The metrics derivation of `loadAppDetails`: every contract and price read
 * is an input (`Reads`), and the snapshot it returns is computed from them
 * with JavaScript number semantics (see JsNumber).
 */
module AppDetails {
  import opened JsNumber
  import MarketPrice

  /** Decimal precision of the token: raw supplies and the index count units of 10^-9. */
  const Decimals: real := 1000000000.0
  /** The constant the staking index is divided by after unit conversion. */
  const IndexRescale: real := 4.5
  /** Rebases per day; five days and a year of rebases are the compounding exponents. */
  const RebasesPerDay: nat := 3
  const FiveDayRebases: nat := 5 * RebasesPerDay
  const YearRebases: nat := 365 * RebasesPerDay

  /** What one bond reports for the network: treasury balance, risk-free token amount, SHRK held. */
  datatype Bond = Bond(treasuryBalance: real, tokenAmount: real, shrkAmount: real)

  datatype BondQuery = TreasuryBalance | TokenAmount | ShrkAmount

  function Query(b: Bond, q: BondQuery): real
  {
    match q
    case TreasuryBalance => b.treasuryBalance
    case TokenAmount => b.tokenAmount
    case ShrkAmount => b.shrkAmount
  }

  /** One query put to every bond, in the order of the bond list. */
  function Column(bonds: seq<Bond>, q: BondQuery): seq<real>
  {
    seq(|bonds|, i requires 0 <= i < |bonds| => Query(bonds[i], q))
  }

  /** `xs.reduce((a, b) => a + b, 0)`: a left fold that starts from 0. */
  function Sum(xs: seq<real>): (total: real)
    ensures (forall i :: 0 <= i < |xs| ==> xs[i] >= 0.0) ==> total >= 0.0
  {
    if xs == [] then 0.0 else Sum(xs[..|xs| - 1]) + xs[|xs| - 1]
  }

  /** The total of one query over all bonds. */
  function BondTotal(bonds: seq<Bond>, q: BondQuery): real
  {
    Sum(Column(bonds, q))
  }

  lemma {:induction false} SumAppend(a: seq<real>, b: seq<real>)
    ensures Sum(a + b) == Sum(a) + Sum(b)
    decreases |b|
  {
    if b == [] {
      assert a + b == a;
    } else {
      assert (a + b)[..|a + b| - 1] == a + b[..|b| - 1];
      SumAppend(a, b[..|b| - 1]);
    }
  }

  lemma ColumnAppend(a: seq<Bond>, b: seq<Bond>, q: BondQuery)
    ensures Column(a + b, q) == Column(a, q) + Column(b, q)
  {
  }

  lemma BondTotalSingle(b: Bond, q: BondQuery)
    ensures BondTotal([b], q) == Query(b, q)
  {
    var xs := [Query(b, q)];
    assert Column([b], q) == xs;
    assert xs[..|xs| - 1] == [];
    assert Sum(xs) == Sum([]) + Query(b, q);
  }

  /** A total is the total of the bonds before a split plus the total of those after it. */
  lemma BondTotalAppend(a: seq<Bond>, b: seq<Bond>, q: BondQuery)
    ensures BondTotal(a + b, q) == BondTotal(a, q) + BondTotal(b, q)
  {
    ColumnAppend(a, b, q);
    SumAppend(Column(a, q), Column(b, q));
  }

  /** Taking one element out of the middle of a list removes it from the list's multiset. */
  lemma MultisetRemove(b: seq<Bond>, i: nat)
    requires i < |b|
    ensures multiset(b[..i] + b[i + 1..]) == multiset(b) - multiset{b[i]}
  {
    assert b == b[..i] + [b[i]] + b[i + 1..];
  }

  /** A bond in the middle of a list adds its own value to the total. */
  lemma BondTotalSplit(b: seq<Bond>, i: nat, q: BondQuery)
    requires i < |b|
    ensures BondTotal(b, q) == BondTotal(b[..i] + b[i + 1..], q) + Query(b[i], q)
  {
    var left, right := b[..i], b[i + 1..];
    assert b == left + [b[i]] + right;
    BondTotalAppend(left + [b[i]], right, q);
    BondTotalAppend(left, [b[i]], q);
    BondTotalAppend(left, right, q);
    BondTotalSingle(b[i], q);
  }

  /** The totals do not depend on the order in which the bonds are listed. */
  lemma {:induction false} BondTotalPermutation(a: seq<Bond>, b: seq<Bond>, q: BondQuery)
    requires multiset(a) == multiset(b)
    ensures BondTotal(a, q) == BondTotal(b, q)
    decreases |a|
  {
    if a == [] {
      assert |b| == |multiset(b)| == 0;
    } else {
      var n := |a| - 1;
      assert a[n] in multiset(b);
      var i :| 0 <= i < |b| && b[i] == a[n];
      MultisetRemove(a, n);
      MultisetRemove(b, i);
      assert a[..n] + a[n + 1..] == a[..n];
      BondTotalPermutation(a[..n], b[..i] + b[i + 1..], q);
      BondTotalSplit(a, n, q);
      BondTotalSplit(b, i, q);
    }
  }

  /** The staking contract's current epoch. */
  datatype Epoch = Epoch(distribute: nat, endTime: nat)

  /**
   * Everything `loadAppDetails` reads, in the units the contracts return.
   * `rawCircSupply` and `rawCirc` are the two separate reads of the receipt
   * token's `circulatingSupply()`.
   */
  datatype Reads = Reads(
    mimPrice: real,
    currentBlock: nat,
    currentBlockTime: nat,
    reserve0: nat,
    reserve1: nat,
    rawTotalSupply: nat,
    rawCircSupply: nat,
    bonds: seq<Bond>,
    epoch: Epoch,
    rawCirc: nat,
    rawIndex: nat)

  /** The payload `loadAppDetails` resolves with. */
  datatype Snapshot = Snapshot(
    currentIndex: Num,
    totalSupply: Num,
    marketCap: Num,
    currentBlock: nat,
    circSupply: Num,
    fiveDayRate: Num,
    treasuryBalance: Num,
    stakingAPY: Num,
    stakingTVL: Num,
    stakingRebase: Num,
    marketPrice: Num,
    currentBlockTime: nat,
    nextRebase: nat,
    rfv: Num,
    runway: Num)

  /** The market price: the reserve ratio brought to token units, times the MIM price. */
  function MarketPriceOf(rd: Reads): Num
  {
    Mul(Div(MarketPrice.ReservePrice(rd.reserve0, rd.reserve1), Real(Decimals)), Real(rd.mimPrice))
  }

  /** The risk-free value: the bonds' risk-free amount over the supply the bonds do not hold. */
  function RfvOf(rd: Reads): Num
  {
    var totalSupply := Div(Real(rd.rawTotalSupply as real), Real(Decimals));
    var shrkAmount := Real(BondTotal(rd.bonds, ShrkAmount));
    var shrkSupply := Sub(totalSupply, shrkAmount);
    Div(Real(BondTotal(rd.bonds, TokenAmount)), shrkSupply)
  }

  /** The per-epoch rebase: the epoch's distribution over the raw circulating supply. */
  function RebaseOf(rd: Reads): Num
  {
    Div(Real(rd.epoch.distribute as real), Real(rd.rawCirc as real))
  }

  /** `Math.pow(1 + rebase, rebases) - 1`: the growth compounded over `rebases` rebases. */
  function Compounded(rebase: Num, rebases: nat): Num
  {
    Sub(PowNum(Add(Real(1.0), rebase), rebases), Real(1.0))
  }

  /** The snapshot computed from the reads; `ln` is the natural logarithm `Math.log` uses. */
  function Derive(rd: Reads, ln: real -> real): (s: Snapshot)
    ensures s.totalSupply.Real? && s.totalSupply.v * Decimals == rd.rawTotalSupply as real
    ensures s.circSupply.Real? && s.circSupply.v * Decimals == rd.rawCircSupply as real
    ensures s.marketCap == Mul(s.totalSupply, s.marketPrice)
    ensures s.stakingTVL == Mul(s.circSupply, s.marketPrice)
    ensures s.marketPrice.Real? <==> rd.reserve1 != 0
    ensures s.stakingRebase.Real? <==> rd.rawCirc != 0
    ensures s.rfv.Real? <==> s.totalSupply.v != BondTotal(rd.bonds, ShrkAmount)
    ensures s.currentIndex.Real? && s.currentIndex.v * IndexRescale * Decimals == rd.rawIndex as real
    ensures s.currentBlock == rd.currentBlock && s.currentBlockTime == rd.currentBlockTime
    ensures s.nextRebase == rd.epoch.endTime
  {
    var marketPrice := MarketPriceOf(rd);
    var totalSupply := Div(Real(rd.rawTotalSupply as real), Real(Decimals));
    var circSupply := Div(Real(rd.rawCircSupply as real), Real(Decimals));
    var stakingTVL := Mul(circSupply, marketPrice);
    var marketCap := Mul(totalSupply, marketPrice);
    var treasuryBalance := Real(BondTotal(rd.bonds, TreasuryBalance));
    var rfvTreasury := Real(BondTotal(rd.bonds, TokenAmount));
    var rfv := RfvOf(rd);
    var stakingRebase := RebaseOf(rd);
    var fiveDayRate := Compounded(stakingRebase, FiveDayRebases);
    var stakingAPY := Compounded(stakingRebase, YearRebases);
    var treasuryRunway := Div(rfvTreasury, circSupply);
    var runway := Div(Div(Log(ln, treasuryRunway), Log(ln, Add(Real(1.0), stakingRebase))), Real(RebasesPerDay as real));
    Snapshot(
      currentIndex := Div(Div(Real(rd.rawIndex as real), Real(Decimals)), Real(IndexRescale)),
      totalSupply := totalSupply,
      marketCap := marketCap,
      currentBlock := rd.currentBlock,
      circSupply := circSupply,
      fiveDayRate := fiveDayRate,
      treasuryBalance := treasuryBalance,
      stakingAPY := stakingAPY,
      stakingTVL := stakingTVL,
      stakingRebase := stakingRebase,
      marketPrice := marketPrice,
      currentBlockTime := rd.currentBlockTime,
      nextRebase := rd.epoch.endTime,
      rfv := rfv,
      runway := runway)
  }

  /** Listing the bonds in another order gives the same snapshot. */
  lemma DeriveBondOrderIrrelevant(rd: Reads, bonds: seq<Bond>, ln: real -> real)
    requires multiset(bonds) == multiset(rd.bonds)
    ensures Derive(rd.(bonds := bonds), ln) == Derive(rd, ln)
  {
    BondTotalPermutation(bonds, rd.bonds, TreasuryBalance);
    BondTotalPermutation(bonds, rd.bonds, TokenAmount);
    BondTotalPermutation(bonds, rd.bonds, ShrkAmount);
  }

  /** The three bond totals are sums over the bonds, and 0 when there are none. */
  lemma DeriveBondTotals(rd: Reads, ln: real -> real)
    ensures Derive(rd, ln).treasuryBalance == Real(BondTotal(rd.bonds, TreasuryBalance))
    ensures rd.bonds == [] ==> Derive(rd, ln).treasuryBalance == Real(0.0)
    ensures rd.bonds == [] && rd.rawTotalSupply != 0 ==> Derive(rd, ln).rfv == Real(0.0)
  {
  }

  /**
   * With a non-empty second reserve the market price is the reserve ratio
   * divided by 10^9 times the MIM price; with non-negative inputs the price,
   * the market cap and the staked value are finite and non-negative.
   */
  lemma DeriveMarketPrice(rd: Reads, ln: real -> real)
    requires rd.reserve1 != 0
    ensures Derive(rd, ln).marketPrice
      == Real((rd.reserve0 as real) / (rd.reserve1 as real) / Decimals * rd.mimPrice)
    ensures rd.mimPrice >= 0.0 ==>
      var s := Derive(rd, ln);
      s.marketPrice.Real? && s.marketPrice.v >= 0.0 &&
      s.marketCap.Real? && s.marketCap.v >= 0.0 &&
      s.stakingTVL.Real? && s.stakingTVL.v >= 0.0
  {
    MarketPriceOfValue(rd);
    var s := Derive(rd, ln);
    if rd.mimPrice >= 0.0 {
      MulNonNegative(s.totalSupply, s.marketPrice);
      MulNonNegative(s.circSupply, s.marketPrice);
    }
  }

  lemma MulNonNegative(a: Num, b: Num)
    requires a.Real? && b.Real? && a.v >= 0.0 && b.v >= 0.0
    ensures Mul(a, b).Real? && Mul(a, b).v >= 0.0
  {
  }

  lemma MarketPriceOfValue(rd: Reads)
    requires rd.reserve1 != 0
    ensures MarketPriceOf(rd) == Real((rd.reserve0 as real) / (rd.reserve1 as real) / Decimals * rd.mimPrice)
    ensures rd.mimPrice >= 0.0 ==> MarketPriceOf(rd).v >= 0.0
  {
    var ratio := (rd.reserve0 as real) / (rd.reserve1 as real);
    MarketPrice.ReservePriceNonNegative(rd.reserve0, rd.reserve1);
    assert MarketPrice.ReservePrice(rd.reserve0, rd.reserve1) == Real(ratio);
    assert ratio / Decimals >= 0.0;
  }

  /**
   * The risk-free value is the bonds' risk-free amount over the supply not held
   * by bonds: defined exactly when that supply is not zero.
   */
  lemma DeriveRfv(rd: Reads, ln: real -> real)
    ensures var s := Derive(rd, ln);
      var held := BondTotal(rd.bonds, ShrkAmount);
      (s.rfv.Real? <==> (rd.rawTotalSupply as real) / Decimals != held) &&
      (s.rfv.Real? ==> s.rfv.v * ((rd.rawTotalSupply as real) / Decimals - held) == BondTotal(rd.bonds, TokenAmount))
  {
    RfvOfValue(rd);
    assert Derive(rd, ln).rfv == RfvOf(rd);
  }

  lemma RfvOfValue(rd: Reads)
    ensures var held := BondTotal(rd.bonds, ShrkAmount);
      (RfvOf(rd).Real? <==> (rd.rawTotalSupply as real) / Decimals != held) &&
      (RfvOf(rd).Real? ==> RfvOf(rd).v * ((rd.rawTotalSupply as real) / Decimals - held) == BondTotal(rd.bonds, TokenAmount))
  {
    var total := (rd.rawTotalSupply as real) / Decimals;
    assert RfvOf(rd) == Div(Real(BondTotal(rd.bonds, TokenAmount)), Real(total - BondTotal(rd.bonds, ShrkAmount)));
  }

  /**
   * The rebase uses the second, raw read of the circulating supply: with a
   * positive raw supply it is distribute / supply, the five-day rate and the
   * APY are that rebase compounded 15 and 1095 times, and for a non-negative
   * rebase 0 <= five-day rate <= APY.
   */
  lemma DeriveRates(rd: Reads, ln: real -> real)
    requires rd.rawCirc != 0
    ensures var s := Derive(rd, ln);
      var r := (rd.epoch.distribute as real) / (rd.rawCirc as real);
      s.stakingRebase == Real(r) && r >= 0.0 &&
      s.fiveDayRate == Real(Pow(1.0 + r, 15) - 1.0) &&
      s.stakingAPY == Real(Pow(1.0 + r, 1095) - 1.0) &&
      0.0 <= s.fiveDayRate.v <= s.stakingAPY.v
  {
    var r := (rd.epoch.distribute as real) / (rd.rawCirc as real);
    assert r >= 0.0;
    PowAtLeastOne(1.0 + r, 15);
    PowMonotone(1.0 + r, 15, 1095);
  }

  /** An epoch that distributes nothing gives a zero five-day rate and APY. */
  lemma DeriveZeroDistribution(rd: Reads, ln: real -> real)
    requires rd.rawCirc != 0 && rd.epoch.distribute == 0
    ensures Derive(rd, ln).fiveDayRate == Real(0.0)
    ensures Derive(rd, ln).stakingAPY == Real(0.0)
  {
    PowOfOne(FiveDayRebases);
    PowOfOne(YearRebases);
  }

  /** A zero raw circulating supply makes the rebase and both rates non-finite. */
  lemma DeriveZeroCirculating(rd: Reads, ln: real -> real)
    requires rd.rawCirc == 0
    ensures Derive(rd, ln).stakingRebase == NonFinite
    ensures Derive(rd, ln).fiveDayRate == NonFinite
    ensures Derive(rd, ln).stakingAPY == NonFinite
  {
  }

  /**
   * Only the second read of the circulating supply reaches the rebase and the
   * rates: the first, normalised read does not.
   */
  lemma DeriveRebaseIgnoresFirstRead(rd: Reads, rawCircSupply: nat, ln: real -> real)
    ensures var s, t := Derive(rd, ln), Derive(rd.(rawCircSupply := rawCircSupply), ln);
      s.stakingRebase == t.stakingRebase && s.fiveDayRate == t.fiveDayRate && s.stakingAPY == t.stakingAPY
  {
  }

  /**
   * The runway is log(risk-free amount / circulating supply) over log(1 + rebase),
   * divided by the rebases per day; it is the risk-free amount, not the
   * treasury balance, that is divided by the supply.
   */
  lemma DeriveRunway(rd: Reads, ln: real -> real)
    requires rd.rawCircSupply != 0 && rd.rawCirc != 0
    requires BondTotal(rd.bonds, TokenAmount) > 0.0
    requires ln(1.0 + (rd.epoch.distribute as real) / (rd.rawCirc as real)) != 0.0
    ensures var circSupply := (rd.rawCircSupply as real) / Decimals;
      var r := (rd.epoch.distribute as real) / (rd.rawCirc as real);
      Derive(rd, ln).runway
        == Real(ln(BondTotal(rd.bonds, TokenAmount) / circSupply) / ln(1.0 + r) / (RebasesPerDay as real))
  {
    var circSupply := (rd.rawCircSupply as real) / Decimals;
    assert circSupply > 0.0;
    assert BondTotal(rd.bonds, TokenAmount) / circSupply > 0.0;
  }

  /** Without bonds the risk-free amount is 0, whose logarithm makes the runway non-finite. */
  lemma DeriveRunwayWithoutBonds(rd: Reads, ln: real -> real)
    requires rd.bonds == []
    ensures Derive(rd, ln).runway == NonFinite
  {
    assert BondTotal(rd.bonds, TokenAmount) == 0.0;
  }
}
