/**
 * The `app` slice of the store: a loading flag plus whatever snapshot fields
 * have been written into it, updated in place by its reducers.
 */
module AppSlice {
  import opened Wrappers
  import opened JsNumber
  import AppDetails

  /** The keys of the slice besides `loading`. */
  datatype Field =
    | CurrentIndex | TotalSupply | MarketCap | CurrentBlock | CircSupply
    | FiveDayRate | TreasuryBalance | StakingAPY | StakingTVL | StakingRebase
    | MarketPrice | CurrentBlockTime | NextRebase | Rfv | Runway | NetworkId

  /** The keys a snapshot fills. */
  const SnapshotFields: set<Field> := {
    CurrentIndex, TotalSupply, MarketCap, CurrentBlock, CircSupply,
    FiveDayRate, TreasuryBalance, StakingAPY, StakingTVL, StakingRebase,
    MarketPrice, CurrentBlockTime, NextRebase, Rfv, Runway}

  /** An object whose keys `setAll` copies into the slice. */
  type Payload = map<Field, Num>

  function AsNum(n: nat): Num
  {
    Real(n as real)
  }

  /** A value read back as a block number or time, when it is one. */
  function AsNat(x: Num): Option<nat>
  {
    if x.Real? && x.v >= 0.0 && x.v.Floor as real == x.v then Some(x.v.Floor) else None
  }

  lemma AsNatRoundTrip(n: nat)
    ensures AsNat(AsNum(n)) == Some(n)
  {
    assert (n as real).Floor == n;
  }

  /** The object `loadAppDetails` resolves with: every snapshot key, and no `networkID`. */
  function ToPayload(s: AppDetails.Snapshot): (p: Payload)
    ensures p.Keys == SnapshotFields
  {
    map[
      CurrentIndex := s.currentIndex, TotalSupply := s.totalSupply, MarketCap := s.marketCap,
      CurrentBlock := AsNum(s.currentBlock), CircSupply := s.circSupply, FiveDayRate := s.fiveDayRate,
      TreasuryBalance := s.treasuryBalance, StakingAPY := s.stakingAPY, StakingTVL := s.stakingTVL,
      StakingRebase := s.stakingRebase, MarketPrice := s.marketPrice,
      CurrentBlockTime := AsNum(s.currentBlockTime), NextRebase := AsNum(s.nextRebase),
      Rfv := s.rfv, Runway := s.runway]
  }

  /** The snapshot the slice's keys describe, if every snapshot key is present and well-typed. */
  function FromPayload(p: Payload): Option<AppDetails.Snapshot>
  {
    if SnapshotFields <= p.Keys
      && AsNat(p[CurrentBlock]).Some? && AsNat(p[CurrentBlockTime]).Some? && AsNat(p[NextRebase]).Some?
    then
      Some(AppDetails.Snapshot(
        currentIndex := p[CurrentIndex], totalSupply := p[TotalSupply], marketCap := p[MarketCap],
        currentBlock := AsNat(p[CurrentBlock]).value, circSupply := p[CircSupply],
        fiveDayRate := p[FiveDayRate], treasuryBalance := p[TreasuryBalance],
        stakingAPY := p[StakingAPY], stakingTVL := p[StakingTVL], stakingRebase := p[StakingRebase],
        marketPrice := p[MarketPrice], currentBlockTime := AsNat(p[CurrentBlockTime]).value,
        nextRebase := AsNat(p[NextRebase]).value, rfv := p[Rfv], runway := p[Runway]))
    else
      None
  }

  /** `setAll`: each key of the payload overwrites the slice's key; the others stay. */
  function SetAll(state: Payload, payload: Payload): (r: Payload)
    ensures r.Keys == state.Keys + payload.Keys
    ensures forall f :: f in payload ==> r[f] == payload[f]
    ensures forall f :: f in state && f !in payload ==> r[f] == state[f]
  {
    state + payload
  }

  /** Reading a snapshot back from the payload written for it gives the snapshot. */
  lemma PayloadRoundTrip(s: AppDetails.Snapshot)
    ensures FromPayload(ToPayload(s)) == Some(s)
  {
    AsNatRoundTrip(s.currentBlock);
    AsNatRoundTrip(s.currentBlockTime);
    AsNatRoundTrip(s.nextRebase);
  }

  /** Only the snapshot keys decide the snapshot read from a payload. */
  lemma FromPayloadOnSnapshotFields(p: Payload, q: Payload)
    requires SnapshotFields <= p.Keys && SnapshotFields <= q.Keys
    requires forall f :: f in SnapshotFields ==> p[f] == q[f]
    ensures FromPayload(p) == FromPayload(q)
  {
  }

  /**
   * Writing a whole snapshot over any earlier state yields exactly that
   * snapshot: no field of an earlier snapshot survives.
   */
  lemma SetAllSnapshot(state: Payload, s: AppDetails.Snapshot)
    ensures FromPayload(SetAll(state, ToPayload(s))) == Some(s)
  {
    PayloadRoundTrip(s);
    FromPayloadOnSnapshotFields(SetAll(state, ToPayload(s)), ToPayload(s));
  }

  class AppStore {
    var loading: bool
    var state: Payload

    /** The snapshot the store currently holds, if it holds a whole one. */
    function Current(): Option<AppDetails.Snapshot>
      reads this
    {
      FromPayload(state)
    }

    /** The initial state: loading, and no snapshot field. */
    constructor ()
      ensures loading && state == map[]
      ensures Current() == None
    {
      loading := true;
      state := map[];
    }

    /** `fetchAppSuccess`: copy the payload's keys in; the loading flag is untouched. */
    method FetchAppSuccess(payload: Payload)
      modifies this
      ensures state == SetAll(old(state), payload)
      ensures loading == old(loading)
    {
      state := SetAll(state, payload);
    }

    /** A fetch has started: loading, and the earlier snapshot stays readable. */
    method Pending()
      modifies this
      ensures loading
      ensures state == old(state)
      ensures Current() == old(Current())
    {
      loading := true;
    }

    /** The fetch resolved with `s`: every snapshot key is overwritten, loading ends. */
    method Fulfilled(s: AppDetails.Snapshot)
      modifies this
      ensures !loading
      ensures state == SetAll(old(state), ToPayload(s))
      ensures Current() == Some(s)
    {
      state := SetAll(state, ToPayload(s));
      SetAllSnapshot(old(state), s);
      loading := false;
    }

    /** The fetch failed: loading ends and the earlier snapshot is kept. */
    method Rejected()
      modifies this
      ensures !loading
      ensures state == old(state)
      ensures Current() == old(Current())
    {
      loading := false;
    }
  }
}
