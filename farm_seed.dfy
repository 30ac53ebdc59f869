/**
 * The per-seed record of the farming contract (`farm_seed.rs`): how a seed is
 * classified, the `FarmSeed` ledger entry with its two balance operations, the
 * `VersionedFarmSeed` envelope used for lazy schema upgrades, and the
 * read-only `SeedInfo` view returned to queries.
 */
module FarmSeeds {
  import opened Wrappers
  import opened SeedLedger

  const U32_BOUND: nat := 0x1_0000_0000

  /** Rust's `u32`. */
  type U32 = x: nat | x < U32_BOUND

  /** For FT the contract id; for MFT the contract id and the token's inner id. */
  type SeedId = string

  /** `{seed_id}#{index}`; opaque here. */
  type FarmId = string

  type NftTokenId = string

  /** Per-token balances supplied for NFT seeds. */
  type NftBalance = map<NftTokenId, Balance>

  /**
   * `utils::parse_seed_id`, which splits a seed id into (token_id, token_index).
   * Its code is not part of this model, so every operation that needs it takes
   * it as a parameter.
   */
  type SeedIdParser = SeedId -> (string, string)

  datatype SeedType = FT | MFT | NFT

  datatype FarmSeedMetadata = FarmSeedMetadata(title: Option<string>, media: Option<string>)

  /**
   * The seed type chosen by `FarmSeed::new`: a supplied NFT balance map wins;
   * otherwise the seed is FT when the parsed id and index coincide, MFT when
   * they differ.
   */
  function Classify(seedId: SeedId, nftBalance: Option<NftBalance>, parse: SeedIdParser): (t: SeedType)
    ensures t == NFT <==> nftBalance.Some?
    ensures t == FT <==> nftBalance.None? && parse(seedId).0 == parse(seedId).1
    ensures t == MFT <==> nftBalance.None? && parse(seedId).0 != parse(seedId).1
  {
    if nftBalance.Some? then NFT
    else
      var (tokenId, tokenIndex) := parse(seedId);
      if tokenId == tokenIndex then FT else MFT
  }

  /** A supplied NFT balance map decides the type whatever the identifier says. */
  lemma NftBalanceOverridesIdentifier(a: SeedId, b: SeedId, balA: NftBalance, balB: NftBalance,
                                      parseA: SeedIdParser, parseB: SeedIdParser)
    ensures Classify(a, Some(balA), parseA) == Classify(b, Some(balB), parseB)
  {
  }

  /**
   * The ledger entry of one seed. `history` is the ghost record of every
   * `add_amount` and `sub_amount` call since construction.
   */
  class FarmSeed {
    var seedId: SeedId
    var seedType: SeedType
    var farms: set<FarmId>
    var nextIndex: U32
    var amount: Balance
    var minDeposit: Balance
    var nftBalance: Option<NftBalance>
    var metadata: Option<FarmSeedMetadata>
    ghost var history: seq<LedgerOp>

    /**
     * The entry's invariant: `amount` is what its history of balance calls
     * yields from zero, and the seed is NFT exactly when it has an NFT
     * balance map.
     */
    ghost predicate Valid()
      reads this
    {
      && Replay(0, history) == Some(amount)
      && (seedType == NFT <==> nftBalance.Some?)
    }

    /** The state `FarmSeed::new` produces from its arguments. */
    ghost predicate IsNewSeed(seedId: SeedId, minDeposit: Balance, nftBalance: Option<NftBalance>,
                              metadata: Option<FarmSeedMetadata>, parse: SeedIdParser)
      reads this
    {
      && this.seedId == seedId
      && seedType == Classify(seedId, nftBalance, parse)
      && farms == {}
      && nextIndex == 0
      && amount == 0
      && this.minDeposit == minDeposit
      && this.nftBalance == nftBalance
      && this.metadata == metadata
      && history == []
    }

    /** Everything but the balance and its history is as before. */
    twostate predicate OnlyBalanceChanged()
      reads this
    {
      && seedId == old(seedId)
      && seedType == old(seedType)
      && farms == old(farms)
      && nextIndex == old(nextIndex)
      && minDeposit == old(minDeposit)
      && nftBalance == old(nftBalance)
      && metadata == old(metadata)
    }

    /** `FarmSeed::new`. */
    constructor (seedId: SeedId, minDeposit: Balance, nftBalance: Option<NftBalance>,
                 metadata: Option<FarmSeedMetadata>, parse: SeedIdParser)
      ensures Valid()
      ensures IsNewSeed(seedId, minDeposit, nftBalance, metadata, parse)
    {
      this.seedId := seedId;
      seedType := Classify(seedId, nftBalance, parse);
      farms := {};
      nextIndex := 0;
      amount := 0;
      this.minDeposit := minDeposit;
      this.nftBalance := nftBalance;
      this.metadata := metadata;
      history := [];
    }

    /** `add_amount`: raises the balance by exactly `a`. */
    method AddAmount(a: Balance)
      requires Valid()
      requires amount + a < U128_BOUND
      modifies this
      ensures Valid()
      ensures amount == old(amount) + a
      ensures history == old(history) + [Add(a)]
      ensures OnlyBalanceChanged()
    {
      ReplayExtend(0, history, amount, Add(a));
      amount := amount + a;
      history := history + [Add(a)];
    }

    /** `sub_amount`: lowers the balance by exactly `a` and returns what remains. */
    method SubAmount(a: Balance) returns (remaining: Balance)
      requires Valid()
      requires a <= amount
      modifies this
      ensures Valid()
      ensures amount == old(amount) - a
      ensures remaining == amount
      ensures history == old(history) + [Sub(a)]
      ensures OnlyBalanceChanged()
    {
      ReplayExtend(0, history, amount, Sub(a));
      amount := amount - a;
      history := history + [Sub(a)];
      remaining := amount;
    }
  }

  /** Conservation for a live entry: its balance is all additions minus all subtractions. */
  lemma BalanceIsDepositsMinusWithdrawals(fs: FarmSeed)
    requires fs.Valid()
    ensures fs.amount == Deposited(fs.history) - Withdrawn(fs.history)
    ensures Withdrawn(fs.history) <= Deposited(fs.history)
  {
    ReplayConserves(0, fs.history);
  }

  /**
   * The versioned wrapper that storage holds. There is one schema version
   * today, so every envelope is current.
   */
  datatype VersionedFarmSeed = V101(seed: FarmSeed) {

    /** `VersionedFarmSeed::new`: a fresh `FarmSeed::new` wrapped in the current version. */
    static method New(seedId: SeedId, minDeposit: Balance, nftBalance: Option<NftBalance>,
                      metadata: Option<FarmSeedMetadata>, parse: SeedIdParser)
      returns (v: VersionedFarmSeed)
      ensures fresh(v.GetRef())
      ensures v.GetRef().Valid()
      ensures v.GetRef().IsNewSeed(seedId, minDeposit, nftBalance, metadata, parse)
    {
      var fs := new FarmSeed(seedId, minDeposit, nftBalance, metadata, parse);
      v := V101(fs);
    }

    /** `upgrade`: migrates to the current version; the identity on a current envelope. */
    function Upgrade(): (r: VersionedFarmSeed)
      ensures r == this
      ensures !r.NeedUpgrade()
    {
      match this
      case V101(fs) => V101(fs)
    }

    /** `need_upgrade`: whether the envelope is not yet at the current version. */
    function NeedUpgrade(): (r: bool)
      ensures r <==> !V101?
    {
      match this
      case V101(_) => false
    }

    /** `get_ref`: the wrapped current-version record. */
    function GetRef(): (r: FarmSeed)
      ensures this == V101(r)
    {
      match this
      case V101(fs) => fs
    }

    /**
     * `get_ref_mut`: the same record as `GetRef`, as a reference through which
     * callers change it; changes made through it are seen by `GetRef`.
     */
    method GetRefMut() returns (r: FarmSeed)
      ensures r == GetRef()
    {
      match this
      case V101(fs) => r := fs;
    }
  }

  /** Lazy upgrade is idempotent. */
  lemma UpgradeIdempotent(v: VersionedFarmSeed)
    ensures v.Upgrade().Upgrade() == v.Upgrade()
    ensures v.Upgrade().GetRef() == v.GetRef()
  {
  }

  /** The literal `seed_type` string of the query view. */
  function SeedTypeName(t: SeedType): (s: string)
    ensures s == "FT" <==> t == FT
    ensures s == "NFT" <==> t == NFT
    ensures s == "MFT" <==> t == MFT
  {
    match t
    case FT => "FT"
    case NFT => "NFT"
    case MFT => "MFT"
  }

  /** A sequence in which no element occurs twice. */
  predicate NoDuplicates(xs: seq<FarmId>)
  {
    forall i, j | 0 <= i < j < |xs| :: xs[i] != xs[j]
  }

  /** Collects the farm ids of a set into a sequence (in no particular order). */
  method CollectFarms(farms: set<FarmId>) returns (xs: seq<FarmId>)
    ensures NoDuplicates(xs)
    ensures forall f :: f in xs <==> f in farms
    ensures |xs| == |farms|
  {
    xs := [];
    var rest := farms;
    while rest != {}
      invariant rest <= farms
      invariant forall f :: f in xs <==> f in farms && f !in rest
      invariant NoDuplicates(xs)
      invariant |xs| + |rest| == |farms|
      decreases |rest|
    {
      var f :| f in rest;
      assert |rest - {f}| == |rest| - 1;
      xs := xs + [f];
      rest := rest - {f};
    }
  }

  /** The external view of a seed record, as answered to queries. */
  datatype SeedInfo = SeedInfo(
    seedId: SeedId,
    seedType: string,
    farms: seq<FarmId>,
    nextIndex: U32,
    amount: Balance,
    minDeposit: Balance,
    nftBalance: Option<NftBalance>,
    title: Option<string>,
    media: Option<string>)
  {
    /**
     * `From<&FarmSeed> for SeedInfo`: copies the record's fields, names its
     * type, lists its farms without duplicates and fills in an empty title
     * and media where the metadata has none.
     */
    static method From(fs: FarmSeed) returns (info: SeedInfo)
      ensures info.seedId == fs.seedId
      ensures info.seedType == SeedTypeName(fs.seedType)
      ensures info.nextIndex == fs.nextIndex
      ensures info.amount == fs.amount && info.minDeposit == fs.minDeposit
      ensures info.nftBalance == fs.nftBalance
      ensures NoDuplicates(info.farms)
      ensures forall f :: f in info.farms <==> f in fs.farms
      ensures |info.farms| == |fs.farms|
      ensures info.title.Some? && info.media.Some?
      ensures fs.metadata.Some? && fs.metadata.value.title.Some? ==>
                info.title.value == fs.metadata.value.title.value
      ensures fs.metadata.Some? && fs.metadata.value.media.Some? ==>
                info.media.value == fs.metadata.value.media.value
      ensures fs.metadata.None? || fs.metadata.value.title.None? ==> info.title.value == ""
      ensures fs.metadata.None? || fs.metadata.value.media.None? ==> info.media.value == ""
    {
      var seedType := SeedTypeName(fs.seedType);
      var farms := CollectFarms(fs.farms);
      var title, media;
      if fs.metadata.Some? {
        title := Some(fs.metadata.value.title.UnwrapOr(""));
        media := Some(fs.metadata.value.media.UnwrapOr(""));
      } else {
        title := Some("");
        media := Some("");
      }
      info := SeedInfo(fs.seedId, seedType, farms, fs.nextIndex, fs.amount, fs.minDeposit,
                       fs.nftBalance, title, media);
    }
  }

  /**
   * The life of one record as callers use it: create, upgrade, reach the record
   * through the envelope, stake and unstake. What is asserted follows from the
   * contracts above alone.
   */
  method StakeThroughEnvelope(parse: SeedIdParser)
  {
    var v := VersionedFarmSeed.New("usdc.near", 100, None, None, parse);
    v := v.Upgrade();
    assert !v.NeedUpgrade();
    var fs := v.GetRefMut();
    fs.AddAmount(500);
    assert v.GetRef().amount == 500;
    var remaining := fs.SubAmount(200);
    assert remaining == 300 && v.GetRef().amount == 300;
    assert v.GetRef().minDeposit == 100 && v.GetRef().farms == {};
    // a further sub_amount(400) would abort: its precondition fails
    assert !(400 <= v.GetRef().amount);
    var info := SeedInfo.From(v.GetRef());
    assert info.amount == 300 && info.farms == [];
    assert info.title == Some("") && info.media == Some("");
  }
}
