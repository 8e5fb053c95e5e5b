/** The data the past-positions list works on, and the join of each fetched
    redemption record to the pool it was made from. */
module Redeems {
  import opened Wrappers

  /** One completed redemption of a senior bond, as the redemption-history
      endpoint returns it. Amounts are decimal numbers in the pool's
      underlying asset; `forDays` is the holding period in days and
      `blockTimestamp` is in Unix seconds. */
  datatype Redeem = Redeem(
    seniorBondId: string,
    smartYieldAddress: string,
    underlyingIn: real,
    gain: real,
    fee: real,
    forDays: int,
    transactionHash: string,
    blockTimestamp: int)

  /** A pool known to the pools provider; only the fields the list reads. */
  datatype Pool = Pool(smartYieldAddress: string, underlyingSymbol: string, protocolId: string)

  /** Display metadata of an underlying asset (`SYPoolMeta`). */
  datatype PoolMeta = PoolMeta(name: string, icon: string)

  /** Display metadata of an originating market (`SYMarketMeta`). */
  datatype MarketMeta = MarketMeta(name: string, icon: string)

  /** The static registries `Pools` (keyed by underlying symbol) and
      `Markets` (keyed by protocol id). */
  datatype Catalog = Catalog(poolMetas: map<string, PoolMeta>, markets: map<string, MarketMeta>)

  /** A pool together with the metadata looked up for it. */
  datatype EnrichedPool = EnrichedPool(pool: Pool, meta: Option<PoolMeta>, market: Option<MarketMeta>)

  /** A list entry (`ListEntity`): the record's own fields, untouched, plus the
      optional enriched pool. */
  datatype Entity = Entity(redeem: Redeem, pool: Option<EnrichedPool>)

  /** `i` is the position of the first pool in `pools` whose address is `address`. */
  predicate IsFirstMatch(pools: seq<Pool>, address: string, i: int) {
    && 0 <= i < |pools|
    && pools[i].smartYieldAddress == address
    && forall j :: 0 <= j < i ==> pools[j].smartYieldAddress != address
  }

  /** Some pool in `pools` has address `address`. */
  predicate HasMatch(pools: seq<Pool>, address: string) {
    exists i :: 0 <= i < |pools| && pools[i].smartYieldAddress == address
  }

  /** The index `pools.find` stops at when looking for `address`. */
  function FindFirst(pools: seq<Pool>, address: string): (r: Option<nat>)
    ensures r.Some? <==> HasMatch(pools, address)
    ensures r.Some? ==> IsFirstMatch(pools, address, r.value)
  {
    if pools == [] then None
    else if pools[0].smartYieldAddress == address then Some(0)
    else match FindFirst(pools[1..], address)
      case None => None
      case Some(i) =>
        assert pools[1..][i] == pools[i + 1];
        Some(i + 1)
  }

  /** The first match is unique: at most one index is "the first". */
  lemma FirstMatchUnique(pools: seq<Pool>, address: string, i: int, j: int)
    requires IsFirstMatch(pools, address, i) && IsFirstMatch(pools, address, j)
    ensures i == j
  {
  }

  /** Searching a longer list: a match in the front part is found there, and
      otherwise the search continues, shifted, in the back part. */
  lemma {:induction false} FindFirstAppend(front: seq<Pool>, back: seq<Pool>, address: string)
    ensures FindFirst(front, address).Some? ==> FindFirst(front + back, address) == FindFirst(front, address)
    ensures FindFirst(front, address).None? ==>
      FindFirst(front + back, address) ==
        match FindFirst(back, address)
        case None => None
        case Some(i) => Some(|front| + i)
  {
    if front == [] {
      assert front + back == back;
    } else {
      var whole := front + back;
      assert whole[0] == front[0];
      assert whole[1..] == front[1..] + back;
      if front[0].smartYieldAddress != address {
        FindFirstAppend(front[1..], back, address);
      }
    }
  }

  /** The pool field of an entry whose pool was found: the pool itself, with
      `meta` from `Pools` by underlying symbol and `market` from `Markets`
      by protocol id. */
  function Enrich(pool: Pool, catalog: Catalog): (e: EnrichedPool)
    ensures e.pool == pool
    ensures e.meta.Some? <==> pool.underlyingSymbol in catalog.poolMetas
    ensures e.meta.Some? ==> e.meta.value == catalog.poolMetas[pool.underlyingSymbol]
    ensures e.market.Some? <==> pool.protocolId in catalog.markets
    ensures e.market.Some? ==> e.market.value == catalog.markets[pool.protocolId]
  {
    EnrichedPool(pool, Lookup(catalog.poolMetas, pool.underlyingSymbol), Lookup(catalog.markets, pool.protocolId))
  }

  /** The list entry built from one fetched record. */
  function JoinOne(record: Redeem, pools: seq<Pool>, catalog: Catalog): (e: Entity)
    ensures e.redeem == record
    ensures e.pool.Some? <==> HasMatch(pools, record.smartYieldAddress)
    ensures e.pool.Some? ==>
      exists i :: IsFirstMatch(pools, record.smartYieldAddress, i) && e.pool.value.pool == pools[i]
    ensures e.pool.Some? ==>
      && e.pool.value.meta == Lookup(catalog.poolMetas, e.pool.value.pool.underlyingSymbol)
      && e.pool.value.market == Lookup(catalog.markets, e.pool.value.pool.protocolId)
  {
    match FindFirst(pools, record.smartYieldAddress)
    case None => Entity(record, None)
    case Some(i) => Entity(record, Some(Enrich(pools[i], catalog)))
  }

  /** `redeems.data.map(...)`: one entry per fetched record, in the same order. */
  function Join(records: seq<Redeem>, pools: seq<Pool>, catalog: Catalog): (r: seq<Entity>)
    ensures |r| == |records|
    ensures forall i :: 0 <= i < |records| ==> r[i] == JoinOne(records[i], pools, catalog)
  {
    if records == [] then []
    else [JoinOne(records[0], pools, catalog)] + Join(records[1..], pools, catalog)
  }

  /** The records an entry list was built from. */
  function RecordsOf(entities: seq<Entity>): (r: seq<Redeem>)
    ensures |r| == |entities|
  {
    if entities == [] then [] else [entities[0].redeem] + RecordsOf(entities[1..])
  }

  /** Dropping the pools again gives back exactly the fetched records: the
      join neither filters, reorders, duplicates nor alters a record. */
  lemma {:induction false} RecordsOfJoin(records: seq<Redeem>, pools: seq<Pool>, catalog: Catalog)
    ensures RecordsOf(Join(records, pools, catalog)) == records
  {
    if records != [] {
      var r := Join(records, pools, catalog);
      assert r[1..] == Join(records[1..], pools, catalog);
      RecordsOfJoin(records[1..], pools, catalog);
    }
  }

  /** Joining a page piecewise gives the same entries as joining it whole. */
  lemma {:induction false} JoinAppend(a: seq<Redeem>, b: seq<Redeem>, pools: seq<Pool>, catalog: Catalog)
    ensures Join(a + b, pools, catalog) == Join(a, pools, catalog) + Join(b, pools, catalog)
  {
    if a == [] {
      assert a + b == b;
    } else {
      assert (a + b)[0] == a[0];
      assert (a + b)[1..] == a[1..] + b;
      JoinAppend(a[1..], b, pools, catalog);
    }
  }

  /** With no known pools (or none whose address matches), every entry has no pool. */
  lemma JoinUnmatched(records: seq<Redeem>, pools: seq<Pool>, catalog: Catalog)
    requires forall i :: 0 <= i < |records| ==> !HasMatch(pools, records[i].smartYieldAddress)
    ensures forall e :: e in Join(records, pools, catalog) ==> e.pool.None?
  {
  }

  /** Two records of the same pool get the same pool field. */
  lemma JoinSamePool(records: seq<Redeem>, pools: seq<Pool>, catalog: Catalog, i: int, j: int)
    requires 0 <= i < |records| && 0 <= j < |records|
    requires records[i].smartYieldAddress == records[j].smartYieldAddress
    ensures Join(records, pools, catalog)[i].pool == Join(records, pools, catalog)[j].pool
  {
  }
}
