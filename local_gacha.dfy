/** The browser engine (static/js/local-gacha.js): `LocalGachaService`, the
    pools fetched from the data file, the current pool id and one session
    (`sessionData`: its pool id, pity counter and statistics), all updated in
    place. The rules are the server's; the differences are the history cap,
    the count clamp of `pullMulti` and the statistics before the first pull.
    Every random number a call consumes is a `Draw` parameter. */
module LocalGacha {
  import opened Base
  import opened Config
  import opened Cards
  import opened Pools
  import opened Rules
  import opened Ledger
  import opened Report
  import opened Gacha

  /** The key a JavaScript object lookup uses: `null` is looked up as the
      string "null". */
  function JsKey(id: Option<string>): string
  {
    if id.Some? then id.value else "null"
  }

  /** The UP ids of a pool, none when there is no pool. */
  function FeaturedIds(pool: Option<Pool>): seq<string>
  {
    if pool.Some? then pool.value.featuredSsr else []
  }

  /** `_parsePool`: the browser keeps the pool's fields and its cards' id,
      name, rarity, flag and image, but not their pool id. */
  function ParsePool(p: Pool): (r: Pool)
    ensures r.poolId == p.poolId && r.featuredSsr == p.featuredSsr && |r.cards| == |p.cards|
    ensures forall i :: 0 <= i < |r.cards| ==> r.cards[i] == p.cards[i].(poolId := None)
  {
    p.(cards := seq(|p.cards|, i requires 0 <= i < |p.cards| => p.cards[i].(poolId := None)))
  }

  function ParseAll(ps: seq<Pool>): (r: seq<Pool>)
    ensures |r| == |ps|
    ensures forall i :: 0 <= i < |ps| ==> r[i] == ParsePool(ps[i])
  {
    seq(|ps|, i requires 0 <= i < |ps| => ParsePool(ps[i]))
  }

  /** The current pool id after a load: the first key when the id is falsy
      and some pool was loaded, else the session's saved id when it is
      truthy, else the id as it was. */
  function LoadedPoolId(current: Option<string>, saved: Option<string>, t: PoolTable): Option<string>
    requires t.Valid()
  {
    if !Truthy(current) && t.pools != map[] then
      assert t.order != [] by { var k :| k in t.pools; }
      Some(t.order[0])
    else if Truthy(saved) then saved
    else current
  }

  /** For the engine's own sessions, whose saved id is the current one, a
      load keeps a truthy pool id and otherwise selects the first loaded
      pool, which then exists. */
  lemma LoadedPoolIdCases(current: Option<string>, t: PoolTable)
    requires t.Valid()
    ensures Truthy(current) ==> LoadedPoolId(current, current, t) == current
    ensures !Truthy(current) && t.pools != map[] ==>
              && LoadedPoolId(current, current, t) == FirstKey(t.order)
              && LoadedPoolId(current, current, t).value in t.pools
    ensures !Truthy(current) && t.pools == map[] ==> LoadedPoolId(current, current, t) == current
  {
    if !Truthy(current) && t.pools != map[] {
      assert t.order != [] by { var k :| k in t.pools; }
      assert t.order[0] in t.pools;
    }
  }

  /** `_initFeaturedSSRCounts` over a list of ids: each id not yet tracked
      is added at 0. */
  function SeedMissing(m: map<string, int>, ids: seq<string>): map<string, int>
  {
    if ids == [] then m
    else
      var before := SeedMissing(m, ids[..|ids| - 1]);
      var id := ids[|ids| - 1];
      if id in before then before else before[id := 0]
  }

  /** Seeding only adds the missing ids, at 0, and never overwrites a
      count that is already there. */
  lemma {:induction false} SeedMissingEffect(m: map<string, int>, ids: seq<string>)
    ensures forall k :: k in SeedMissing(m, ids) <==> k in m || k in ids
    ensures forall k :: k in m ==> SeedMissing(m, ids)[k] == m[k]
    ensures forall k :: k in SeedMissing(m, ids) && k !in m ==> SeedMissing(m, ids)[k] == 0
  {
    if ids != [] {
      var front := ids[..|ids| - 1];
      SeedMissingEffect(m, front);
      assert ids == front + [ids[|ids| - 1]];
    }
  }

  /** Seeding twice is seeding once (`refreshData` seeds again right after
      the load has), and seeding an empty map is the seeding of a reset. */
  lemma SeedMissingIdempotent(m: map<string, int>, ids: seq<string>)
    ensures SeedMissing(SeedMissing(m, ids), ids) == SeedMissing(m, ids)
    ensures SeedMissing(map[], ids) == SeedCounts(ids)
  {
    SeedMissingEffect(m, ids);
    SeedMissingEffect(SeedMissing(m, ids), ids);
    SeedMissingEffect(map[], ids);
  }

  /** What every ledger of the browser engine satisfies: `WindowInv` and at
      most 1000 history records. */
  ghost predicate LocalOk(c: Counters)
  {
    WindowInv(LocalTable, c) && |c.stats.pullHistory| <= 1000
  }

  lemma SeedMissingOk(c: Counters, ids: seq<string>)
    requires LocalOk(c)
    ensures LocalOk(Counters(c.pity, c.stats.(featuredSsrCounts := SeedMissing(c.stats.featuredSsrCounts, ids))))
  {
    SeedMissingEffect(c.stats.featuredSsrCounts, ids);
  }

  lemma FreshOk(ids: seq<string>)
    ensures LocalOk(Fresh(ids))
  {
    FreshConsistent(LocalTable, ids);
  }

  /** `setCurrentPool` on a known pool, as a value: with auto-reset and a
      different id the session is reset from the new pool, otherwise only
      the pool id changes. */
  function LocalSwitch(st: SessionState, pools: map<string, Pool>, poolId: string, autoReset: bool): (r: SessionState)
    requires poolId in pools
    ensures r.currentPoolId == Some(poolId)
  {
    if autoReset && st.currentPoolId != Some(poolId) then SessionState(Some(poolId), Fresh(pools[poolId].featuredSsr))
    else st.(currentPoolId := Some(poolId))
  }

  /** The browser switches pools as the server does, for every pool id
      that is not empty (the server seeds no UP ids from a pool whose id is
      ""), and the switch keeps the browser's invariant. */
  lemma LocalSwitchAgrees(st: SessionState, pools: map<string, Pool>, poolId: string, autoReset: bool)
    requires poolId in pools
    ensures poolId != "" ==> LocalSwitch(st, pools, poolId, autoReset) == SwitchPool(st, pools, poolId, autoReset)
    ensures LocalOk(st.counters) ==> LocalOk(LocalSwitch(st, pools, poolId, autoReset).counters)
  {
    FreshOk(pools[poolId].featuredSsr);
  }

  /** A browser pull and a server pull from the same ledger with the same
      draw leave the same counters, pity and featured counts: they differ
      only in the records they keep. */
  lemma StepsAgree(pool: Option<Pool>, c: Counters, d: Draw, cap: int, keep: int)
    requires ValidDraw(d) && keep > 0
    ensures var l := LocalStep(pool, c, d, cap, keep);
            var s := ServerStep(pool, c, d);
            l.pity == s.pity && l.stats.(pullHistory := []) == s.stats.(pullHistory := [])
  {
    TablesDrawAlike(c.pity, d.roll);
  }

  /** `_pullSingleOptimized` repeated over the draws, from one pool. */
  function LocalRun(pool: Option<Pool>, c: Counters, draws: seq<Draw>): (n: Counters)
    requires forall i :: 0 <= i < |draws| ==> ValidDraw(draws[i])
    ensures n.stats.totalPulls == c.stats.totalPulls + |draws|
  {
    if draws == [] then c
    else LocalStep(pool, LocalRun(pool, c, draws[..|draws| - 1]), draws[|draws| - 1], BatchCap, BatchKeep)
  }

  /** The record each pull of the run returns, in order. */
  function LocalRunRecords(pool: Option<Pool>, c: Counters, draws: seq<Draw>): (r: seq<PullRecord>)
    requires forall i :: 0 <= i < |draws| ==> ValidDraw(draws[i])
    ensures |r| == |draws|
  {
    if draws == [] then []
    else LocalRunRecords(pool, c, draws[..|draws| - 1]) + [Last(LocalRun(pool, c, draws).stats.pullHistory)]
  }

  lemma LocalRunStep(pool: Option<Pool>, c: Counters, draws: seq<Draw>, i: int)
    requires forall j :: 0 <= j < |draws| ==> ValidDraw(draws[j])
    requires 0 <= i < |draws|
    ensures LocalRun(pool, c, draws[..i + 1]) == LocalStep(pool, LocalRun(pool, c, draws[..i]), draws[i], BatchCap, BatchKeep)
    ensures LocalRunRecords(pool, c, draws[..i + 1])
            == LocalRunRecords(pool, c, draws[..i]) + [Last(LocalRun(pool, c, draws[..i + 1]).stats.pullHistory)]
  {
    assert draws[..i + 1][..i] == draws[..i];
  }

  /** Any run keeps the browser's invariant. */
  lemma {:induction false} LocalRunOk(pool: Option<Pool>, c: Counters, draws: seq<Draw>)
    requires LocalOk(c)
    requires forall i :: 0 <= i < |draws| ==> ValidDraw(draws[i])
    ensures LocalOk(LocalRun(pool, c, draws))
  {
    if draws != [] {
      var front := draws[..|draws| - 1];
      LocalRunOk(pool, c, front);
      LocalStepKeepsWindow(pool, LocalRun(pool, c, front), draws[|draws| - 1], BatchCap, BatchKeep);
    }
  }

  /** The last record of a run is the one its last pull returned, and it
      carries the run's new total. */
  lemma LocalRunLast(pool: Option<Pool>, c: Counters, draws: seq<Draw>)
    requires forall i :: 0 <= i < |draws| ==> ValidDraw(draws[i])
    requires draws != []
    ensures LocalRunRecords(pool, c, draws)
            == LocalRunRecords(pool, c, draws[..|draws| - 1]) + [Last(LocalRun(pool, c, draws).stats.pullHistory)]
    ensures Last(LocalRun(pool, c, draws).stats.pullHistory).pullNumber == c.stats.totalPulls + |draws|
  {
  }

  /** The records of a run are numbered on from the old total, one by one. */
  lemma {:induction false} LocalRunNumbers(pool: Option<Pool>, c: Counters, draws: seq<Draw>)
    requires forall i :: 0 <= i < |draws| ==> ValidDraw(draws[i])
    ensures var r := LocalRunRecords(pool, c, draws);
            forall j :: 0 <= j < |r| ==> r[j].pullNumber == c.stats.totalPulls + j + 1
  {
    if draws != [] {
      var front := draws[..|draws| - 1];
      LocalRunNumbers(pool, c, front);
      LocalRunLast(pool, c, draws);
      var r0 := LocalRunRecords(pool, c, front);
      var r := LocalRunRecords(pool, c, draws);
      forall j | 0 <= j < |r|
        ensures r[j].pullNumber == c.stats.totalPulls + j + 1
      {
        if j < |r0| {
          assert r[j] == r0[j];
        }
      }
    }
  }

  /** The first result `pullMulti` returns: results are kept from the pull
      whose index reaches `count - returnLimit`. */
  function ReturnedFrom(n: int, returnLimit: int): int
  {
    Min(n, Max(0, n - returnLimit))
  }

  /** With a non-negative limit, the last `returnLimit` results (all of them
      when there are fewer) are returned. */
  lemma ReturnedLast<T>(rs: seq<T>, returnLimit: int)
    requires returnLimit >= 0
    ensures |rs[ReturnedFrom(|rs|, returnLimit)..]| == Min(|rs|, returnLimit)
    ensures returnLimit > 0 ==> rs[ReturnedFrom(|rs|, returnLimit)..] == SliceFrom(rs, -returnLimit)
  {
  }

  /** One step of the result window: the element of index `i` joins the
      results exactly when `i` reaches `n - returnLimit`. */
  lemma WindowStep<T>(rs: seq<T>, x: T, n: int, returnLimit: int, results: seq<T>)
    requires |rs| < n
    requires results == rs[Min(|rs|, ReturnedFrom(n, returnLimit))..]
    ensures (if |rs| >= n - returnLimit then results + [x] else results)
            == (rs + [x])[Min(|rs| + 1, ReturnedFrom(n, returnLimit))..]
  {
    var start := ReturnedFrom(n, returnLimit);
    if |rs| >= start {
      assert (rs + [x])[start..] == rs[start..] + [x];
    }
  }

  /** The results list after pull `i` of a batch of `n`: its record joins
      when `i` reaches `n - returnLimit`. */
  function Collect<T>(results: seq<T>, x: T, i: int, n: int, returnLimit: int): seq<T>
  {
    if i >= n - returnLimit then results + [x] else results
  }

  /** The state of a batch after its first `i` pulls: the ledger is the run
      of the first `i` draws, and the results are that run's records from
      the start of the returned window on. */
  ghost predicate BatchInv(pool: Option<Pool>, c0: Counters, draws: seq<Draw>, returnLimit: int,
                           i: int, c: Counters, results: seq<PullRecord>)
    requires forall j :: 0 <= j < |draws| ==> ValidDraw(draws[j])
    requires 0 <= i <= |draws|
  {
    && c == LocalRun(pool, c0, draws[..i])
    && results == LocalRunRecords(pool, c0, draws[..i])[Min(i, ReturnedFrom(|draws|, returnLimit))..]
  }

  /** One pull of a batch advances the run by one draw and the returned
      window by at most one record. */
  lemma BatchAdvance(pool: Option<Pool>, c0: Counters, draws: seq<Draw>, i: int, returnLimit: int,
                     results: seq<PullRecord>, before: Counters, after: Counters, rec: PullRecord)
    requires forall j :: 0 <= j < |draws| ==> ValidDraw(draws[j])
    requires 0 <= i < |draws|
    requires before == LocalRun(pool, c0, draws[..i])
    requires after == LocalStep(pool, before, draws[i], BatchCap, BatchKeep)
    requires rec == Last(after.stats.pullHistory)
    requires results == LocalRunRecords(pool, c0, draws[..i])[Min(i, ReturnedFrom(|draws|, returnLimit))..]
    ensures after == LocalRun(pool, c0, draws[..i + 1])
    ensures Collect(results, rec, i, |draws|, returnLimit)
            == LocalRunRecords(pool, c0, draws[..i + 1])[Min(i + 1, ReturnedFrom(|draws|, returnLimit))..]
  {
    LocalRunStep(pool, c0, draws, i);
    WindowStep(LocalRunRecords(pool, c0, draws[..i]), rec, |draws|, returnLimit, results);
  }

  /** A batch starts with the old ledger and no results, and once every
      draw is pulled it is the whole run with the records of its window. */
  lemma BatchEnds(pool: Option<Pool>, c0: Counters, draws: seq<Draw>, returnLimit: int,
                  c: Counters, results: seq<PullRecord>)
    requires forall j :: 0 <= j < |draws| ==> ValidDraw(draws[j])
    ensures BatchInv(pool, c0, draws, returnLimit, 0, c0, [])
    ensures BatchInv(pool, c0, draws, returnLimit, |draws|, c, results) ==>
              c == LocalRun(pool, c0, draws)
              && results == LocalRunRecords(pool, c0, draws)[ReturnedFrom(|draws|, returnLimit)..]
  {
    assert draws[..0] == [];
    assert draws[..|draws|] == draws;
  }

  /** The result of `pullMulti`. */
  datatype MultiResult = MultiResult(results: seq<PullRecord>, actualCount: int, returnedCount: int)

  /** The maximum batch size of `pullMulti`. */
  const MaxCount := 10000

  /** The defaults of `pullMulti(count = 10, returnLimit = 100)` and of
      `getHistory(limit = 50)`. */
  const DefaultCount := 10
  const DefaultReturnLimit := 100
  const DefaultHistoryLimit := 50

  /** With the default return limit a batch returns its last 100 records,
      and all of them when it has no more than 100, as a batch of the
      default count does. */
  lemma DefaultReturnWindow<T>(rs: seq<T>)
    ensures rs[ReturnedFrom(|rs|, DefaultReturnLimit)..] == rs[|rs| - Min(|rs|, DefaultReturnLimit)..]
    ensures |rs| <= DefaultReturnLimit ==> rs[ReturnedFrom(|rs|, DefaultReturnLimit)..] == rs
    ensures |rs| == Min(Max(1, DefaultCount), MaxCount) ==> rs[ReturnedFrom(|rs|, DefaultReturnLimit)..] == rs
  {
    ReturnedLast(rs, DefaultReturnLimit);
  }

  /** `getHistory`: `slice(-limit)`; a limit of 0 is `slice(0)`, the whole
      history. */
  function HistoryTail(h: seq<PullRecord>, limit: int): (r: seq<PullRecord>)
    ensures limit > 0 ==> r == h[|h| - Min(limit, |h|)..]
    ensures limit == 0 ==> r == h
    ensures limit < 0 ==> r == h[Min(-limit, |h|)..]
  {
    if limit > 0 then
      LastK(h, limit);
      SliceFrom(h, -limit)
    else SliceFrom(h, -limit)
  }

  /** With the default limit the history view is the last 50 records, and
      the server's view with the same limit. */
  lemma DefaultHistory(h: seq<PullRecord>)
    ensures HistoryTail(h, DefaultHistoryLimit) == h[|h| - Min(DefaultHistoryLimit, |h|)..]
    ensures |HistoryTail(h, DefaultHistoryLimit)| == Min(DefaultHistoryLimit, |h|)
    ensures HistoryTail(h, DefaultHistoryLimit) == HistoryView(h, DefaultHistoryLimit)
  {
    HistoryAgrees(h, DefaultHistoryLimit);
  }

  /** For every limit that is not negative the two engines return the same
      records. */
  lemma HistoryAgrees(h: seq<PullRecord>, limit: int)
    requires limit >= 0
    ensures HistoryTail(h, limit) == HistoryView(h, limit)
  {
    HistoryViewLast(h, limit);
  }

  /** Everything of the browser engine but the ledger: the pool table, the
      current pool id, the loaded flag and the session's pool id. */
  datatype Setup = Setup(pools: map<string, Pool>, poolOrder: seq<string>, currentPoolId: Option<string>,
                         dataLoaded: bool, sessionPoolId: Option<string>)

  class LocalGachaService {
    var pools: map<string, Pool>
    var poolOrder: seq<string>
    var currentPoolId: Option<string>
    var dataLoaded: bool
    var sessionPoolId: Option<string>   // sessionData.currentPoolId
    var pityCounter: int                // sessionData.pityCounter
    var stats: Stats                    // sessionData.stats

    function Table(): PoolTable
      reads this
    {
      PoolTable(pools, poolOrder)
    }

    function SessionCounters(): Counters
      reads this
    {
      Counters(pityCounter, stats)
    }

    function SetupOf(): Setup
      reads this
    {
      Setup(pools, poolOrder, currentPoolId, dataLoaded, sessionPoolId)
    }

    /** The pool table is keyed by pool id in insertion order, and the
        session records the current pool id. (That the ledger satisfies
        `LocalOk` is proved of the values each method leaves, by the lemmas
        about `LocalStep`, `LocalRun`, `SeedMissing` and `Fresh`.) */
    ghost predicate Valid()
      reads this
    {
      Table().Valid() && sessionPoolId == currentPoolId
    }

    /** The constructor with a new session (`_createNewSession`): no pools,
        no pool id, nothing loaded, a zero ledger with no UP ids. */
    constructor()
      ensures Valid()
      ensures pools == map[] && poolOrder == [] && currentPoolId == None && !dataLoaded
      ensures sessionPoolId == None && SessionCounters() == Fresh([])
    {
      pools := map[];
      poolOrder := [];
      currentPoolId := None;
      sessionPoolId := None;
      pityCounter := 0;
      stats := Stats(0, 0, 0, 0, map[], []);
      dataLoaded := false;
      new;
      assert SeedCounts([]) == map[];
    }

    /** `getCurrentPool`: `pools[currentPoolId] || null`. */
    function CurrentPool(): (r: Option<Pool>)
      reads this
      ensures r.Some? ==> JsKey(currentPoolId) in pools && r.value == pools[JsKey(currentPoolId)]
      ensures r.None? ==> JsKey(currentPoolId) !in pools
    {
      if JsKey(currentPoolId) in pools then Some(pools[JsKey(currentPoolId)]) else None
    }

    /** `getAllPools`: the pools in key order. */
    function GetAllPools(): (r: seq<Pool>)
      requires Valid()
      reads this
      ensures |r| == |poolOrder|
      ensures forall i :: 0 <= i < |r| ==> r[i].poolId == poolOrder[i] && r[i] in pools.Values
      ensures forall p :: p in pools.Values ==> p in r
    {
      PoolsInOrder(Table())
    }

    /** `loadPoolsData` once the fetch has answered: `fetched` is the list of
        pools in the data file, `None` when the request or the parse failed,
        which changes nothing. Otherwise the table is replaced by the parsed
        pools, the pool id is chosen as `LoadedPoolId` says, the UP ids of
        the current pool are seeded, and the data counts as loaded. */
    method LoadPoolsData(fetched: Option<seq<Pool>>) returns (ok: bool)
      requires Valid()
      modifies this
      ensures Valid()
      ensures ok <==> fetched.Some?
      ensures !ok ==> unchanged(this)
      ensures ok ==> Table() == InsertAll(EmptyTable, ParseAll(fetched.value))
      ensures ok ==> currentPoolId == LoadedPoolId(old(currentPoolId), old(sessionPoolId), Table())
      ensures ok ==> dataLoaded && pityCounter == old(pityCounter)
      ensures ok ==> stats == old(stats).(featuredSsrCounts := SeedMissing(old(stats.featuredSsrCounts), FeaturedIds(CurrentPool())))
    {
      if fetched.None? {
        return false;
      }
      ReplacePools(ParseAll(fetched.value));
      SelectLoadedPool();
      InitFeaturedSsrCounts();
      dataLoaded := true;
      ok := true;
    }

    /** `this.pools = {}` and the loop storing each parsed pool under its
        id. */
    method ReplacePools(parsed: seq<Pool>)
      modifies this
      ensures Table() == InsertAll(EmptyTable, parsed)
      ensures currentPoolId == old(currentPoolId) && sessionPoolId == old(sessionPoolId)
      ensures pityCounter == old(pityCounter) && stats == old(stats) && dataLoaded == old(dataLoaded)
    {
      pools := map[];
      poolOrder := [];
      var i := 0;
      while i < |parsed|
        invariant 0 <= i <= |parsed|
        invariant Table() == InsertAll(EmptyTable, parsed[..i])
        invariant currentPoolId == old(currentPoolId) && sessionPoolId == old(sessionPoolId)
        invariant pityCounter == old(pityCounter) && stats == old(stats) && dataLoaded == old(dataLoaded)
      {
        assert parsed[..i + 1][..i] == parsed[..i];
        var p := parsed[i];
        if p.poolId !in pools {
          poolOrder := poolOrder + [p.poolId];
        }
        pools := pools[p.poolId := p];
        i := i + 1;
      }
      assert parsed[..|parsed|] == parsed;
    }

    /** The choice of the current pool after a load. */
    method SelectLoadedPool()
      requires Valid()
      modifies this
      ensures Valid()
      ensures currentPoolId == LoadedPoolId(old(currentPoolId), old(sessionPoolId), Table())
      ensures pools == old(pools) && poolOrder == old(poolOrder)
      ensures pityCounter == old(pityCounter) && stats == old(stats) && dataLoaded == old(dataLoaded)
    {
      if !Truthy(currentPoolId) && pools != map[] {
        assert poolOrder != [] by { var k :| k in pools; }
        currentPoolId := Some(poolOrder[0]);
        sessionPoolId := currentPoolId;
      } else if Truthy(sessionPoolId) {
        currentPoolId := sessionPoolId;
      }
    }

    /** `_initFeaturedSSRCounts`: the UP ids of the current pool that are
        not tracked yet are added at 0; nothing else changes. */
    method InitFeaturedSsrCounts()
      requires Valid()
      modifies this
      ensures Valid()
      ensures stats == old(stats).(featuredSsrCounts := SeedMissing(old(stats.featuredSsrCounts), FeaturedIds(CurrentPool())))
      ensures pools == old(pools) && poolOrder == old(poolOrder) && dataLoaded == old(dataLoaded)
      ensures currentPoolId == old(currentPoolId) && sessionPoolId == old(sessionPoolId)
      ensures pityCounter == old(pityCounter)
    {
      var ids := FeaturedIds(CurrentPool());
      var i := 0;
      while i < |ids|
        invariant 0 <= i <= |ids|
        invariant stats == old(stats).(featuredSsrCounts := SeedMissing(old(stats.featuredSsrCounts), ids[..i]))
        invariant pools == old(pools) && poolOrder == old(poolOrder) && dataLoaded == old(dataLoaded)
        invariant currentPoolId == old(currentPoolId) && sessionPoolId == old(sessionPoolId)
        invariant pityCounter == old(pityCounter)
      {
        assert ids[..i + 1][..i] == ids[..i];
        if ids[i] !in stats.featuredSsrCounts {
          stats := stats.(featuredSsrCounts := stats.featuredSsrCounts[ids[i] := 0]);
        }
        i := i + 1;
      }
      assert ids[..|ids|] == ids;
    }

    /** `setCurrentPool`: an unknown id fails and changes nothing; a known
        one becomes the current and the saved pool id, and the ledger is
        reset from it when auto-reset is on and the id differs from the one
        current before the call. The pool is returned. */
    method SetCurrentPool(poolId: string, autoReset: bool) returns (r: Option<Pool>)
      requires Valid()
      modifies this
      ensures Valid()
      ensures r.None? <==> poolId !in pools
      ensures r.None? ==> unchanged(this)
      ensures r.Some? ==> r.value == pools[poolId]
      ensures r.Some? ==> SessionState(currentPoolId, SessionCounters())
                          == LocalSwitch(old(SessionState(currentPoolId, SessionCounters())), pools, poolId, autoReset)
      ensures pools == old(pools) && poolOrder == old(poolOrder) && dataLoaded == old(dataLoaded)
      ensures sessionPoolId == currentPoolId
    {
      if poolId !in pools {
        return None;
      }
      var needReset := autoReset && Some(poolId) != currentPoolId;
      currentPoolId := Some(poolId);
      sessionPoolId := Some(poolId);
      if needReset {
        Reset();
      }
      r := Some(pools[poolId]);
    }

    /** `reset`: pity 0, empty statistics and history, the UP ids of the
        current pool tracked at 0; the pool id and the table are kept. */
    method Reset()
      requires Valid()
      modifies this
      ensures Valid()
      ensures SessionCounters() == Fresh(FeaturedIds(CurrentPool()))
      ensures pools == old(pools) && poolOrder == old(poolOrder) && dataLoaded == old(dataLoaded)
      ensures currentPoolId == old(currentPoolId) && sessionPoolId == old(sessionPoolId)
    {
      var pool := CurrentPool();
      pityCounter := 0;
      var counts := SeedLoop(FeaturedIds(pool));
      stats := Stats(0, 0, 0, 0, counts, []);
    }

    /** The counter updates shared by `pullSingle` and
        `_pullSingleOptimized`, statement by statement. */
    method Tally(tier: Tier, card: Card) returns (rec: PullRecord)
      modifies this
      ensures SessionCounters() == Count(old(SessionCounters()), tier, card)
      ensures rec == Last(stats.pullHistory)
      ensures pools == old(pools) && poolOrder == old(poolOrder) && dataLoaded == old(dataLoaded)
      ensures currentPoolId == old(currentPoolId) && sessionPoolId == old(sessionPoolId)
    {
      stats := stats.(totalPulls := stats.totalPulls + 1);
      pityCounter := pityCounter + 1;
      if tier == SSR {
        stats := stats.(ssrCount := stats.ssrCount + 1);
        pityCounter := 0;
        if card.cardId in stats.featuredSsrCounts {
          stats := stats.(featuredSsrCounts := stats.featuredSsrCounts[card.cardId := stats.featuredSsrCounts[card.cardId] + 1]);
        }
      } else if tier == SR {
        stats := stats.(srCount := stats.srCount + 1);
      } else {
        stats := stats.(rCount := stats.rCount + 1);
      }
      rec := PullRecord(stats.totalPulls, card, pityCounter);
      stats := stats.(pullHistory := stats.pullHistory + [rec]);
    }

    /** The history cap: past `cap` records only the last `keep` stay. */
    method Cap(cap: int, keep: int)
      requires keep > 0
      modifies this
      ensures SessionCounters() == Trim(old(SessionCounters()), cap, keep)
      ensures pools == old(pools) && poolOrder == old(poolOrder) && dataLoaded == old(dataLoaded)
      ensures currentPoolId == old(currentPoolId) && sessionPoolId == old(sessionPoolId)
    {
      if |stats.pullHistory| > cap {
        stats := stats.(pullHistory := SliceFrom(stats.pullHistory, -keep));
      }
    }

    /** `pullSingle`: before the data is loaded it fails and changes nothing;
        afterwards it draws from the current pool, updates the ledger as
        the server does, cuts a history longer than 1000 to its last 500
        records, and returns the new record, which is the last one kept. */
    method PullSingle(d: Draw) returns (r: Option<PullRecord>)
      requires Valid()
      requires ValidDraw(d)
      modifies this
      ensures Valid()
      ensures !old(dataLoaded) ==> r.None? && unchanged(this)
      ensures old(dataLoaded) ==> SessionCounters() == LocalStep(CurrentPool(), old(SessionCounters()), d, SingleCap, SingleKeep)
      ensures old(dataLoaded) ==> r == Some(Last(stats.pullHistory))
      ensures pools == old(pools) && poolOrder == old(poolOrder) && dataLoaded == old(dataLoaded)
      ensures currentPoolId == old(currentPoolId) && sessionPoolId == old(sessionPoolId)
    {
      if !dataLoaded {
        return None;
      }
      var tier := DetermineRarity(LocalTable, pityCounter, d.roll);
      var card := LocalCard(CurrentPool(), tier, d);
      var rec := Tally(tier, card);
      Cap(SingleCap, SingleKeep);
      r := Some(rec);
    }

    /** `_pullSingleOptimized`: the same pull with no loaded-data check,
        keeping the last 1000 records. */
    method PullSingleOptimized(d: Draw) returns (rec: PullRecord)
      requires Valid()
      requires ValidDraw(d)
      modifies this
      ensures Valid()
      ensures SessionCounters() == LocalStep(CurrentPool(), old(SessionCounters()), d, BatchCap, BatchKeep)
      ensures rec == Last(stats.pullHistory)
      ensures SetupOf() == old(SetupOf())
    {
      var tier := DetermineRarity(LocalTable, pityCounter, d.roll);
      var card := LocalCard(CurrentPool(), tier, d);
      rec := Tally(tier, card);
      Cap(BatchCap, BatchKeep);
    }

    /** `pullMulti`: before the data is loaded it fails and changes nothing.
        Otherwise the count is clamped to [1, 10000], that many optimized
        pulls run from the current pool, and the records of the pulls whose
        index reaches `count - returnLimit` are returned, in order, with the
        clamped count and the number returned. Nothing but the ledger
        changes. */
    method PullMulti(count: int, returnLimit: int, draws: seq<Draw>) returns (r: Option<MultiResult>)
      requires Valid()
      requires |draws| == Min(Max(1, count), MaxCount)
      requires forall i :: 0 <= i < |draws| ==> ValidDraw(draws[i])
      modifies this
      ensures Valid()
      ensures !old(dataLoaded) ==> r.None? && unchanged(this)
      ensures old(dataLoaded) ==> r.Some? && r.value.actualCount == |draws| && r.value.returnedCount == |r.value.results|
      ensures old(dataLoaded) ==> SessionCounters() == LocalRun(CurrentPool(), old(SessionCounters()), draws)
      ensures old(dataLoaded) ==>
                r.value.results == LocalRunRecords(CurrentPool(), old(SessionCounters()), draws)[ReturnedFrom(|draws|, returnLimit)..]
      ensures SetupOf() == old(SetupOf())
    {
      if !dataLoaded {
        return None;
      }
      var results := RunBatch(returnLimit, draws);
      r := Some(MultiResult(results, |draws|, |results|));
    }

    /** The loop of `pullMulti`: one optimized pull per draw, collecting the
        records from index `count - returnLimit` on. */
    method RunBatch(returnLimit: int, draws: seq<Draw>) returns (results: seq<PullRecord>)
      requires Valid()
      requires forall i :: 0 <= i < |draws| ==> ValidDraw(draws[i])
      modifies this
      ensures Valid()
      ensures SessionCounters() == LocalRun(CurrentPool(), old(SessionCounters()), draws)
      ensures results == LocalRunRecords(CurrentPool(), old(SessionCounters()), draws)[ReturnedFrom(|draws|, returnLimit)..]
      ensures SetupOf() == old(SetupOf())
    {
      ghost var pool := CurrentPool();
      ghost var c0 := SessionCounters();
      ghost var setup := SetupOf();
      results := [];
      var i := 0;
      BatchEnds(pool, c0, draws, returnLimit, c0, results);
      while i < |draws|
        invariant 0 <= i <= |draws|
        invariant Valid()
        invariant SetupOf() == setup
        invariant BatchInv(pool, c0, draws, returnLimit, i, SessionCounters(), results)
      {
        results := BatchStep(draws, i, returnLimit, results, pool, c0);
        i := i + 1;
      }
      BatchEnds(pool, c0, draws, returnLimit, SessionCounters(), results);
    }

    /** One round of the `pullMulti` loop: pull `i` of the batch, its record
        kept when `i` reaches `count - returnLimit`. */
    method BatchStep(draws: seq<Draw>, i: int, returnLimit: int, results: seq<PullRecord>,
                     ghost pool: Option<Pool>, ghost c0: Counters)
      returns (results': seq<PullRecord>)
      requires Valid()
      requires forall j :: 0 <= j < |draws| ==> ValidDraw(draws[j])
      requires 0 <= i < |draws|
      requires pool == CurrentPool()
      requires BatchInv(pool, c0, draws, returnLimit, i, SessionCounters(), results)
      modifies this
      ensures Valid()
      ensures SetupOf() == old(SetupOf())
      ensures BatchInv(pool, c0, draws, returnLimit, i + 1, SessionCounters(), results')
    {
      ghost var before := SessionCounters();
      var rec := PullSingleOptimized(draws[i]);
      BatchAdvance(pool, c0, draws, i, returnLimit, results, before, SessionCounters(), rec);
      results' := Collect(results, rec, i, |draws|, returnLimit);
    }

    /** `getStatistics`: the ledger's figures; before the first pull the
        featured map is returned as seeded. */
    function GetStatistics(): (v: StatsView)
      reads this
      ensures v == LocalStatistics(SessionCounters())
    {
      LocalStatistics(Counters(pityCounter, stats))
    }

    /** `getHistory`. */
    function GetHistory(limit: int): (h: seq<PullRecord>)
      reads this
      ensures h == HistoryTail(stats.pullHistory, limit)
    {
      HistoryTail(stats.pullHistory, limit)
    }
  }
}
