/** The server-side engine (services/gacha.py): `UserSession`, one user's
    pity counter and statistics, and `GachaService`, the pool table plus the
    sessions keyed by id. Every random number a call consumes is a `Draw`
    parameter, and every session id `uuid4` would mint is a `freshId`
    parameter, one per session lookup the call performs. */
module Gacha {
  import opened Base
  import opened Config
  import opened Cards
  import opened Pools
  import opened Rules
  import opened Ledger
  import opened Report

  /** A session as a value: the pool it draws from and its counters. */
  datatype SessionState = SessionState(currentPoolId: Option<string>, counters: Counters)

  /** `self.pools.get(pool_id)`. */
  function LookupPool(pools: map<string, Pool>, id: Option<string>): Option<Pool>
  {
    if id.Some? && id.value in pools then Some(pools[id.value]) else None
  }

  /** The ids a session is seeded with: the UP ids of the given pool, when
      its id is truthy and known, and none otherwise. */
  function SeedIds(pools: map<string, Pool>, id: Option<string>): (ids: seq<string>)
    ensures Truthy(id) && id.value in pools ==> ids == pools[id.value].featuredSsr
    ensures !(Truthy(id) && id.value in pools) ==> ids == []
  {
    if Truthy(id) && id.value in pools then pools[id.value].featuredSsr else []
  }

  /** The session `_get_or_create_session` creates: the default pool, a zero
      counter and the default pool's UP ids seeded. */
  function NewSessionState(pools: map<string, Pool>, defaultPoolId: Option<string>): SessionState
  {
    SessionState(defaultPoolId, Fresh(SeedIds(pools, defaultPoolId)))
  }

  /** `GachaService.reset`: counters zeroed, UP ids of the current pool
      seeded, the pool kept. */
  function ResetState(st: SessionState, pools: map<string, Pool>): (r: SessionState)
    ensures r.currentPoolId == st.currentPoolId
    ensures r.counters.pity == 0 && r.counters.stats.totalPulls == 0 && r.counters.stats.pullHistory == []
    ensures r.counters.stats.ssrCount == 0 && r.counters.stats.srCount == 0 && r.counters.stats.rCount == 0
    ensures forall k :: k in r.counters.stats.featuredSsrCounts <==> k in SeedIds(pools, st.currentPoolId)
  {
    SessionState(st.currentPoolId, Fresh(SeedIds(pools, st.currentPoolId)))
  }

  /** `set_current_pool` for a known pool: with auto-reset and a different
      pool the session moves and is reset from the new pool; otherwise only
      the pool id changes. */
  function SwitchPool(st: SessionState, pools: map<string, Pool>, poolId: string, autoReset: bool): (r: SessionState)
    ensures r.currentPoolId == Some(poolId)
    ensures autoReset && st.currentPoolId != Some(poolId) ==>
              && r.counters == Fresh(SeedIds(pools, Some(poolId)))
    ensures !(autoReset && st.currentPoolId != Some(poolId)) ==> r.counters == st.counters
  {
    if autoReset && st.currentPoolId != Some(poolId) then ResetState(st.(currentPoolId := Some(poolId)), pools)
    else st.(currentPoolId := Some(poolId))
  }

  /** A reset from a known pool with a truthy id tracks exactly that pool's
      UP ids, each at zero. */
  lemma SwitchPoolSeeds(st: SessionState, pools: map<string, Pool>, poolId: string)
    requires poolId in pools && poolId != ""
    requires st.currentPoolId != Some(poolId)
    ensures var f := SwitchPool(st, pools, poolId, true).counters.stats.featuredSsrCounts;
            (forall k :: k in f <==> k in pools[poolId].featuredSsr) && (forall k :: k in f ==> f[k] == 0)
  {
  }

  /** One `pull_single` on a session, as a value. */
  function PullState(pools: map<string, Pool>, st: SessionState, d: Draw): (r: SessionState)
    requires ValidDraw(d)
    ensures r.currentPoolId == st.currentPoolId
  {
    SessionState(st.currentPoolId, ServerStep(LookupPool(pools, st.currentPoolId), st.counters, d))
  }

  /** What every server session satisfies: the ledger invariant of the
      server's rarity table over its whole history. */
  ghost predicate SessionOk(st: SessionState)
  {
    Consistent(ServerTable, st.counters)
  }

  /** A created session satisfies it, and so does every session after a
      reset, a pool switch or a pull: whatever sequence of calls a session
      sees, its counters agree with its history. */
  lemma NewSessionOk(pools: map<string, Pool>, defaultPoolId: Option<string>)
    ensures SessionOk(NewSessionState(pools, defaultPoolId))
  {
    FreshConsistent(ServerTable, SeedIds(pools, defaultPoolId));
  }

  lemma ResetOk(st: SessionState, pools: map<string, Pool>)
    ensures SessionOk(ResetState(st, pools))
  {
    FreshConsistent(ServerTable, SeedIds(pools, st.currentPoolId));
  }

  lemma SwitchPoolOk(st: SessionState, pools: map<string, Pool>, poolId: string, autoReset: bool)
    requires SessionOk(st)
    ensures SessionOk(SwitchPool(st, pools, poolId, autoReset))
  {
    if autoReset && st.currentPoolId != Some(poolId) {
      ResetOk(st.(currentPoolId := Some(poolId)), pools);
    }
  }

  lemma PullStateOk(pools: map<string, Pool>, st: SessionState, d: Draw)
    requires SessionOk(st)
    requires ValidDraw(d)
    ensures SessionOk(PullState(pools, st, d))
  {
    ServerStepKeepsConsistent(LookupPool(pools, st.currentPoolId), st.counters, d);
  }

  /** The default of `pull_multi`'s count. */
  const DefaultMultiCount := 10

  /** The default of `auto_reset` in `set_current_pool`, and of `autoReset`
      in the browser's `setCurrentPool`. */
  const DefaultAutoReset := true

  function Last<T>(s: seq<T>): T
    requires s != []
  {
    s[|s| - 1]
  }

  /** A run of pulls on one session, as a value. */
  function PullRun(pools: map<string, Pool>, st: SessionState, draws: seq<Draw>): (r: SessionState)
    requires forall i :: 0 <= i < |draws| ==> ValidDraw(draws[i])
    ensures r.currentPoolId == st.currentPoolId
    ensures |r.counters.stats.pullHistory| == |st.counters.stats.pullHistory| + |draws|
  {
    SessionState(st.currentPoolId, ServerRun(LookupPool(pools, st.currentPoolId), st.counters, draws))
  }

  /** The records a run appends. */
  function RunRecords(pools: map<string, Pool>, st: SessionState, draws: seq<Draw>): (r: seq<PullRecord>)
    requires forall i :: 0 <= i < |draws| ==> ValidDraw(draws[i])
    ensures |r| == |draws|
  {
    PullRun(pools, st, draws).counters.stats.pullHistory[|st.counters.stats.pullHistory|..]
  }

  /** One more pull extends the run by one step and its records by the new
      record. */
  lemma PullRunStep(pools: map<string, Pool>, st: SessionState, draws: seq<Draw>, i: int)
    requires forall j :: 0 <= j < |draws| ==> ValidDraw(draws[j])
    requires 0 <= i < |draws|
    ensures PullRun(pools, st, draws[..i + 1]) == PullState(pools, PullRun(pools, st, draws[..i]), draws[i])
    ensures RunRecords(pools, st, draws[..i + 1])
            == RunRecords(pools, st, draws[..i]) + [Last(PullRun(pools, st, draws[..i + 1]).counters.stats.pullHistory)]
  {
    assert draws[..i + 1][..i] == draws[..i];
    var n := |st.counters.stats.pullHistory|;
    var h0 := PullRun(pools, st, draws[..i]).counters.stats.pullHistory;
    var h1 := PullRun(pools, st, draws[..i + 1]).counters.stats.pullHistory;
    assert h1 == h0 + [Last(h1)];
    assert h1[n..] == h0[n..] + [Last(h1)];
  }

  /** `get_pull_history`: a truthy limit gives `history[-limit:]`, a limit of
      `None` or 0 the whole history. */
  function HistoryView(h: seq<PullRecord>, limit: int): seq<PullRecord>
  {
    if limit != 0 then SliceFrom(h, -limit) else h
  }

  /** A positive limit yields the last `limit` records (all of them when
      there are fewer); no limit yields all of them. */
  lemma HistoryViewLast(h: seq<PullRecord>, limit: int)
    ensures limit > 0 ==> HistoryView(h, limit) == h[|h| - Min(limit, |h|)..]
    ensures limit == 0 ==> HistoryView(h, limit) == h
  {
    if limit > 0 {
      LastK(h, limit);
    }
  }

  /** The session key a lookup uses: the given id, or a minted one when the
      given id is falsy. */
  function SessionKey(sessionId: string, freshId: string): string
  {
    if sessionId == "" then freshId else sessionId
  }

  /** The dict form of a session (`to_dict`/`from_dict`): `None` in the
      outer option marks a missing key. */
  datatype SessionDict = SessionDict(
    sessionId: Option<string>,
    currentPoolId: Option<Option<string>>,
    pityCounter: Option<int>,
    stats: Option<Stats>)

  function DictOf(sessionId: string, st: SessionState): SessionDict
  {
    SessionDict(Some(sessionId), Some(st.currentPoolId), Some(st.counters.pity), Some(st.counters.stats))
  }

  /** `UserSession.from_dict`: the session id is required (a missing one is a
      `KeyError`); the pool id defaults to `None`, the counter to 0 and the
      statistics to an empty ledger with no UP ids. */
  function StateFromDict(d: SessionDict): (r: Option<(string, SessionState)>)
    ensures r.None? <==> d.sessionId.None?
    ensures r.Some? && d.pityCounter.None? ==> r.value.1.counters.pity == 0
    ensures r.Some? && d.stats.None? ==> r.value.1.counters.stats == EmptyStats([])
  {
    if d.sessionId.None? then None
    else
      var poolId := if d.currentPoolId.Some? then d.currentPoolId.value else None;
      var pity := if d.pityCounter.Some? then d.pityCounter.value else 0;
      var stats := if d.stats.Some? then d.stats.value else EmptyStats([]);
      Some((d.sessionId.value, SessionState(poolId, Counters(pity, stats))))
  }

  /** Restoring the dict form of a session gives back its id and state. */
  lemma DictRoundTrip(sessionId: string, st: SessionState)
    ensures StateFromDict(DictOf(sessionId, st)) == Some((sessionId, st))
  {
  }

  /** One user's session. The id never changes; the rest is updated in
      place by pulls and resets. */
  class UserSession {
    const sessionId: string
    var currentPoolId: Option<string>
    var pityCounter: int
    var stats: Stats

    function State(): SessionState
      reads this
    {
      SessionState(currentPoolId, Counters(pityCounter, stats))
    }

    /** `UserSession.__init__`: counter 0, empty statistics, the given UP
        ids tracked at 0. */
    constructor(sessionId: string, defaultPoolId: Option<string>, featuredSsr: seq<string>)
      ensures this.sessionId == sessionId
      ensures State() == SessionState(defaultPoolId, Fresh(featuredSsr))
    {
      this.sessionId := sessionId;
      currentPoolId := defaultPoolId;
      pityCounter := 0;
      var counts := SeedLoop(featuredSsr);
      stats := Stats(0, 0, 0, 0, counts, []);
    }

    /** `UserSession.reset`: counters and history cleared, the given UP ids
        tracked at 0; the pool is kept. */
    method Reset(featuredSsr: seq<string>)
      modifies this
      ensures State() == SessionState(old(currentPoolId), Fresh(featuredSsr))
    {
      pityCounter := 0;
      var counts := SeedLoop(featuredSsr);
      stats := Stats(0, 0, 0, 0, counts, []);
    }

    /** `UserSession.to_dict`. */
    function ToDict(): SessionDict
      reads this
    {
      DictOf(sessionId, State())
    }

    /** `UserSession.from_dict`; `None` where the source raises. */
    static method FromDict(d: SessionDict) returns (r: Option<UserSession>)
      ensures r.None? <==> StateFromDict(d).None?
      ensures r.Some? ==> fresh(r.value)
      ensures r.Some? ==> r.value.sessionId == StateFromDict(d).value.0 && r.value.State() == StateFromDict(d).value.1
    {
      var restored := StateFromDict(d);
      if restored.None? {
        return None;
      }
      var id := restored.value.0;
      var st := restored.value.1;
      var s := new UserSession(id, st.currentPoolId, []);
      s.pityCounter := st.counters.pity;
      s.stats := st.counters.stats;
      assert s.State() == st;
      return Some(s);
    }

    /** The counter updates of `pull_single`, statement by statement. */
    method Record(tier: Tier, card: Card) returns (rec: PullRecord)
      modifies this
      ensures Counters(pityCounter, stats) == Count(old(Counters(pityCounter, stats)), tier, card)
      ensures currentPoolId == old(currentPoolId)
      ensures rec == stats.pullHistory[|stats.pullHistory| - 1]
    {
      stats := stats.(totalPulls := stats.totalPulls + 1);
      pityCounter := pityCounter + 1;
      if tier == SSR {
        stats := stats.(ssrCount := stats.ssrCount + 1);
        pityCounter := 0;
        if card.cardId in stats.featuredSsrCounts {
          stats := stats.(featuredSsrCounts := stats.featuredSsrCounts[card.cardId := stats.featuredSsrCounts[card.cardId] + 1]);
        }
      } else if tier == SR {
        stats := stats.(srCount := stats.srCount + 1);
      } else {
        stats := stats.(rCount := stats.rCount + 1);
      }
      rec := PullRecord(stats.totalPulls, card, pityCounter);
      stats := stats.(pullHistory := stats.pullHistory + [rec]);
    }
  }

  /** The pool table, the default pool and the sessions. */
  class GachaService {
    var pools: map<string, Pool>
    var poolOrder: seq<string>
    var defaultPoolId: Option<string>
    var sessions: map<string, UserSession>

    function Table(): PoolTable
      reads this
    {
      PoolTable(pools, poolOrder)
    }

    /** The pool table is keyed by pool id in insertion order; the default
        pool, when set, is the first key; each session sits under its own
        id. (A load that raises part-way can leave pools without a default.) */
    ghost predicate Valid()
      reads this
    {
      && Table().Valid()
      && DefaultIsFirst(poolOrder, defaultPoolId)
      && (forall k :: k in sessions ==> sessions[k].sessionId == k)
    }

    /** The state of the session a lookup of `k` returns: the stored one, or
        the one that would be created now. */
    ghost function StateOf(k: string): SessionState
      reads this, sessions.Values
    {
      if k in sessions then sessions[k].State() else NewSessionState(pools, defaultPoolId)
    }

    /** `GachaService(load_local=False)`. */
    constructor()
      ensures pools == map[] && poolOrder == [] && defaultPoolId == None && sessions == map[]
      ensures Valid()
    {
      pools := map[];
      poolOrder := [];
      defaultPoolId := None;
      sessions := map[];
    }

    /** `_get_or_create_session`: the session stored under the key, created
        from the default pool when missing. No session's state changes. */
    method GetOrCreateSession(sessionId: string, freshId: string) returns (s: UserSession)
      requires Valid()
      modifies this
      ensures Valid()
      ensures SessionKey(sessionId, freshId) in sessions && s == sessions[SessionKey(sessionId, freshId)]
      ensures sessions.Keys == old(sessions.Keys) + {SessionKey(sessionId, freshId)}
      ensures forall k :: k in old(sessions) ==> sessions[k] == old(sessions[k])
      ensures SessionKey(sessionId, freshId) !in old(sessions) ==> fresh(s)
      ensures pools == old(pools) && poolOrder == old(poolOrder) && defaultPoolId == old(defaultPoolId)
      ensures forall k :: StateOf(k) == old(StateOf(k))
    {
      var k := SessionKey(sessionId, freshId);
      if k !in sessions {
        var featured := SeedIds(pools, defaultPoolId);
        var created := new UserSession(k, defaultPoolId, featured);
        sessions := sessions[k := created];
      }
      s := sessions[k];
    }

    /** `get_session_id`. */
    method GetSessionId(sessionId: string, freshId: string) returns (id: string)
      requires Valid()
      modifies this
      ensures Valid()
      ensures id == SessionKey(sessionId, freshId) && id in sessions
      ensures sessionId != "" ==> id == sessionId
      ensures sessions.Keys == old(sessions.Keys) + {id}
      ensures forall k :: k in old(sessions) ==> sessions[k] == old(sessions[k])
      ensures forall k :: StateOf(k) == old(StateOf(k))
      ensures pools == old(pools) && poolOrder == old(poolOrder) && defaultPoolId == old(defaultPoolId)
    {
      var s := GetOrCreateSession(sessionId, freshId);
      id := s.sessionId;
    }

    /** `load_pools_from_dict`: each entry of `data['pools']` (none when
        the key is missing) is decoded with `Pool.from_dict` and stored under
        its id, in order; after the last one the first key becomes the
        default when the default is falsy. An entry that does not decode
        raises: the pools stored before it stay, the default is not touched,
        and `ok` is false. Sessions are untouched. */
    method LoadPoolsFromDict(data: map<string, Value>) returns (ok: bool)
      requires Valid()
      modifies this
      ensures Valid()
      ensures ok <==> PoolEntries(data).Some? && AllDecode(DecodePool, PoolEntries(data).value)
      ensures PoolEntries(data).None? ==> Table() == old(Table())
      ensures PoolEntries(data).Some? ==> Table() == InsertAll(old(Table()), DecodedPrefix(DecodePool, PoolEntries(data).value))
      ensures ok ==> defaultPoolId == LoadedDefault(Table(), old(defaultPoolId))
      ensures !ok ==> defaultPoolId == old(defaultPoolId)
      ensures sessions == old(sessions)
    {
      var entries := PoolEntries(data);
      if entries.None? {
        return false;
      }
      var vs := entries.value;
      var i := 0;
      while i < |vs|
        invariant 0 <= i <= |vs|
        invariant AllDecode(DecodePool, vs[..i])
        invariant Table() == InsertAll(old(Table()), DecodedPrefix(DecodePool, vs[..i]))
        invariant sessions == old(sessions) && defaultPoolId == old(defaultPoolId)
      {
        var decoded := DecodePool(vs[i]);
        if decoded.None? {
          LoadStops(vs, i);
          LoadKeepsDefault(old(Table()), DecodedPrefix(DecodePool, vs), old(defaultPoolId));
          return false;
        }
        LoadGoesOn(old(Table()), vs, i);
        var p := decoded.value;
        if p.poolId !in pools {
          poolOrder := poolOrder + [p.poolId];
        }
        pools := pools[p.poolId := p];
        i := i + 1;
      }
      assert vs[..|vs|] == vs;
      ok := true;
      if pools != map[] && !Truthy(defaultPoolId) {
        defaultPoolId := Some(poolOrder[0]);
      }
      LoadKeepsDefault(old(Table()), DecodedPrefix(DecodePool, vs), old(defaultPoolId));
    }

    /** `clear_pools`: no pool and no default; sessions keep their state. */
    method ClearPools()
      requires Valid()
      modifies this
      ensures Valid()
      ensures pools == map[] && poolOrder == [] && defaultPoolId == None
      ensures sessions == old(sessions)
      ensures forall k :: k in sessions ==> StateOf(k) == old(StateOf(k))
    {
      pools := map[];
      poolOrder := [];
      defaultPoolId := None;
    }

    /** `get_current_pool`: the session's pool, if the table has it. */
    method GetCurrentPool(sessionId: string, freshId: string) returns (p: Option<Pool>)
      requires Valid()
      modifies this
      ensures Valid()
      ensures p == LookupPool(pools, StateOf(SessionKey(sessionId, freshId)).currentPoolId)
      ensures p.Some? ==> p.value in pools.Values && Some(p.value.poolId) == StateOf(SessionKey(sessionId, freshId)).currentPoolId
      ensures sessions.Keys == old(sessions.Keys) + {SessionKey(sessionId, freshId)}
      ensures forall k :: k in old(sessions) ==> sessions[k] == old(sessions[k])
      ensures forall k :: StateOf(k) == old(StateOf(k))
      ensures pools == old(pools) && poolOrder == old(poolOrder) && defaultPoolId == old(defaultPoolId)
    {
      var s := GetOrCreateSession(sessionId, freshId);
      p := LookupPool(pools, s.currentPoolId);
    }

    /** `get_all_pools`: the pools in key order. */
    function GetAllPools(): (r: seq<Pool>)
      requires Valid()
      reads this
      ensures |r| == |poolOrder|
      ensures forall i :: 0 <= i < |r| ==> r[i].poolId == poolOrder[i] && r[i] in pools.Values
      ensures forall p :: p in pools.Values ==> p in r
    {
      PoolsInOrder(Table())
    }

    /** `reset`: the session's counters cleared and the UP ids of its
        current pool seeded; no other session changes. */
    method Reset(sessionId: string, freshId: string)
      requires Valid()
      modifies this, sessions.Values
      ensures Valid()
      ensures StateOf(SessionKey(sessionId, freshId)) == ResetState(old(StateOf(SessionKey(sessionId, freshId))), pools)
      ensures forall k :: k != SessionKey(sessionId, freshId) ==> StateOf(k) == old(StateOf(k))
      ensures sessions.Keys == old(sessions.Keys) + {SessionKey(sessionId, freshId)}
      ensures forall k :: k in old(sessions) ==> sessions[k] == old(sessions[k])
      ensures SessionKey(sessionId, freshId) !in old(sessions) ==> fresh(sessions[SessionKey(sessionId, freshId)])
      ensures pools == old(pools) && poolOrder == old(poolOrder) && defaultPoolId == old(defaultPoolId)
    {
      var s := GetOrCreateSession(sessionId, freshId);
      var featured := SeedIds(pools, s.currentPoolId);
      s.Reset(featured);
      OthersUnchanged(s);
    }

    /** Changing the fields of one session object leaves the other keys'
        sessions alone: they are different objects, having different ids. */
    lemma OthersUnchanged(s: UserSession)
      requires forall k :: k in sessions ==> sessions[k].sessionId == k
      requires s.sessionId in sessions && sessions[s.sessionId] == s
      ensures forall k :: k in sessions && k != s.sessionId ==> sessions[k] != s
    {
    }

    /** `set_current_pool`. An unknown pool id fails before any session is
        looked up, so nothing changes. Otherwise the session looked up with
        the first key moves to the pool; with auto-reset and a different
        pool, the session looked up with the second key is reset (the same
        session whenever the caller passes an id). */
    method SetCurrentPool(poolId: string, sessionId: string, autoReset: bool, freshId: string, freshId2: string)
      returns (ok: bool)
      requires Valid()
      modifies this, sessions.Values
      ensures Valid()
      ensures ok <==> poolId in old(pools)
      ensures !ok ==> sessions == old(sessions) && forall k :: StateOf(k) == old(StateOf(k))
      ensures ok ==> StateOf(SessionKey(sessionId, freshId)).currentPoolId == Some(poolId)
      ensures ok && sessionId != "" ==>
                StateOf(sessionId) == SwitchPool(old(StateOf(sessionId)), pools, poolId, autoReset)
      ensures ok && sessionId != "" ==> forall k :: k != sessionId ==> StateOf(k) == old(StateOf(k))
      ensures forall k :: k in old(sessions) ==> k in sessions && sessions[k] == old(sessions[k])
      ensures forall k :: k in sessions && k !in old(sessions) ==> fresh(sessions[k])
      ensures pools == old(pools) && poolOrder == old(poolOrder) && defaultPoolId == old(defaultPoolId)
    {
      if poolId !in pools {
        return false;
      }
      var s := GetOrCreateSession(sessionId, freshId);
      OthersUnchanged(s);
      if autoReset && Some(poolId) != s.currentPoolId {
        s.currentPoolId := Some(poolId);
        Reset(sessionId, freshId2);
      } else {
        s.currentPoolId := Some(poolId);
      }
      ok := true;
    }

    /** `pull_single`: the rarity from the session's counter, a card of that
        rarity from the session's pool (or a placeholder), and the counter
        update; the new record is returned. No other session changes. */
    method PullSingle(sessionId: string, freshId: string, d: Draw) returns (rec: PullRecord)
      requires Valid()
      requires ValidDraw(d)
      modifies this, sessions.Values
      ensures Valid()
      ensures StateOf(SessionKey(sessionId, freshId)) == PullState(pools, old(StateOf(SessionKey(sessionId, freshId))), d)
      ensures rec == Last(StateOf(SessionKey(sessionId, freshId)).counters.stats.pullHistory)
      ensures forall k :: k != SessionKey(sessionId, freshId) ==> StateOf(k) == old(StateOf(k))
      ensures sessions.Keys == old(sessions.Keys) + {SessionKey(sessionId, freshId)}
      ensures forall k :: k in old(sessions) ==> sessions[k] == old(sessions[k])
      ensures SessionKey(sessionId, freshId) !in old(sessions) ==> fresh(sessions[SessionKey(sessionId, freshId)])
      ensures pools == old(pools) && poolOrder == old(poolOrder) && defaultPoolId == old(defaultPoolId)
    {
      var s := GetOrCreateSession(sessionId, freshId);
      OthersUnchanged(s);
      var tier := DetermineRarity(ServerTable, s.pityCounter, d.roll);
      var card := ServerCard(LookupPool(pools, s.currentPoolId), tier, d);
      rec := s.Record(tier, card);
    }

    /** `pull_multi`: `count` single pulls (none for a count below 1). With
        a session id, they all land on that session, and the records
        returned are exactly the ones they appended. */
    method PullMulti(count: int, sessionId: string, freshIds: seq<string>, draws: seq<Draw>)
      returns (recs: seq<PullRecord>)
      requires Valid()
      requires |draws| == Max(count, 0) && |freshIds| == |draws|
      requires forall i :: 0 <= i < |draws| ==> ValidDraw(draws[i])
      modifies this, sessions.Values
      ensures Valid()
      ensures |recs| == |draws|
      ensures sessionId != "" ==> StateOf(sessionId) == PullRun(pools, old(StateOf(sessionId)), draws)
      ensures sessionId != "" ==> recs == RunRecords(pools, old(StateOf(sessionId)), draws)
      ensures sessionId != "" ==> forall k :: k != sessionId ==> StateOf(k) == old(StateOf(k))
      ensures forall k :: k in old(sessions) ==> k in sessions && sessions[k] == old(sessions[k])
      ensures forall k :: k in sessions && k !in old(sessions) ==> fresh(sessions[k])
      ensures pools == old(pools) && poolOrder == old(poolOrder) && defaultPoolId == old(defaultPoolId)
    {
      recs := [];
      ghost var st := StateOf(sessionId);
      var i := 0;
      while i < |draws|
        invariant 0 <= i <= |draws|
        invariant Valid()
        invariant |recs| == i
        invariant pools == old(pools) && poolOrder == old(poolOrder) && defaultPoolId == old(defaultPoolId)
        invariant forall k :: k in old(sessions) ==> k in sessions && sessions[k] == old(sessions[k])
        invariant forall k :: k in sessions && k !in old(sessions) ==> fresh(sessions[k])
        invariant sessionId != "" ==> StateOf(sessionId) == PullRun(pools, st, draws[..i])
        invariant sessionId != "" ==> recs == RunRecords(pools, st, draws[..i])
        invariant sessionId != "" ==> forall k :: k != sessionId ==> StateOf(k) == old(StateOf(k))
      {
        ghost var before := StateOf(sessionId);
        var rec := PullSingle(sessionId, freshIds[i], draws[i]);
        recs := recs + [rec];
        if sessionId != "" {
          PullRunStep(pools, st, draws, i);
        }
        i := i + 1;
      }
      assert draws[..|draws|] == draws;
    }

    /** `get_statistics` for the session. */
    method GetStatistics(sessionId: string, freshId: string) returns (v: StatsView)
      requires Valid()
      modifies this
      ensures Valid()
      ensures v == ServerStatistics(StateOf(SessionKey(sessionId, freshId)).counters)
      ensures sessions.Keys == old(sessions.Keys) + {SessionKey(sessionId, freshId)}
      ensures forall k :: k in old(sessions) ==> sessions[k] == old(sessions[k])
      ensures forall k :: StateOf(k) == old(StateOf(k))
      ensures pools == old(pools) && poolOrder == old(poolOrder) && defaultPoolId == old(defaultPoolId)
    {
      var s := GetOrCreateSession(sessionId, freshId);
      v := ServerStatistics(Counters(s.pityCounter, s.stats));
    }

    /** `get_pull_history`; a limit of `None` is 0. */
    method GetPullHistory(limit: int, sessionId: string, freshId: string) returns (h: seq<PullRecord>)
      requires Valid()
      modifies this
      ensures Valid()
      ensures h == HistoryView(StateOf(SessionKey(sessionId, freshId)).counters.stats.pullHistory, limit)
      ensures sessions.Keys == old(sessions.Keys) + {SessionKey(sessionId, freshId)}
      ensures forall k :: k in old(sessions) ==> sessions[k] == old(sessions[k])
      ensures forall k :: StateOf(k) == old(StateOf(k))
      ensures pools == old(pools) && poolOrder == old(poolOrder) && defaultPoolId == old(defaultPoolId)
    {
      var s := GetOrCreateSession(sessionId, freshId);
      h := HistoryView(s.stats.pullHistory, limit);
    }

    /** `generate_export_data`: the history and pool of the session looked
        up first, the statistics of the session `get_statistics` looks up
        (the same one whenever the caller passes an id). */
    method GenerateExportData(sessionId: string, freshId: string, freshId2: string) returns (lines: seq<ExportLine>)
      requires Valid()
      modifies this
      ensures Valid()
      ensures var st := StateOf(SessionKey(sessionId, freshId));
              lines == Export(LookupPool(pools, st.currentPoolId), st.counters.stats.pullHistory,
                              ServerStatistics(StateOf(SessionKey(sessionId, freshId2)).counters))
      ensures sessions.Keys == old(sessions.Keys) + {SessionKey(sessionId, freshId), SessionKey(sessionId, freshId2)}
      ensures forall k :: k in old(sessions) ==> sessions[k] == old(sessions[k])
      ensures forall k :: StateOf(k) == old(StateOf(k))
      ensures pools == old(pools) && poolOrder == old(poolOrder) && defaultPoolId == old(defaultPoolId)
    {
      var s := GetOrCreateSession(sessionId, freshId);
      var pool := LookupPool(pools, s.currentPoolId);
      ghost var st := s.State();
      var v := GetStatistics(sessionId, freshId2);
      assert StateOf(SessionKey(sessionId, freshId)) == st;
      lines := BuildExport(pool, s.stats.pullHistory, v);
    }
  }

  /** `data.get('pools', [])`: a missing key is no entries; anything but a
      list is an error. */
  function PoolEntries(data: map<string, Value>): Option<seq<Value>>
  {
    if "pools" !in data then Some([])
    else if data["pools"].List? then Some(data["pools"].items)
    else None
  }

  /** `Pool.from_dict` on one entry, which must be a dict. */
  function DecodePool(v: Value): Option<Pool>
  {
    if v.Dict? then Pools.FromDict(v.fields) else None
  }

  /** The list form of a set of pools: each one's `to_dict`. */
  function PoolsToValues(ps: seq<Pool>): (vs: seq<Value>)
    ensures |vs| == |ps|
    ensures forall i :: 0 <= i < |ps| ==> vs[i] == Dict(Pools.ToDict(ps[i]))
  {
    if ps == [] then [] else [Dict(Pools.ToDict(ps[0]))] + PoolsToValues(ps[1..])
  }

  /** Loading the dict form of pools built by the constructors loads
      exactly those pools. */
  lemma LoadRoundTrip(ps: seq<Pool>)
    requires forall i :: 0 <= i < |ps| ==> ps[i].libraryId != ""
    requires forall i, j :: 0 <= i < |ps| && 0 <= j < |ps[i].cards| ==> ps[i].cards[j].imageUrl != ""
    ensures AllDecode(DecodePool, PoolsToValues(ps))
    ensures DecodedPrefix(DecodePool, PoolsToValues(ps)) == ps
  {
    var vs := PoolsToValues(ps);
    forall i | 0 <= i < |ps|
      ensures DecodePool(vs[i]) == Some(ps[i])
    {
      Pools.RoundTrip(ps[i]);
    }
  }

  /** Loading reaches an entry that does not decode: the load is over, and
      what it stored is what came before that entry. */
  lemma LoadStops(vs: seq<Value>, i: int)
    requires 0 <= i < |vs|
    requires AllDecode(DecodePool, vs[..i]) && DecodePool(vs[i]).None?
    ensures !AllDecode(DecodePool, vs)
    ensures DecodedPrefix(DecodePool, vs) == DecodedPrefix(DecodePool, vs[..i])
  {
    assert vs[..i] + vs[i..] == vs;
    assert vs[i..][0] == vs[i];
    DecodedPrefixAppend(DecodePool, vs[..i], vs[i..]);
  }

  /** Loading reaches an entry that decodes: it is stored next. */
  lemma LoadGoesOn(t: PoolTable, vs: seq<Value>, i: int)
    requires t.Valid()
    requires 0 <= i < |vs|
    requires AllDecode(DecodePool, vs[..i]) && DecodePool(vs[i]).Some?
    ensures AllDecode(DecodePool, vs[..i + 1])
    ensures InsertAll(t, DecodedPrefix(DecodePool, vs[..i + 1]))
            == Insert(InsertAll(t, DecodedPrefix(DecodePool, vs[..i])), DecodePool(vs[i]).value)
  {
    assert vs[..i + 1] == vs[..i] + [vs[i]];
    DecodedPrefixAppend(DecodePool, vs[..i], [vs[i]]);
    AllDecodeAppend(DecodePool, vs[..i], [vs[i]]);
    var front := DecodedPrefix(DecodePool, vs[..i]);
    var ps := front + [DecodePool(vs[i]).value];
    assert ps[..|ps| - 1] == front;
  }

  function FirstKey(order: seq<string>): Option<string>
  {
    if order == [] then None else Some(order[0])
  }

  predicate DefaultIsFirst(order: seq<string>, defaultPoolId: Option<string>)
  {
    defaultPoolId.None? || (order != [] && defaultPoolId.value == order[0])
  }

  /** The default pool after a load: the first key when the table is
      non-empty and the old default is falsy, the old default otherwise. */
  function LoadedDefault(t: PoolTable, defaultPoolId: Option<string>): (r: Option<string>)
    requires t.Valid()
    ensures r.Some? ==> r == defaultPoolId || r.value in t.pools
  {
    if t.pools != map[] && !Truthy(defaultPoolId) then
      assert t.order != [] by { var k :| k in t.pools; }
      Some(t.order[0])
    else defaultPoolId
  }

  /** The default pool stays the first key of the table: loading keeps the
      old keys in front, and an empty table gets the first loaded key. */
  lemma LoadKeepsDefault(t: PoolTable, ps: seq<Pool>, defaultPoolId: Option<string>)
    requires t.Valid()
    requires DefaultIsFirst(t.order, defaultPoolId)
    ensures LoadedDefault(InsertAll(t, ps), defaultPoolId) == FirstKey(InsertAll(t, ps).order)
    ensures DefaultIsFirst(InsertAll(t, ps).order, defaultPoolId)
  {
    InsertAllEffect(t, ps);
    var t' := InsertAll(t, ps);
    if t'.order != [] {
      assert t'.order[0] in t'.pools;
    }
  }

  /** The pools of a table in key order. */
  function PoolsInOrder(t: PoolTable): (r: seq<Pool>)
    requires t.Valid()
    ensures |r| == |t.order|
    ensures forall i :: 0 <= i < |r| ==> r[i] == t.pools[t.order[i]]
  {
    seq(|t.order|, i requires 0 <= i < |t.order| => t.pools[t.order[i]])
  }
}
