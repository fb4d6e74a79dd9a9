/** The per-session ledger both engines keep: the pity counter, the tier
    counters, the featured-SSR counters and the pull history
    (`UserSession.stats` in services/gacha.py, `sessionData` in
    static/js/local-gacha.js). `Count` is the counter update one pull makes;
    the invariants below are what every reachable ledger satisfies. */
module Ledger {
  import opened Base
  import opened Config
  import opened Cards
  import opened Pools
  import opened Rules

  /** One history entry: the running pull number, the card drawn and the
      pity counter after the pull. */
  datatype PullRecord = PullRecord(pullNumber: int, card: Card, pityCount: int)

  datatype Stats = Stats(
    totalPulls: int,
    ssrCount: int,
    srCount: int,
    rCount: int,
    featuredSsrCounts: map<string, int>,  // per UP-card id, only for seeded ids
    pullHistory: seq<PullRecord>)

  /** The pity counter together with the statistics it belongs to. */
  datatype Counters = Counters(pity: int, stats: Stats)

  /** The featured counters a fresh or reset session starts with: one zero
      per listed id. */
  function SeedCounts(ids: seq<string>): (m: map<string, int>)
    ensures forall k :: k in m <==> k in ids
    ensures forall k :: k in m ==> m[k] == 0
  {
    map k | k in ids :: 0
  }

  function EmptyStats(ids: seq<string>): Stats
  {
    Stats(0, 0, 0, 0, SeedCounts(ids), [])
  }

  /** The state a new or reset session starts from. */
  function Fresh(ids: seq<string>): Counters
  {
    Counters(0, EmptyStats(ids))
  }

  /** The loop that seeds the featured counters: every listed id at 0. */
  method SeedLoop(ids: seq<string>) returns (m: map<string, int>)
    ensures m == SeedCounts(ids)
  {
    m := map[];
    var i := 0;
    while i < |ids|
      invariant 0 <= i <= |ids|
      invariant m == SeedCounts(ids[..i])
    {
      assert ids[..i + 1] == ids[..i] + [ids[i]];
      m := m[ids[i] := 0];
      i := i + 1;
    }
    assert ids[..|ids|] == ids;
  }

  predicate IsSsr(rec: PullRecord)
  {
    rec.card.rarity == "SSR"
  }

  function OfRarity(rarity: string): PullRecord -> bool
  {
    (rec: PullRecord) => rec.card.rarity == rarity
  }

  /** The history records of one rarity, in order. */
  function RecordsOf(h: seq<PullRecord>, rarity: string): seq<PullRecord>
  {
    Filter(h, OfRarity(rarity))
  }

  /** The counter update of one pull (services/gacha.py `pull_single` after
      the card is chosen; `pullSingle` in the browser before the history cap):
      one more pull, one more of the drawn tier, the pity counter restarted
      by an SSR and raised by anything else, the featured counter of an SSR
      raised when its id is already tracked, and one record appended. */
  function Count(c: Counters, tier: Tier, card: Card): (n: Counters)
    ensures n.stats.totalPulls == c.stats.totalPulls + 1
    ensures n.stats.ssrCount == c.stats.ssrCount + (if tier == SSR then 1 else 0)
    ensures n.stats.srCount == c.stats.srCount + (if tier == SR then 1 else 0)
    ensures n.stats.rCount == c.stats.rCount + (if tier == R then 1 else 0)
    ensures n.pity == if tier == SSR then 0 else c.pity + 1
    ensures forall k :: k in n.stats.featuredSsrCounts <==> k in c.stats.featuredSsrCounts
    ensures forall k :: k in c.stats.featuredSsrCounts ==>
              n.stats.featuredSsrCounts[k] == c.stats.featuredSsrCounts[k] + (if tier == SSR && k == card.cardId then 1 else 0)
    ensures n.stats.pullHistory == c.stats.pullHistory + [PullRecord(n.stats.totalPulls, card, n.pity)]
  {
    var s := c.stats;
    var total := s.totalPulls + 1;
    var pity := if tier == SSR then 0 else c.pity + 1;
    var featured := if tier == SSR && card.cardId in s.featuredSsrCounts
                    then s.featuredSsrCounts[card.cardId := s.featuredSsrCounts[card.cardId] + 1]
                    else s.featuredSsrCounts;
    var stats := Stats(total,
                       s.ssrCount + (if tier == SSR then 1 else 0),
                       s.srCount + (if tier == SR then 1 else 0),
                       s.rCount + (if tier == R then 1 else 0),
                       featured,
                       s.pullHistory + [PullRecord(total, card, pity)]);
    Counters(pity, stats)
  }

  /** The browser's history cap: once the history is longer than `cap`, only
      its last `keep` records are kept. */
  function Trim(c: Counters, cap: int, keep: int): (n: Counters)
    requires keep > 0
    ensures n.pity == c.pity
    ensures n.stats == c.stats.(pullHistory := n.stats.pullHistory)
    ensures |c.stats.pullHistory| <= cap ==> n == c
    ensures |c.stats.pullHistory| > cap ==>
              n.stats.pullHistory == c.stats.pullHistory[|c.stats.pullHistory| - Min(keep, |c.stats.pullHistory|)..]
  {
    var h := c.stats.pullHistory;
    if |h| > cap then
      LastK(h, keep);
      Counters(c.pity, c.stats.(pullHistory := SliceFrom(h, -keep)))
    else c
  }

  /** What holds of every ledger, also after the browser has dropped old
      records: consistent counters, a pity counter that never reaches hard
      pity, consecutive pull numbers ending at the total, and a chain of pity
      values (0 at each SSR, one more than the previous record otherwise). */
  predicate WindowInv(t: RarityTable, c: Counters)
  {
    var s := c.stats;
    var h := s.pullHistory;
    && 0 <= s.ssrCount && 0 <= s.srCount && 0 <= s.rCount
    && s.ssrCount + s.srCount + s.rCount == s.totalPulls
    && 0 <= c.pity <= t.hardPity - 1
    && |h| <= s.totalPulls
    && (forall i :: 0 <= i < |h| ==> h[i].pullNumber == s.totalPulls - |h| + 1 + i)
    && (forall i :: 0 <= i < |h| ==> IsTierName(h[i].card.rarity))
    && (forall i :: 0 <= i < |h| ==> 0 <= h[i].pityCount <= t.hardPity - 1)
    && (forall i :: 0 <= i < |h| ==> (IsSsr(h[i]) <==> h[i].pityCount == 0))
    && (forall i :: 0 < i < |h| && !IsSsr(h[i]) ==> h[i].pityCount == h[i - 1].pityCount + 1)
    && (|h| > 0 ==> h[|h| - 1].pityCount == c.pity)
    && (forall k :: k in s.featuredSsrCounts ==> 0 <= s.featuredSsrCounts[k] <= s.ssrCount)
  }

  /** The server keeps the whole history: on top of `WindowInv`, one record
      per pull (so record i carries pull number i+1), a chain starting from a
      zero counter, and tier counters equal to the records of each rarity. */
  predicate Consistent(t: RarityTable, c: Counters)
  {
    var s := c.stats;
    var h := s.pullHistory;
    && WindowInv(t, c)
    && |h| == s.totalPulls
    && (|h| == 0 ==> c.pity == 0)
    && (|h| > 0 && !IsSsr(h[0]) ==> h[0].pityCount == 1)
    && |RecordsOf(h, "SSR")| == s.ssrCount
    && |RecordsOf(h, "SR")| == s.srCount
    && |RecordsOf(h, "R")| == s.rCount
  }

  /** A new or reset ledger is consistent, whatever ids it tracks. */
  lemma FreshConsistent(t: RarityTable, ids: seq<string>)
    requires t.hardPity >= 1
    ensures Consistent(t, Fresh(ids))
    ensures Fresh(ids).stats.pullHistory == [] && Fresh(ids).pity == 0
  {
  }

  lemma RecordsOfAppend(h: seq<PullRecord>, rec: PullRecord, rarity: string)
    ensures RecordsOf(h + [rec], rarity) == RecordsOf(h, rarity) + (if rec.card.rarity == rarity then [rec] else [])
  {
    FilterAppend(h, [rec], OfRarity(rarity));
    assert [rec][..0] == [];
  }

  /** A pull whose tier comes from `DetermineRarity` at the current counter
      and whose card carries that tier keeps `WindowInv`: in particular the
      counter stays below hard pity, because at hard pity minus one every
      roll draws an SSR. */
  lemma CountKeepsWindow(t: RarityTable, c: Counters, roll: real, card: Card)
    requires WindowInv(t, c)
    requires 0.0 <= roll < 1.0
    requires card.rarity == TierName(DetermineRarity(t, c.pity, roll))
    ensures WindowInv(t, Count(c, DetermineRarity(t, c.pity, roll), card))
  {
    var tier := DetermineRarity(t, c.pity, roll);
    if c.pity == t.hardPity - 1 {
      HardPityForcesSsr(t, c.pity, roll);
    }
    var n := Count(c, tier, card);
    var h := c.stats.pullHistory;
    var h' := n.stats.pullHistory;
    assert h' == h + [h'[|h|]];
    assert forall i :: 0 <= i < |h| ==> h'[i] == h[i];
    assert IsSsr(h'[|h|]) <==> tier == SSR;
  }

  /** The server's stronger invariant is kept by the same pulls. */
  lemma CountKeepsConsistent(t: RarityTable, c: Counters, roll: real, card: Card)
    requires Consistent(t, c)
    requires 0.0 <= roll < 1.0
    requires card.rarity == TierName(DetermineRarity(t, c.pity, roll))
    ensures Consistent(t, Count(c, DetermineRarity(t, c.pity, roll), card))
  {
    var tier := DetermineRarity(t, c.pity, roll);
    CountKeepsWindow(t, c, roll, card);
    var n := Count(c, tier, card);
    var h := c.stats.pullHistory;
    var rec := PullRecord(n.stats.totalPulls, card, n.pity);
    assert n.stats.pullHistory == h + [rec];
    RecordsOfAppend(h, rec, "SSR");
    RecordsOfAppend(h, rec, "SR");
    RecordsOfAppend(h, rec, "R");
  }

  /** Any non-empty suffix of the history keeps `WindowInv`. */
  lemma SuffixKeepsWindow(t: RarityTable, c: Counters, d: int)
    requires WindowInv(t, c)
    requires 0 <= d < |c.stats.pullHistory|
    ensures WindowInv(t, Counters(c.pity, c.stats.(pullHistory := c.stats.pullHistory[d..])))
  {
    var h := c.stats.pullHistory;
    var h' := h[d..];
    var total := c.stats.totalPulls;
    forall i | 0 <= i < |h'|
      ensures h'[i].pullNumber == total - |h'| + 1 + i
    {
      assert h'[i] == h[d + i];
    }
    forall i | 0 < i < |h'| && !IsSsr(h'[i])
      ensures h'[i].pityCount == h'[i - 1].pityCount + 1
    {
      assert h'[i] == h[d + i] && h'[i - 1] == h[d + i - 1];
    }
    assert h'[|h'| - 1] == h[|h| - 1];
  }

  /** Dropping old records keeps `WindowInv`: the numbers of the kept
      records still run up to the total. */
  lemma TrimKeepsWindow(t: RarityTable, c: Counters, cap: int, keep: int)
    requires WindowInv(t, c)
    requires keep > 0 && cap >= 0
    ensures WindowInv(t, Trim(c, cap, keep))
    ensures |c.stats.pullHistory| > cap ==> |Trim(c, cap, keep).stats.pullHistory| <= keep
  {
    var h := c.stats.pullHistory;
    if |h| > cap {
      SuffixKeepsWindow(t, c, |h| - Min(keep, |h|));
    }
  }

  lemma {:induction false} Climb(t: RarityTable, c: Counters, i: int, n: nat)
    requires WindowInv(t, c)
    requires 0 <= i && i + n < |c.stats.pullHistory|
    requires forall j :: i <= j <= i + n ==> !IsSsr(c.stats.pullHistory[j])
    ensures c.stats.pullHistory[i + n].pityCount >= n + 1
    decreases n
  {
    if n > 0 {
      Climb(t, c, i, n - 1);
    }
  }

  /** The pity guarantee read off the history: any `hardPity` consecutive
      records contain an SSR. */
  lemma {:induction false} SsrWithinHardPity(t: RarityTable, c: Counters, i: int)
    requires WindowInv(t, c)
    requires 0 <= i && i + t.hardPity <= |c.stats.pullHistory|
    ensures exists j :: i <= j < i + t.hardPity && IsSsr(c.stats.pullHistory[j])
  {
    var h := c.stats.pullHistory;
    if forall j :: i <= j < i + t.hardPity ==> !IsSsr(h[j]) {
      Climb(t, c, i, t.hardPity - 1);
      assert false;
    }
  }

  /** One server pull from the session's current pool. */
  function ServerStep(pool: Option<Pool>, c: Counters, d: Draw): (n: Counters)
    requires ValidDraw(d)
    ensures n.stats.totalPulls == c.stats.totalPulls + 1
    ensures |n.stats.pullHistory| == |c.stats.pullHistory| + 1
    ensures n.stats.pullHistory[..|c.stats.pullHistory|] == c.stats.pullHistory
    ensures n.stats.pullHistory[|c.stats.pullHistory|].card.rarity
              == TierName(DetermineRarity(ServerTable, c.pity, d.roll))
  {
    var tier := DetermineRarity(ServerTable, c.pity, d.roll);
    Count(c, tier, ServerCard(pool, tier, d))
  }

  lemma ServerStepKeepsConsistent(pool: Option<Pool>, c: Counters, d: Draw)
    requires Consistent(ServerTable, c)
    requires ValidDraw(d)
    ensures Consistent(ServerTable, ServerStep(pool, c, d))
  {
    var tier := DetermineRarity(ServerTable, c.pity, d.roll);
    CountKeepsConsistent(ServerTable, c, d.roll, ServerCard(pool, tier, d));
  }

  /** `pull_multi`: the single pulls one after the other, from the same pool. */
  function ServerRun(pool: Option<Pool>, c: Counters, draws: seq<Draw>): (n: Counters)
    requires forall i :: 0 <= i < |draws| ==> ValidDraw(draws[i])
    ensures n.stats.totalPulls == c.stats.totalPulls + |draws|
    ensures |n.stats.pullHistory| == |c.stats.pullHistory| + |draws|
    ensures n.stats.pullHistory[..|c.stats.pullHistory|] == c.stats.pullHistory
  {
    if draws == [] then c
    else
      var before := ServerRun(pool, c, draws[..|draws| - 1]);
      ServerStep(pool, before, draws[|draws| - 1])
  }

  /** Any number of server pulls keeps the session consistent. */
  lemma {:induction false} ServerRunKeepsConsistent(pool: Option<Pool>, c: Counters, draws: seq<Draw>)
    requires Consistent(ServerTable, c)
    requires forall i :: 0 <= i < |draws| ==> ValidDraw(draws[i])
    ensures Consistent(ServerTable, ServerRun(pool, c, draws))
  {
    if draws != [] {
      ServerRunKeepsConsistent(pool, c, draws[..|draws| - 1]);
      ServerStepKeepsConsistent(pool, ServerRun(pool, c, draws[..|draws| - 1]), draws[|draws| - 1]);
    }
  }

  /** A run of pulls appends one record per draw, numbered on from the old
      total. */
  lemma {:induction false} ServerRunNumbers(pool: Option<Pool>, c: Counters, draws: seq<Draw>)
    requires Consistent(ServerTable, c)
    requires forall i :: 0 <= i < |draws| ==> ValidDraw(draws[i])
    ensures var h := ServerRun(pool, c, draws).stats.pullHistory;
            forall j :: |c.stats.pullHistory| <= j < |h| ==>
              h[j].pullNumber == c.stats.totalPulls + (j - |c.stats.pullHistory|) + 1
  {
    ServerRunKeepsConsistent(pool, c, draws);
  }

  /** The browser's history cap on the single-pull path (`pullSingle`):
      past 1000 records, keep the last 500. */
  const SingleCap := 1000
  const SingleKeep := 500

  /** The cap on the batch path (`_pullSingleOptimized`): keep the last 1000. */
  const BatchCap := 1000
  const BatchKeep := 1000

  /** One browser pull, then the history cap. */
  function LocalStep(pool: Option<Pool>, c: Counters, d: Draw, cap: int, keep: int): (n: Counters)
    requires ValidDraw(d)
    requires keep > 0
    ensures n.stats.totalPulls == c.stats.totalPulls + 1
    ensures n.stats.pullHistory != []
    ensures n.stats.pullHistory[|n.stats.pullHistory| - 1]
              == PullRecord(n.stats.totalPulls, LocalCard(pool, DetermineRarity(LocalTable, c.pity, d.roll), d), n.pity)
  {
    var tier := DetermineRarity(LocalTable, c.pity, d.roll);
    Trim(Count(c, tier, LocalCard(pool, tier, d)), cap, keep)
  }

  /** The browser keeps `WindowInv` and never holds more than 1000 records,
      on either path. */
  lemma LocalStepKeepsWindow(pool: Option<Pool>, c: Counters, d: Draw, cap: int, keep: int)
    requires WindowInv(LocalTable, c) && |c.stats.pullHistory| <= 1000
    requires ValidDraw(d)
    requires (cap, keep) == (SingleCap, SingleKeep) || (cap, keep) == (BatchCap, BatchKeep)
    ensures WindowInv(LocalTable, LocalStep(pool, c, d, cap, keep))
    ensures |LocalStep(pool, c, d, cap, keep).stats.pullHistory| <= 1000
  {
    var tier := DetermineRarity(LocalTable, c.pity, d.roll);
    var card := LocalCard(pool, tier, d);
    CountKeepsWindow(LocalTable, c, d.roll, card);
    TrimKeepsWindow(LocalTable, Count(c, tier, card), cap, keep);
  }
}
