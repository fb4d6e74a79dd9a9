/** Statistics and the export report, aggregated from a session's ledger
    (`get_statistics` and `generate_export_data` in services/gacha.py,
    `getStatistics` in static/js/local-gacha.js). Percentages are exact
    reals; the two-decimal text the source prints from them is not modelled,
    and the report is a sequence of structured lines rather than one string. */
module Report {
  import opened Base
  import opened Cards
  import opened Pools
  import opened Rules
  import opened Ledger

  /** The statistics dict. A rate of 0.0 stands for the literal "0.00%". */
  datatype StatsView = StatsView(
    totalPulls: int,
    ssrCount: int,
    srCount: int,
    rCount: int,
    ssrRate: real,
    srRate: real,
    rRate: real,
    featuredSsrCounts: map<string, int>,
    pityCounter: int)

  /** `count / total * 100`. */
  function Rate(count: int, total: int): real
    requires total != 0
  {
    count as real / total as real * 100.0
  }

  /** The figures of a ledger with at least one pull: its counters, and
      each tier's rate, the tier's share of the total in percent. */
  predicate Shares(v: StatsView, s: Stats)
  {
    && v.totalPulls == s.totalPulls
    && v.ssrCount == s.ssrCount && v.srCount == s.srCount && v.rCount == s.rCount
    && v.ssrRate * s.totalPulls as real == s.ssrCount as real * 100.0
    && v.srRate * s.totalPulls as real == s.srCount as real * 100.0
    && v.rRate * s.totalPulls as real == s.rCount as real * 100.0
  }

  /** `get_statistics`: with no pulls yet, zero counts and rates and an
      empty featured map, whatever ids are seeded; otherwise the counters,
      their shares of the total, and the featured map as stored. */
  function ServerStatistics(c: Counters): (v: StatsView)
    ensures v.pityCounter == c.pity
    ensures c.stats.totalPulls == 0 ==> v == StatsView(0, 0, 0, 0, 0.0, 0.0, 0.0, map[], c.pity)
    ensures c.stats.totalPulls != 0 ==> Shares(v, c.stats) && v.featuredSsrCounts == c.stats.featuredSsrCounts
  {
    var s := c.stats;
    if s.totalPulls == 0 then StatsView(0, 0, 0, 0, 0.0, 0.0, 0.0, map[], c.pity)
    else StatsView(s.totalPulls, s.ssrCount, s.srCount, s.rCount,
                   Rate(s.ssrCount, s.totalPulls), Rate(s.srCount, s.totalPulls), Rate(s.rCount, s.totalPulls),
                   s.featuredSsrCounts, c.pity)
  }

  /** `getStatistics`: the same figures, except that with no pulls yet the
      seeded featured map is returned as it is. */
  function LocalStatistics(c: Counters): (v: StatsView)
    ensures v.featuredSsrCounts == c.stats.featuredSsrCounts
    ensures v.pityCounter == c.pity
    ensures c.stats.totalPulls == 0 ==> v == StatsView(0, 0, 0, 0, 0.0, 0.0, 0.0, c.stats.featuredSsrCounts, c.pity)
    ensures c.stats.totalPulls != 0 ==> Shares(v, c.stats)
  {
    var s := c.stats;
    if s.totalPulls == 0 then StatsView(0, 0, 0, 0, 0.0, 0.0, 0.0, s.featuredSsrCounts, c.pity)
    else StatsView(s.totalPulls, s.ssrCount, s.srCount, s.rCount,
                   Rate(s.ssrCount, s.totalPulls), Rate(s.srCount, s.totalPulls), Rate(s.rCount, s.totalPulls),
                   s.featuredSsrCounts, c.pity)
  }

  /** The two engines report the same statistics except for the featured
      map before the first pull, which only the browser returns. */
  lemma StatisticsAgree(c: Counters)
    ensures LocalStatistics(c) == ServerStatistics(c).(featuredSsrCounts := c.stats.featuredSsrCounts)
    ensures c.stats.totalPulls != 0 ==> LocalStatistics(c) == ServerStatistics(c)
  {
  }

  /** On any reachable ledger the zero branch loses nothing but the
      featured map: the counters it reports as 0 are 0. */
  lemma ZeroBranchExact(t: Config.RarityTable, c: Counters)
    requires WindowInv(t, c)
    requires c.stats.totalPulls == 0
    ensures ServerStatistics(c).ssrCount == c.stats.ssrCount
    ensures ServerStatistics(c).srCount == c.stats.srCount
    ensures ServerStatistics(c).rCount == c.stats.rCount
  {
  }

  /** Three counters that make up the total have shares adding up to 100. */
  lemma ThreeShares(a: int, b: int, c: int, total: int)
    requires total > 0 && a + b + c == total
    ensures Rate(a, total) + Rate(b, total) + Rate(c, total) == 100.0
  {
    var n := total as real;
    var x, y, z := a as real / n, b as real / n, c as real / n;
    calc {
      (x + y + z) * n;
      x * n + y * n + z * n;
      a as real + b as real + c as real;
      n;
    }
    assert (x + y + z - 1.0) * n == 0.0;
  }

  /** A part of the total has a share between 0 and 100. */
  lemma ShareBound(a: int, total: int)
    requires 0 <= a <= total && total > 0
    ensures 0.0 <= Rate(a, total) <= 100.0
  {
    var x := a as real / total as real;
    assert x * total as real == a as real;
  }

  /** After at least one pull the three tier rates lie in [0, 100] and add
      up to exactly 100. */
  lemma RatesSumToHundred(t: Config.RarityTable, c: Counters)
    requires WindowInv(t, c)
    requires c.stats.totalPulls > 0
    ensures var v := ServerStatistics(c);
            v.ssrRate + v.srRate + v.rRate == 100.0
    ensures var v := ServerStatistics(c);
            0.0 <= v.ssrRate <= 100.0 && 0.0 <= v.srRate <= 100.0 && 0.0 <= v.rRate <= 100.0
  {
    var s := c.stats;
    ThreeShares(s.ssrCount, s.srCount, s.rCount, s.totalPulls);
    ShareBound(s.ssrCount, s.totalPulls);
    ShareBound(s.srCount, s.totalPulls);
    ShareBound(s.rCount, s.totalPulls);
  }

  /** One line of the export text. */
  datatype ExportLine =
    | Title                                       // the report title
    | Library(libraryId: Option<string>)          // the pool's library id, or N/A
    | Blank
    | ListHeading                                 // heading of the card list
    | Entry(pullNumber: int, cardId: string, rarity: string, name: string)
    | RatioHeading                                // heading of the tier shares
    | TierShare(tier: Tier, rate: real)           // a tier's share of all pulls
    | CardShare(cardId: string, name: string, count: int, rate: real)  // a card's share of its tier

  function EntryOf(rec: PullRecord): ExportLine
  {
    Entry(rec.pullNumber, rec.card.cardId, rec.card.rarity, rec.card.name)
  }

  /** The card list: one line per record, and a blank line after every
      tenth. */
  function HistoryLines(h: seq<PullRecord>): (r: seq<ExportLine>)
    ensures |r| == |h| + |h| / 10
  {
    if h == [] then []
    else HistoryLines(h[..|h| - 1]) + [EntryOf(h[|h| - 1])] + (if |h| % 10 == 0 then [Blank] else [])
  }

  lemma LinePositions(i: int, m: int)
    requires 0 <= i < m
    ensures i + i / 10 < m + m / 10
    ensures (i + 1) % 10 == 0 ==> i + i / 10 + 1 < m + m / 10
  {
  }

  lemma {:induction false} LineOfRecord(h: seq<PullRecord>, i: int)
    requires 0 <= i < |h|
    ensures HistoryLines(h)[i + i / 10] == EntryOf(h[i])
    ensures (i + 1) % 10 == 0 ==> i + i / 10 + 1 < |HistoryLines(h)| && HistoryLines(h)[i + i / 10 + 1] == Blank
  {
    if i < |h| - 1 {
      LineOfRecord(h[..|h| - 1], i);
      LinePositions(i, |h| - 1);
    }
  }

  /** Record i is line i + i/10 of the list, and a blank line follows every
      tenth record. */
  lemma HistoryLinesShape(h: seq<PullRecord>)
    ensures forall i {:trigger h[i]} :: 0 <= i < |h| ==> HistoryLines(h)[i + i / 10] == EntryOf(h[i])
    ensures forall i {:trigger h[i]} :: 0 <= i < |h| && (i + 1) % 10 == 0 ==>
              i + i / 10 + 1 < |HistoryLines(h)| && HistoryLines(h)[i + i / 10 + 1] == Blank
  {
    forall i | 0 <= i < |h|
      ensures HistoryLines(h)[i + i / 10] == EntryOf(h[i])
      ensures (i + 1) % 10 == 0 ==> i + i / 10 + 1 < |HistoryLines(h)| && HistoryLines(h)[i + i / 10 + 1] == Blank
    {
      LineOfRecord(h, i);
    }
  }

  /** A card's tally in the share lists: the id and name it was first seen
      with, and how often its key occurred. */
  datatype CardTally = CardTally(cardId: string, name: string, count: int)

  /** The tally dict of one tier: keys in first-occurrence order. */
  datatype Tally = Tally(keys: seq<string>, info: map<string, CardTally>)
  {
    /** The key list is the dict's key set, without repetitions, and every
        tallied key has been seen at least once. */
    ghost predicate Valid()
    {
      && (forall k :: k in info <==> k in keys)
      && (forall i, j :: 0 <= i < j < |keys| ==> keys[i] != keys[j])
      && (forall k :: k in info ==> info[k].count >= 1)
    }
  }

  function TallyKey(card: Card): string
  {
    card.cardId + "_" + card.name
  }

  /** One iteration of the tally loop: a record of the rarity bumps its
      key, which is first created with the record's id and name. */
  function TallyAdd(t: Tally, rec: PullRecord, rarity: string): (r: Tally)
    requires t.Valid()
    ensures r.Valid()
  {
    if rec.card.rarity != rarity then t
    else
      var key := TallyKey(rec.card);
      if key in t.info then Tally(t.keys, t.info[key := t.info[key].(count := t.info[key].count + 1)])
      else Tally(t.keys + [key], t.info[key := CardTally(rec.card.cardId, rec.card.name, 1)])
  }

  /** The tally of the records of one rarity, keyed by id and name. */
  function TallyOf(h: seq<PullRecord>, rarity: string): (t: Tally)
    ensures t.Valid()
  {
    if h == [] then Tally([], map[])
    else TallyAdd(TallyOf(h[..|h| - 1], rarity), h[|h| - 1], rarity)
  }

  /** The sum of the counts of the listed keys. */
  function SumCounts(keys: seq<string>, info: map<string, CardTally>): int
    requires forall i :: 0 <= i < |keys| ==> keys[i] in info
  {
    if keys == [] then 0
    else SumCounts(keys[..|keys| - 1], info) + info[keys[|keys| - 1]].count
  }

  function Total(t: Tally): int
    requires t.Valid()
  {
    SumCounts(t.keys, t.info)
  }

  lemma {:induction false} SumCountsFrame(keys: seq<string>, info: map<string, CardTally>, key: string, e: CardTally)
    requires forall i :: 0 <= i < |keys| ==> keys[i] in info
    requires key !in keys
    ensures SumCounts(keys, info[key := e]) == SumCounts(keys, info)
  {
    if keys != [] {
      SumCountsFrame(keys[..|keys| - 1], info, key, e);
    }
  }

  lemma {:induction false} SumCountsBump(keys: seq<string>, info: map<string, CardTally>, key: string)
    requires forall i :: 0 <= i < |keys| ==> keys[i] in info
    requires forall i, j :: 0 <= i < j < |keys| ==> keys[i] != keys[j]
    requires key in keys
    ensures SumCounts(keys, info[key := info[key].(count := info[key].count + 1)]) == SumCounts(keys, info) + 1
  {
    var last := keys[|keys| - 1];
    var front := keys[..|keys| - 1];
    var bumped := info[key := info[key].(count := info[key].count + 1)];
    if last == key {
      assert key !in front;
      SumCountsFrame(front, info, key, bumped[key]);
    } else {
      assert key in front;
      SumCountsBump(front, info, key);
    }
  }

  /** One loop iteration adds one to the tally exactly when the record has
      the rarity. */
  lemma TallyAddCounts(t: Tally, rec: PullRecord, rarity: string)
    requires t.Valid()
    ensures Total(TallyAdd(t, rec, rarity)) == Total(t) + (if rec.card.rarity == rarity then 1 else 0)
  {
    if rec.card.rarity == rarity {
      var key := TallyKey(rec.card);
      if key in t.info {
        SumCountsBump(t.keys, t.info, key);
      } else {
        var e := CardTally(rec.card.cardId, rec.card.name, 1);
        SumCountsFrame(t.keys, t.info, key, e);
        var keys' := t.keys + [key];
        assert keys'[..|keys'| - 1] == t.keys;
      }
    }
  }

  /** Every record of the rarity is counted once: the counts of a tier's
      tally add up to the number of its records. */
  lemma {:induction false} TallyCountsRecords(h: seq<PullRecord>, rarity: string)
    ensures Total(TallyOf(h, rarity)) == |RecordsOf(h, rarity)|
  {
    if h != [] {
      var front := h[..|h| - 1];
      var rec := h[|h| - 1];
      TallyCountsRecords(front, rarity);
      assert h == front + [rec];
      RecordsOfAppend(front, rec, rarity);
      TallyAddCounts(TallyOf(front, rarity), rec, rarity);
    }
  }

  /** On a consistent ledger the tally of each tier adds up to that tier's
      counter. */
  lemma TallyMatchesCounter(c: Counters)
    requires Consistent(Config.ServerTable, c)
    ensures Total(TallyOf(c.stats.pullHistory, "SSR")) == c.stats.ssrCount
    ensures Total(TallyOf(c.stats.pullHistory, "SR")) == c.stats.srCount
    ensures Total(TallyOf(c.stats.pullHistory, "R")) == c.stats.rCount
  {
    TallyCountsRecords(c.stats.pullHistory, "SSR");
    TallyCountsRecords(c.stats.pullHistory, "SR");
    TallyCountsRecords(c.stats.pullHistory, "R");
  }

  /** The share lines of one tier: one per tallied key, in first-occurrence
      order, with its share of the tier counter (0 when the counter is 0). */
  function ShareLines(keys: seq<string>, info: map<string, CardTally>, tierCount: int): (r: seq<ExportLine>)
    requires forall i :: 0 <= i < |keys| ==> keys[i] in info
    ensures |r| == |keys|
  {
    if keys == [] then []
    else
      var e := info[keys[|keys| - 1]];
      ShareLines(keys[..|keys| - 1], info, tierCount)
        + [CardShare(e.cardId, e.name, e.count, if tierCount > 0 then Rate(e.count, tierCount) else 0.0)]
  }

  function SumShares(lines: seq<ExportLine>): real
  {
    if lines == [] then 0.0
    else SumShares(lines[..|lines| - 1]) + (if lines[|lines| - 1].CardShare? then lines[|lines| - 1].rate else 0.0)
  }

  lemma RateAdd(a: int, b: int, n: int)
    requires n > 0
    ensures Rate(a, n) + Rate(b, n) == Rate(a + b, n)
  {
    var x, y, m := a as real / n as real, b as real / n as real, n as real;
    calc {
      (x + y) * m;
      x * m + y * m;
      (a + b) as real;
    }
  }

  lemma RateWhole(n: int)
    requires n > 0
    ensures Rate(n, n) == 100.0
  {
    var m := n as real;
    assert m / m == 1.0;
  }

  lemma {:induction false} SharesScale(keys: seq<string>, info: map<string, CardTally>, tierCount: int)
    requires forall i :: 0 <= i < |keys| ==> keys[i] in info
    requires tierCount > 0
    ensures SumShares(ShareLines(keys, info, tierCount)) == Rate(SumCounts(keys, info), tierCount)
  {
    if keys != [] {
      var front := keys[..|keys| - 1];
      SharesScale(front, info, tierCount);
      var lines := ShareLines(keys, info, tierCount);
      assert lines[..|lines| - 1] == ShareLines(front, info, tierCount);
      RateAdd(SumCounts(front, info), info[keys[|keys| - 1]].count, tierCount);
    }
  }

  /** The counter of a tier in the statistics. */
  function TierCount(v: StatsView, tier: Tier): int
  {
    match tier
    case SSR => v.ssrCount
    case SR => v.srCount
    case R => v.rCount
  }

  /** The per-card shares of a tier that occurs on a consistent ledger add
      up to 100. */
  lemma CardSharesSumToHundred(c: Counters, tier: Tier)
    requires Consistent(Config.ServerTable, c)
    requires |RecordsOf(c.stats.pullHistory, TierName(tier))| > 0
    ensures var t := TallyOf(c.stats.pullHistory, TierName(tier));
            SumShares(ShareLines(t.keys, t.info, TierCount(ServerStatistics(c), tier))) == 100.0
  {
    var h := c.stats.pullHistory;
    var t := TallyOf(h, TierName(tier));
    var n := TierCount(ServerStatistics(c), tier);
    assert c.stats.totalPulls > 0 by {
      assert |RecordsOf(h, TierName(tier))| <= |h|;
    }
    assert n == |RecordsOf(h, TierName(tier))| by {
      match tier
      case SSR =>
      case SR =>
      case R =>
    }
    TallyCountsRecords(h, TierName(tier));
    SharesScale(t.keys, t.info, n);
    RateWhole(n);
  }

  /** A tier's share of all pulls followed by the shares of its cards. */
  function TierLines(h: seq<PullRecord>, tier: Tier, rate: real, tierCount: int): seq<ExportLine>
  {
    var t := TallyOf(h, TierName(tier));
    [TierShare(tier, rate)] + ShareLines(t.keys, t.info, tierCount)
  }

  function Header(pool: Option<Pool>): seq<ExportLine>
  {
    [Title, Library(if pool.Some? then Some(pool.value.libraryId) else None), Blank, ListHeading]
  }

  function Summary(h: seq<PullRecord>, v: StatsView): seq<ExportLine>
  {
    [Blank, RatioHeading] + TierLines(h, SSR, v.ssrRate, v.ssrCount)
    + [Blank] + TierLines(h, SR, v.srRate, v.srCount)
    + [Blank] + TierLines(h, R, v.rRate, v.rCount)
  }

  /** `generate_export_data`: a header with the library id of the session's
      pool, the card list, then per tier its share of all pulls followed by
      the shares of its cards. */
  function Export(pool: Option<Pool>, h: seq<PullRecord>, v: StatsView): seq<ExportLine>
  {
    Header(pool) + HistoryLines(h) + Summary(h, v)
  }

  /** The card-list loop of `generate_export_data`. */
  method AppendHistory(lines: seq<ExportLine>, h: seq<PullRecord>) returns (out: seq<ExportLine>)
    ensures out == lines + HistoryLines(h)
  {
    out := lines;
    var i := 0;
    while i < |h|
      invariant 0 <= i <= |h|
      invariant out == lines + HistoryLines(h[..i])
    {
      assert h[..i + 1][..i] == h[..i];
      out := out + [EntryOf(h[i])];
      if (i + 1) % 10 == 0 {
        out := out + [Blank];
      }
      i := i + 1;
    }
    assert h[..|h|] == h;
  }

  /** The dict-building loop over the history for one tier. */
  method Tabulate(h: seq<PullRecord>, rarity: string) returns (t: Tally)
    ensures t == TallyOf(h, rarity)
  {
    var keys: seq<string> := [];
    var info: map<string, CardTally> := map[];
    var i := 0;
    while i < |h|
      invariant 0 <= i <= |h|
      invariant Tally(keys, info) == TallyOf(h[..i], rarity)
    {
      assert h[..i + 1][..i] == h[..i];
      var rec := h[i];
      if rec.card.rarity == rarity {
        var key := TallyKey(rec.card);
        var entry := if key in info then info[key] else CardTally(rec.card.cardId, rec.card.name, 0);
        if key !in info {
          keys := keys + [key];
        }
        info := info[key := entry.(count := entry.count + 1)];
      }
      i := i + 1;
    }
    assert h[..|h|] == h;
    t := Tally(keys, info);
  }

  /** The loop printing one tier's share lines. */
  method AppendShares(lines: seq<ExportLine>, t: Tally, tierCount: int) returns (out: seq<ExportLine>)
    requires forall k :: k in t.keys ==> k in t.info
    ensures out == lines + ShareLines(t.keys, t.info, tierCount)
  {
    out := lines;
    var i := 0;
    while i < |t.keys|
      invariant 0 <= i <= |t.keys|
      invariant out == lines + ShareLines(t.keys[..i], t.info, tierCount)
    {
      assert t.keys[..i + 1][..i] == t.keys[..i];
      var e := t.info[t.keys[i]];
      var rate := if tierCount > 0 then Rate(e.count, tierCount) else 0.0;
      out := out + [CardShare(e.cardId, e.name, e.count, rate)];
      i := i + 1;
    }
    assert t.keys[..|t.keys|] == t.keys;
  }

  /** One tier's block of the ratio section. */
  method BuildTier(h: seq<PullRecord>, tier: Tier, rate: real, tierCount: int) returns (out: seq<ExportLine>)
    ensures out == TierLines(h, tier, rate, tierCount)
  {
    var t := Tabulate(h, TierName(tier));
    out := AppendShares([TierShare(tier, rate)], t, tierCount);
  }

  /** The body of `generate_export_data`, line by line. */
  method BuildExport(pool: Option<Pool>, h: seq<PullRecord>, v: StatsView) returns (lines: seq<ExportLine>)
    ensures lines == Export(pool, h, v)
  {
    lines := AppendHistory(Header(pool), h);
    var ssr := BuildTier(h, SSR, v.ssrRate, v.ssrCount);
    var sr := BuildTier(h, SR, v.srRate, v.srCount);
    var r := BuildTier(h, R, v.rRate, v.rCount);
    lines := lines + ([Blank, RatioHeading] + ssr + [Blank] + sr + [Blank] + r);
  }
}
