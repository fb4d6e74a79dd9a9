# Gacha pull simulator — a Dafny model of its core

The repository is a card-pull ("gacha") simulator. A pull draws a rarity
tier (SSR, SR or R). The SSR probability rises past a soft pity count, and
an SSR is certain at the hard pity pull. A card of that rarity is then
taken from the current pool. For an SSR from a pool with UP (featured)
cards, it is an UP card half of the time. When the pool has no card of the
rarity, a `MOCK_<rarity>_<n>` placeholder stands in. Every pull updates a
ledger: pity counter, total and per-tier counts, UP-card counts and the
pull history.

The pull logic exists twice. The Flask service (`services/gacha.py`) keeps
one session per user and a shared pool table. The browser engine
(`static/js/local-gacha.js`) keeps one session, caps its history and pulls
in large batches. Around them sit:

- the card and pool records (`models/card.py`, `models/pool.py`);
- the statistics and export report;
- the tally of the API client (`services/gacha_client.py`).

The model is laid out as follows:

- `base.dfy` (`Base`): an optional value, dict values, comprehension
  filters, Python/JavaScript slicing and decimal formatting.
- `config.dfy` (`Config`): the rarity tables of the server and the browser.
- `card.dfy` (`Cards`) and `pool.dfy` (`Pools`): the records, their
  constructor defaults and filters, and their dict round trips. The pool
  table is a dict with its insertion order.
- `rules.dfy` (`Rules`): the SSR probability, the rarity draw, card
  selection and placeholders. Randomness is a `Draw` parameter: the rarity
  roll, the UP roll, the choice index and the placeholder number.
- `ledger.dfy` (`Ledger`): one pull's counter update and the history caps,
  with the invariants they keep. The server keeps the full history and the
  browser a capped window.
- `report.dfy` (`Report`): the statistics dicts and the export report, as
  structured lines.
- `gacha.dfy` (`Gacha`): `UserSession` and `GachaService` as classes. The
  service's sessions are a map of session objects.
- `local_gacha.dfy` (`LocalGacha`): `LocalGachaService` as a class. Its
  session data are fields.
- `gacha_client.dfy` (`Client`): the client's display dict, response
  defaults, headers and local tally.

Numbers are unbounded integers and exact reals. The source's integers do not
overflow here (Python), or stay far below 2^53 (JavaScript).

The browser's `loadPoolsData` checks `!this.currentPoolId` before it looks
at the restored session, so on a page's first load the first pool replaces
the one saved in the session (`LoadedPoolId`).

## Model

| member | source | states |
|---|---|---|
| Base.Filter | models/pool.py:35 | a comprehension keeps exactly the accepted elements: each kept element is accepted and from the list, and each accepted element is kept |
| Base.FilterAppend | models/pool.py:35 | filtering keeps relative order: the filter of a concatenation is the concatenation of the filters |
| Base.FilterCount | models/pool.py:35 | filtering keeps every accepted element exactly as often as it occurs and drops the others |
| Base.DecodedPrefixAppend | services/gacha.py:141-143 | once a run of entries decodes, decoding more entries only extends the decoded list |
| Base.DecimalRoundTrip | services/gacha.py:366 | supporting fact about the formatter that spells placeholder ids: the decimal digits of the number read back to it, so different numbers give different ids |
| Config.TablesAgree | config.py:44-48 | fact about the shipped constants: both rarity tables are well formed, and they agree on everything but the R base probability (0.90 against 0.88) |
| Cards.NewCard | models/card.py:4-22 | fields are stored as given; a missing or empty image url becomes `/static/images/cards/<id>.png`, so the url is never empty |
| Cards.ToDict | models/card.py:24-33 | exactly the six keys; a missing pool id is written as null |
| Cards.FromDict | models/card.py:35-45 | a decoded card has an image url; a missing flag is false and a missing id the empty string |
| Cards.RoundTrip | models/card.py:24-45 | decoding the dict form of a card with an image url gives the card back |
| Cards.FromDictDefaults | models/card.py:43-44 | without flag and image the card is not featured and gets the default image of its id |
| Pools.NewPool | models/pool.py:10-31 | missing cards and UP ids become empty lists; a missing or empty library id becomes `LIB_<pool id>`, so it is never empty |
| Pools.CardsByRarity | models/pool.py:33-35 | exactly the pool's cards of that rarity |
| Pools.FeaturedCards | models/pool.py:37-39 | exactly the pool's cards flagged as featured |
| Pools.CardsByRarityKeepsOrder | models/pool.py:33-35 | the cards of a rarity keep pool order and their multiplicity |
| Pools.ToDict | models/pool.py:41-51 | exactly the seven keys, one dict per card and one string per UP id |
| Pools.FromDict | models/pool.py:53-65 | a decoded pool has a library id; a missing description, card list or UP list is empty |
| Pools.RoundTrip | models/pool.py:41-65 | decoding the dict form of a pool gives the pool back |
| Pools.Insert | services/gacha.py:143 | `pools[id] = pool` keeps the table keyed by pool id with its keys once each, in order |
| Pools.InsertAll | services/gacha.py:141-143 | inserting a list of pools keeps the table well formed |
| Pools.InsertAllEffect | services/gacha.py:141-143 | after the inserts, the keys are the old ones plus the listed ids. An unlisted id keeps its pool, the last listed pool is stored under its id, and the old key order is a prefix of the new one |
| Pools.InsertAllStores | services/gacha.py:141-143 | every listed id is a key and holds the last pool listed with that id |
| Rules.SsrProbability | services/gacha.py:294-309 | never above 1; exactly 1 from the pull before hard pity; the base rate below soft pity |
| Rules.SsrProbabilityShape | services/gacha.py:294-309 | for the shipped tables: 0.02 below 74, 0.02 + (c-74)·0.06 from 74 to 88, 1 from 89 |
| Rules.SsrProbabilityMonotone | services/gacha.py:300-309 | with the shipped tables the SSR probability never decreases as the counter grows |
| Rules.DetermineRarity | services/gacha.py:311-324 | SSR exactly when the roll is below the SSR probability, SR exactly when it falls in the next SR-wide band, R otherwise |
| Rules.HardPityForcesSsr | services/gacha.py:306-307 | from the pull before hard pity, every roll in [0, 1) draws SSR |
| Rules.TablesDrawAlike | static/js/local-gacha.js:205-217 | the browser draws the same rarity as the server for every counter and roll |
| Rules.Choose | services/gacha.py:346 | `random.choice` returns an element of the list |
| Rules.SelectCard | services/gacha.py:326-346 | none exactly when the pool is missing or lacks the rarity. Otherwise a pool card of that rarity. In the UP branch, a featured card when there is one, and the plain pick among all SSR cards when none is flagged; outside it, the plain pick among all cards of the rarity |
| Rules.SelectCardMissing | services/gacha.py:330-337 | no card exactly when the pool is missing or no card of it carries the rarity |
| Rules.ServerPlaceholder | services/gacha.py:363-369 | the placeholder carries the drawn rarity and the `MOCK_` id; it is not featured, has no pool and has the default image |
| Rules.LocalPlaceholder | static/js/local-gacha.js:256-265 | the browser placeholder carries the drawn rarity and the `MOCK_` id; it is not featured and has no image |
| Rules.ServerCard | services/gacha.py:361-369 | the pulled card carries the drawn rarity and comes from the pool whenever the pool has that rarity |
| Rules.LocalCard | static/js/local-gacha.js:254-265 | the same for the browser pull |
| Ledger.SeedCounts | services/gacha.py:32-34 | the UP map has exactly the listed ids as keys, all at 0 |
| Ledger.SeedLoop | services/gacha.py:32-34 | the seeding loop builds that map |
| Ledger.Count | services/gacha.py:372-394 | the total rises by 1 and exactly the drawn tier's count by 1. Pity goes to 0 on SSR and up by 1 otherwise. Only an existing UP key of the SSR card rises and no key is added. One record (new total, card, new pity) is appended |
| Ledger.Trim | static/js/local-gacha.js:294-296 | the history cap changes only the history; past the cap only its last `keep` records remain |
| Ledger.FreshConsistent | services/gacha.py:19-34 | a new session's ledger satisfies the server invariant |
| Ledger.CountKeepsWindow | static/js/local-gacha.js:268-291 | a pull keeps the browser invariant: tier counts sum to the total, 0 ≤ pity ≤ 89, records numbered consecutively up to the total, pity 0 exactly on SSR and +1 otherwise |
| Ledger.CountKeepsConsistent | services/gacha.py:372-394 | a pull keeps the server invariant: the same, plus history length = total and record i has number i+1 |
| Ledger.SuffixKeepsWindow | static/js/local-gacha.js:294-296 | keeping a suffix of the history keeps the browser invariant |
| Ledger.TrimKeepsWindow | static/js/local-gacha.js:393-396 | the history cap keeps the browser invariant and leaves at most `keep` records when it cuts |
| Ledger.Climb | services/gacha.py:372-377 | n+1 records in a row without SSR end with a pity count of at least n+1 |
| Ledger.SsrWithinHardPity | services/gacha.py:306-307 | any 90 consecutive history records contain an SSR |
| Ledger.ServerStep | services/gacha.py:348-396 | a server pull raises the total by 1, appends one record and keeps the earlier ones; the record carries the drawn rarity |
| Ledger.ServerStepKeepsConsistent | services/gacha.py:348-396 | a server pull keeps the server invariant |
| Ledger.ServerRun | services/gacha.py:398-409 | n pulls raise the total by n and append n records after the unchanged old ones |
| Ledger.ServerRunKeepsConsistent | services/gacha.py:398-409 | any run of pulls keeps the server invariant |
| Ledger.ServerRunNumbers | services/gacha.py:389-394 | after any run from a consistent ledger, record i has number i+1 |
| Ledger.LocalStep | static/js/local-gacha.js:351-399 | a browser pull raises the total by 1 and its record, numbered with the new total, is the last one kept |
| Ledger.LocalStepKeepsWindow | static/js/local-gacha.js:245-304 | both browser pulls keep the browser invariant and at most 1000 records |
| Report.ServerStatistics | services/gacha.py:411-444 | with no pulls: zero counts and rates, an empty UP map and the pity counter. Otherwise the counts and the UP map as stored, and each tier's rate times the total equals its count times 100 |
| Report.LocalStatistics | static/js/local-gacha.js:404-439 | with no pulls: zero counts and rates, the UP map as stored and the pity counter. Otherwise the counts, the UP map and each tier's rate times the total equal to its count times 100 |
| Report.StatisticsAgree | static/js/local-gacha.js:408-422 | the two engines' statistics differ only in the UP map before the first pull |
| Report.ZeroBranchExact | services/gacha.py:421-432 | on a valid ledger with no pulls the zero counts are the stored counts |
| Report.ThreeShares | services/gacha.py:439-441 | three counts making up the total have shares adding up to 100 |
| Report.ShareBound | services/gacha.py:439-441 | a part of the total has a share in [0, 100] |
| Report.RatesSumToHundred | services/gacha.py:434-444 | after a pull the three tier rates lie in [0, 100] and add up to 100 |
| Report.HistoryLines | services/gacha.py:476-482 | the card list has one line per record plus one blank line per ten records |
| Report.LineOfRecord | services/gacha.py:476-482 | record i is line i + i/10, and a blank line follows every tenth record |
| Report.HistoryLinesShape | services/gacha.py:476-482 | the same for all records at once |
| Report.TallyAdd | services/gacha.py:489-496 | a tally step keeps the key list free of repeats, matches the dict and counts every key at least once |
| Report.TallyOf | services/gacha.py:489-496 | the tally of a history is well formed |
| Report.TallyAddCounts | services/gacha.py:494-496 | a tally step adds 1 to the tally's total exactly for a record of the rarity |
| Report.TallyCountsRecords | services/gacha.py:489-496 | a tier's per-card counts add up to the number of its records |
| Report.TallyMatchesCounter | services/gacha.py:489-530 | on a consistent ledger the per-card counts of each tier add up to that tier's counter |
| Report.ShareLines | services/gacha.py:498-500 | one share line per tallied card |
| Report.SharesScale | services/gacha.py:498-500 | the per-card shares add up to the share of the tallied total |
| Report.CardSharesSumToHundred | services/gacha.py:498-500 | the per-card shares of a tier that occurs add up to 100 |
| Report.AppendHistory | services/gacha.py:477-482 | the list loop appends exactly the card-list lines |
| Report.Tabulate | services/gacha.py:489-496 | the tally loop computes the tally of the tier's records |
| Report.AppendShares | services/gacha.py:498-500 | the share loop appends exactly the share lines |
| Report.BuildTier | services/gacha.py:484-500 | one tier's section: its rate line and its card shares |
| Report.BuildExport | services/gacha.py:459-536 | the export is the header, the card list and the three tier sections |
| Gacha.SeedIds | services/gacha.py:549-551 | the UP ids seeded for a session: those of its pool when the id is set and known, else none |
| Gacha.ResetState | services/gacha.py:538-552 | reset keeps the pool, zeroes pity, counts and history, and seeds exactly the pool's UP ids |
| Gacha.SwitchPool | services/gacha.py:264-282 | the pool becomes the given one; with auto reset and a different pool the ledger is reset, otherwise it is kept |
| Gacha.SwitchPoolSeeds | services/gacha.py:276-278 | switching with auto reset tracks exactly the new pool's UP ids, at 0 |
| Gacha.PullState | services/gacha.py:348-396 | a pull keeps the session's pool |
| Gacha.NewSessionOk | services/gacha.py:19-34 | a new session satisfies the server invariant |
| Gacha.ResetOk | services/gacha.py:36-49 | a reset session satisfies it |
| Gacha.SwitchPoolOk | services/gacha.py:264-282 | switching pools keeps it |
| Gacha.PullStateOk | services/gacha.py:348-396 | a pull keeps it |
| Gacha.PullRun | services/gacha.py:398-409 | n pulls keep the pool and append n records |
| Gacha.RunRecords | services/gacha.py:405-409 | `pull_multi` returns one record per pull |
| Gacha.PullRunStep | services/gacha.py:407-408 | a run of i+1 pulls is the run of i pulls followed by one pull, and its records gain that pull's record |
| Gacha.HistoryViewLast | services/gacha.py:446-457 | a positive limit yields the last `limit` records, no limit all of them |
| Gacha.StateFromDict | services/gacha.py:60-73 | restoring fails exactly without a session id; a missing counter is 0 and missing stats are empty |
| Gacha.DictRoundTrip | services/gacha.py:51-73 | restoring the dict form of a session gives its id and state back |
| Gacha.UserSession.constructor | services/gacha.py:19-34 | a new session has the default pool and a fresh ledger seeded with the UP ids |
| Gacha.UserSession.Reset | services/gacha.py:36-49 | the ledger becomes fresh and seeded; the pool is kept |
| Gacha.UserSession.FromDict | services/gacha.py:60-73 | a new session object with the restored id and state, or failure exactly where the restore fails |
| Gacha.UserSession.Record | services/gacha.py:372-394 | the statement-by-statement update equals `Count`, and the returned record is the last one |
| Gacha.GachaService.constructor | services/gacha.py:79-98 | no pools, no default pool, no sessions |
| Gacha.GachaService.GetOrCreateSession | services/gacha.py:100-117 | the key (given id or fresh id) is now in the map. Existing sessions and all states are kept; a new key gets a new object |
| Gacha.GachaService.GetSessionId | services/gacha.py:119-122 | returns the given non-empty id, or the fresh one, now a session key; no session's state, no existing session object and no pool changes |
| Gacha.GachaService.LoadPoolsFromDict | services/gacha.py:133-147 | success exactly when every entry decodes. The decoded prefix is inserted even on failure, and the default becomes the first key only on success and only when unset |
| Gacha.GachaService.ClearPools | services/gacha.py:258-262 | no pools and no default; sessions untouched |
| Gacha.GachaService.GetCurrentPool | services/gacha.py:284-287 | the pool stored under the session's pool id, if any |
| Gacha.GachaService.GetAllPools | services/gacha.py:289-292 | every pool once, in key order |
| Gacha.GachaService.Reset | services/gacha.py:538-552 | that session's state becomes `ResetState`; every other session is unchanged |
| Gacha.GachaService.SetCurrentPool | services/gacha.py:264-282 | succeeds exactly for a known pool; on failure nothing changes; on success the session has that pool and its state is `SwitchPool` of the old |
| Gacha.GachaService.PullSingle | services/gacha.py:348-396 | the session's state becomes `PullState` of the old one, the returned record is its last, and other sessions are unchanged |
| Gacha.GachaService.PullMulti | services/gacha.py:398-409 | one record per pull; the session's state is the run of all pulls and the records are the run's records |
| Gacha.GachaService.GetStatistics | services/gacha.py:411-444 | the server statistics of the session's ledger; no state changes |
| Gacha.GachaService.GetPullHistory | services/gacha.py:446-457 | the history view for the limit; no state changes |
| Gacha.GachaService.GenerateExportData | services/gacha.py:459-536 | the export of the session's pool, history and statistics. Only the two looked-up keys are added; no session's state, no existing session object and no pool changes |
| Gacha.LoadRoundTrip | services/gacha.py:141-143 | the dict forms of a list of pools all decode, back to the list |
| Gacha.LoadStops | services/gacha.py:141-143 | the first entry that fails to decode ends the load with what came before it |
| Gacha.LoadGoesOn | services/gacha.py:141-143 | an entry that decodes is inserted after the earlier ones |
| Gacha.LoadedDefault | services/gacha.py:145-147 | the default after a load is the old one or a key of the table |
| Gacha.LoadKeepsDefault | services/gacha.py:145-147 | a default that is unset or the first key stays that way across loads |
| Gacha.PoolsToValues | services/gacha.py:141-142 | the pool list as dict entries, one per pool |
| Gacha.PoolsInOrder | services/gacha.py:289-292 | the pools in key order, one per key |
| LocalGacha.ParsePool | static/js/local-gacha.js:112-128 | the parsed pool keeps id and UP ids and each card except its pool id |
| LocalGacha.ParseAll | static/js/local-gacha.js:84-87 | one parsed pool per fetched pool |
| LocalGacha.LoadedPoolIdCases | static/js/local-gacha.js:90-95 | a set pool id is kept; an unset one becomes the first key when there are pools |
| LocalGacha.SeedMissingEffect | static/js/local-gacha.js:133-142 | the UP map gains exactly the missing ids at 0 and keeps every existing count |
| LocalGacha.SeedMissingIdempotent | static/js/local-gacha.js:133-142 | seeding twice is seeding once, and seeding an empty map is the server's fresh seeding |
| LocalGacha.SeedMissingOk | static/js/local-gacha.js:133-142 | seeding keeps the browser invariant |
| LocalGacha.FreshOk | static/js/local-gacha.js:48-61 | a new session satisfies the browser invariant |
| LocalGacha.LocalSwitch | static/js/local-gacha.js:161-179 | the pool becomes the given one |
| LocalGacha.LocalSwitchAgrees | static/js/local-gacha.js:161-179 | for a non-empty id it is the server's switch, and it keeps the browser invariant |
| LocalGacha.StepsAgree | static/js/local-gacha.js:351-399 | a browser pull and a server pull agree on pity and every counter, and differ only in the history cap |
| LocalGacha.LocalRun | static/js/local-gacha.js:327-333 | n batch pulls raise the total by n |
| LocalGacha.LocalRunRecords | static/js/local-gacha.js:327-333 | one record per batch pull |
| LocalGacha.LocalRunStep | static/js/local-gacha.js:327-333 | a batch of i+1 pulls is the batch of i followed by one pull |
| LocalGacha.LocalRunOk | static/js/local-gacha.js:327-333 | any batch keeps the browser invariant |
| LocalGacha.LocalRunLast | static/js/local-gacha.js:385-390 | the last record of a batch carries the old total plus the batch size |
| LocalGacha.LocalRunNumbers | static/js/local-gacha.js:385-390 | the records of a batch are numbered on from the old total, one by one |
| LocalGacha.ReturnedLast | static/js/local-gacha.js:330-332 | with a non-negative limit the last `returnLimit` records are returned (all when fewer) |
| LocalGacha.WindowStep | static/js/local-gacha.js:330-332 | a record joins the results exactly when its index reaches `count - returnLimit` |
| LocalGacha.BatchAdvance | static/js/local-gacha.js:327-333 | one loop round advances the batch by one pull and the results window by at most one record |
| LocalGacha.DefaultReturnWindow | static/js/local-gacha.js:311-345 | with the default `returnLimit = 100` a batch returns its last 100 records, and the whole batch for the default `count = 10` |
| LocalGacha.DefaultHistory | static/js/local-gacha.js:444-450 | with the default `limit = 50` the history view is the last 50 records, as the server returns them |
| LocalGacha.HistoryTail | static/js/local-gacha.js:444-450 | `slice(-limit)`: the last `limit` records for a positive limit, all for 0, the records after the first `-limit` for a negative one |
| LocalGacha.HistoryAgrees | static/js/local-gacha.js:444-450 | for every limit that is not negative, the same records as the server |
| LocalGacha.LocalGachaService.constructor | static/js/local-gacha.js:23-28 | no pools, no pool id, nothing loaded, a fresh ledger |
| LocalGacha.LocalGachaService.CurrentPool | static/js/local-gacha.js:154-156 | the pool under the id's JavaScript key, or none |
| LocalGacha.LocalGachaService.GetAllPools | static/js/local-gacha.js:147-149 | every pool once, in key order |
| LocalGacha.LocalGachaService.LoadPoolsData | static/js/local-gacha.js:73-107 | success exactly when data arrived, and nothing changes on failure. Otherwise the table is replaced by the parsed pools, the pool id chosen as the code does, missing UP ids seeded and the data marked loaded |
| LocalGacha.LocalGachaService.ReplacePools | static/js/local-gacha.js:84-87 | the table becomes the parsed pools inserted in order |
| LocalGacha.LocalGachaService.SelectLoadedPool | static/js/local-gacha.js:90-95 | the pool id after loading, kept in the session |
| LocalGacha.LocalGachaService.InitFeaturedSsrCounts | static/js/local-gacha.js:133-142 | the UP map gains the current pool's missing ids at 0 |
| LocalGacha.LocalGachaService.SetCurrentPool | static/js/local-gacha.js:161-179 | fails exactly for an unknown id and changes nothing then; otherwise returns the pool and the session becomes `LocalSwitch` of the old |
| LocalGacha.LocalGachaService.Reset | static/js/local-gacha.js:489-510 | a fresh ledger seeded with the current pool's UP ids; pool and table kept |
| LocalGacha.LocalGachaService.Tally | static/js/local-gacha.js:268-291 | the statement-by-statement update equals `Count`; the record is the last one |
| LocalGacha.LocalGachaService.Cap | static/js/local-gacha.js:294-296 | the cap equals `Trim` |
| LocalGacha.LocalGachaService.PullSingle | static/js/local-gacha.js:245-304 | before loading it fails and changes nothing; afterwards the ledger becomes `LocalStep` with cap 1000/500 and the new record is returned |
| LocalGacha.LocalGachaService.PullSingleOptimized | static/js/local-gacha.js:351-399 | the ledger becomes `LocalStep` with cap 1000/1000 and the new record is returned |
| LocalGacha.LocalGachaService.PullMulti | static/js/local-gacha.js:311-346 | before loading it fails and changes nothing. Afterwards the count is clamped to [1, 10000], the ledger is the batch run and the results are the batch records from index `count - returnLimit`, with the clamped count and their number |
| LocalGacha.LocalGachaService.RunBatch | static/js/local-gacha.js:327-333 | the loop leaves the ledger as the batch run and collects exactly the batch records from index `count - returnLimit`; nothing else changes |
| LocalGacha.LocalGachaService.BatchStep | static/js/local-gacha.js:327-333 | one loop round keeps the loop invariant |
| LocalGacha.LocalGachaService.GetStatistics | static/js/local-gacha.js:404-439 | the browser statistics of the ledger |
| LocalGacha.LocalGachaService.GetHistory | static/js/local-gacha.js:444-450 | `HistoryTail` of the history |
| Client.ColorsDistinguishRarities | services/gacha_client.py:57 | fact about the colour table: two rarities share a colour exactly when they are the same known rarity or both unknown |
| Client.ToDisplayDict | services/gacha_client.py:48-58 | the five fields copied and the colour of the rarity (#FFD700, #9B59B6, #3498DB, else #666) |
| Client.DisplayRoundTrip | services/gacha_client.py:48-58 | the card can be read back from its display dict, whose colour matches its rarity |
| Client.PullResult.constructor | services/gacha_client.py:61-76 | missing cards become [] and missing extra data {}; the rest as given |
| Client.DefaultServerUrlTrimmed | services/gacha_client.py:17 | the default address `SERVER_URL` has no trailing slash, so trimming keeps it |
| Client.TrimSlashes | services/gacha_client.py:110 | `rstrip('/')`: a prefix without a trailing slash, only slashes removed |
| Client.TrimSlashesIdempotent | services/gacha_client.py:110 | trimming twice is trimming once |
| Client.TrimSlashesIgnoresTrailing | services/gacha_client.py:110 | appending slashes to an address does not change the stored address |
| Client.Slashes | services/gacha_client.py:110 | k slash characters |
| Client.CountWhere | services/gacha_client.py:319-328 | a count never exceeds the number of cards |
| Client.CountsPartition | services/gacha_client.py:319-328 | every card counts as exactly one of SSR, SR and R |
| Client.Tallied | services/gacha_client.py:319-328 | the total rises by the number of cards and each tier by its cards, any other rarity counting as R |
| Client.TalliedKeepsBalance | services/gacha_client.py:119-124 | from a balanced tally (such as the zero one) the counts stay non-negative and sum to the total |
| Client.TalliedAppend | services/gacha_client.py:319-328 | counting two lists one after the other is counting their concatenation |
| Client.WithRates | services/gacha_client.py:330-346 | counts copied; all rates 0 ("0.00%") for no pulls, else each count's share of the total |
| Client.LocalRatesSumToHundred | services/gacha_client.py:337-346 | after counting cards from zero, the three rates lie in [0, 100] and add up to 100 |
| Client.GachaClient.constructor | services/gacha_client.py:96-124 | the address without trailing slashes, the settings as given, a zero tally |
| Client.GachaClient.WithDefaults | services/gacha_client.py:96-124 | with the default arguments, the address is `SERVER_URL`, the format is Protobuf and the tally is zero |
| Client.GachaClient.BuildHeaders | services/gacha_client.py:132-147 | Content-Type and Accept both name protobuf or JSON according to the flag; Authorization `Bearer <token>` exactly when the token is set and non-empty; nothing else |
| Client.GachaClient.UpdateLocalStats | services/gacha_client.py:319-328 | the loop leaves the tally `Tallied` from the old one; the other fields are unchanged |
| Client.GachaClient.GetLocalStats | services/gacha_client.py:330-346 | `WithRates` of the tally |
| Client.GachaClient.ResetLocalStats | services/gacha_client.py:348-355 | all four counters back to 0; the other fields are unchanged |

## Left out

- Network, file and storage I/O are not modelled: `_load_pools_from_local`, `load_pools_from_api`, `load_pools_from_proto`, `update_pool_from_proto`, `fetch`, `localStorage` (`_loadSession`, `_saveSession`), `requests`, and the client's `pull_single`/`pull_multi`/`_pull_multi_json`/`_pull_multi_proto`/`_get_session`. A load is modelled by its successful result, a list of pools or a dict.
- `refreshData` is not modelled as an operation. It calls `_initFeaturedSSRCounts` a second time after `loadPoolsData`; `SeedMissingIdempotent` shows the repeat is harmless.
- `getExportData` (the browser's text report) is not modelled; the server's export is.
- `cleanup_expired_sessions` does nothing in the source and is not modelled.
- Thread locks are not modelled, and the service is taken as sequential.
- Randomness (`random.random`, `random.choice`, `random.randint`, `Math.random`, `uuid4`) becomes parameters: a `Draw` per pull and a fresh id per session lookup.
- Floating point is not modelled. Probabilities and rates are exact reals, and the `%.2f` / `toFixed(2)` strings are not produced. A rate of 0.0 stands for the literal "0.00%".
- Report.BuildExport: the report is a list of structured lines, not one joined string.
- Python `None` in a text field of a card or pool dict is read as "". A present `"is_featured": None` is read as false, where `data.get('is_featured', False)` keeps `None` and `to_dict` writes it back as null. A value of the wrong type makes decoding fail (the source would store it or raise later). A non-list `pools` value is a failed load.
- Gacha.GachaService.PullMulti: the per-session contract holds only for a non-empty session id. With a falsy id the source mints a new session at each pull, and the model states only the record count and that other sessions are kept.
- Gacha.GachaService.SetCurrentPool: with a falsy session id, the reset it triggers finds yet another new session. The contract states the new pool id for the first lookup and the exact new state only for a non-empty id.
- Default arguments are not defaults of the modelled members: `GachaService.PullMulti`, both `SetCurrentPool`s, `LocalGachaService.PullMulti`, `GetHistory` and the `PullResult` constructor take every argument explicitly. The defaults are named constants: `Gacha.DefaultMultiCount` (10), `Gacha.DefaultAutoReset` (true), `LocalGacha.DefaultCount` (10), `LocalGacha.DefaultReturnLimit` (100) and `LocalGacha.DefaultHistoryLimit` (50). `DefaultReturnWindow` and `DefaultHistory` state what calls with the defaults return, and `GachaClient.WithDefaults` is the client built with its defaults. `PullResult`'s defaults (`error_code = 0`, `error_msg = ""`, `pity_count = 0`) are not modelled; its constructor takes them as arguments.
- Rules.SsrProbabilityMonotone: stated for the two tables the program ships, not for an arbitrary table.
- Gacha.GachaService.PullSingle: the server invariant is proved of the state values by `PullStateOk`, not kept as a class invariant of the heap.
- LocalGacha.LocalGachaService.PullMulti: the browser invariant is proved of the ledger values by `LocalRunOk` and `LocalStepKeepsWindow`, not kept as a class invariant.
- LocalGacha.LocalGachaService.SetCurrentPool: JavaScript's `in` also matches inherited keys such as `toString`; the model's `in` sees only pool ids.
- LocalGacha.LocalGachaService.GetAllPools: `Object.keys` lists integer-like keys first; the model keeps plain insertion order.
- LocalGacha.LocalGachaService.LoadPoolsData: an exception inside the parse loop is not modelled; a failed fetch or parse is the `None` input.
- LocalGacha.LocalGachaService.LoadPoolsData: the class keeps the session's pool id equal to the current pool id, because the constructor's session restore from `localStorage` is left out. So the class never reaches the branch of `LoadedPoolId` where the two differ; only the function `LoadedPoolId` and its lemma `LoadedPoolIdCases` cover that branch.
- Client.GachaClient.UpdateLocalStats: the four-key `local_stats` dict is a record of four counters, since no code adds or removes keys.
- The request and response objects of the client beyond `PullResult`, and its `ERROR_CODES`/`API_PATHS` tables, are not modelled.
