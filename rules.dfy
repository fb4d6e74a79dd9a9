/** The draw rules shared by the server (`GachaService._calculate_ssr_probability`,
    `_determine_rarity`, `_select_card`) and the browser engine
    (`_calculateSSRProbability`, `_determineRarity`, `_selectCard`), which
    implement them identically. Every random number is a parameter, so each
    property holds for every roll. */
module Rules {
  import opened Base
  import opened Config
  import opened Cards
  import opened Pools

  datatype Tier = SSR | SR | R

  function TierName(t: Tier): string
  {
    match t
    case SSR => "SSR"
    case SR => "SR"
    case R => "R"
  }

  predicate IsTierName(s: string)
  {
    s == "SSR" || s == "SR" || s == "R"
  }

  function RMin(a: real, b: real): real { if a <= b then a else b }

  /** The SSR probability for a pity counter (the number of pulls since the
      last SSR, before the pull about to be resolved). */
  function SsrProbability(t: RarityTable, pity: int): (p: real)
    ensures p <= 1.0
    ensures pity >= t.hardPity - 1 ==> p == 1.0
    ensures pity < t.softPity && pity < t.hardPity - 1 ==> p == RMin(t.ssrBase, 1.0)
  {
    var ramped := if pity >= t.softPity then t.ssrBase + (pity - t.softPity) as real * t.pityIncrease else t.ssrBase;
    var forced := if pity >= t.hardPity - 1 then 1.0 else ramped;
    RMin(forced, 1.0)
  }

  /** With the shipped tables: the base 2% below soft pity, a linear ramp of
      6% per pull from counter 74, and certainty from counter 89 on. */
  lemma SsrProbabilityShape(t: RarityTable, pity: int)
    requires t == ServerTable || t == LocalTable
    ensures pity < 74 ==> SsrProbability(t, pity) == 0.02
    ensures 74 <= pity < 89 ==> SsrProbability(t, pity) == 0.02 + (pity - 74) as real * 0.06
    ensures pity >= 89 ==> SsrProbability(t, pity) == 1.0
    ensures SsrProbability(t, 74) == 0.02
  {
    if 74 <= pity < 89 {
      assert (pity - 74) as real * 0.06 <= 14.0 * 0.06;
    }
  }

  /** With the shipped tables the probability never decreases as the
      counter grows. */
  lemma SsrProbabilityMonotone(t: RarityTable, c1: int, c2: int)
    requires t == ServerTable || t == LocalTable
    requires c1 <= c2
    ensures SsrProbability(t, c1) <= SsrProbability(t, c2)
  {
    SsrProbabilityShape(t, c1);
    SsrProbabilityShape(t, c2);
  }

  /** `_determine_rarity`: [0,1) is cut into three half-open intervals, SSR
      below the SSR probability, SR for the next `srBase`, R for the rest. */
  function DetermineRarity(t: RarityTable, pity: int, roll: real): (r: Tier)
    ensures r == SSR <==> roll < SsrProbability(t, pity)
    ensures r == SR <==> SsrProbability(t, pity) <= roll < SsrProbability(t, pity) + t.srBase
    ensures r == R <==> SsrProbability(t, pity) <= roll && SsrProbability(t, pity) + t.srBase <= roll
  {
    var ssr := SsrProbability(t, pity);
    if roll < ssr then SSR
    else if roll < ssr + t.srBase then SR
    else R
  }

  /** Once the counter reaches hard pity minus one, every roll in [0,1)
      draws an SSR. */
  lemma HardPityForcesSsr(t: RarityTable, pity: int, roll: real)
    requires pity >= t.hardPity - 1
    requires 0.0 <= roll < 1.0
    ensures DetermineRarity(t, pity, roll) == SSR
  {
  }

  /** The server and the browser draw the same rarity for the same counter
      and roll: the R probability they disagree on is never read. */
  lemma TablesDrawAlike(pity: int, roll: real)
    ensures DetermineRarity(ServerTable, pity, roll) == DetermineRarity(LocalTable, pity, roll)
  {
  }

  /** The random numbers one pull consumes: the rarity roll, the roll that
      decides whether to restrict an SSR to the UP cards, the index behind
      `random.choice` (any natural number, reduced modulo the number of
      candidates) and the four-digit suffix of a placeholder id. */
  datatype Draw = Draw(roll: real, featuredRoll: real, pick: nat, mockNumber: int)

  predicate ValidDraw(d: Draw)
  {
    0.0 <= d.roll < 1.0 && 0.0 <= d.featuredRoll < 1.0 && 1000 <= d.mockNumber <= 9999
  }

  function Choose<T>(xs: seq<T>, pick: nat): (x: T)
    requires xs != []
    ensures x in xs
  {
    xs[pick % |xs|]
  }

  /** `_select_card`: the pool's cards of the drawn rarity; for an SSR from a
      pool that lists UP ids, with probability one half only the cards flagged
      as featured (when there are any); otherwise any card of that rarity. */
  function SelectCard(pool: Option<Pool>, tier: Tier, featuredRoll: real, pick: nat): (r: Option<Card>)
    ensures r.None? <==> pool.None? || CardsByRarity(pool.value, TierName(tier)) == []
    ensures r.Some? ==> r.value in pool.value.cards && r.value.rarity == TierName(tier)
    ensures (r.Some? && tier == SSR && pool.value.featuredSsr != [] && featuredRoll < FeaturedRate
             && Filter(CardsByRarity(pool.value, "SSR"), (c: Card) => c.isFeatured) != [])
            ==> r.value.isFeatured
    ensures (r.Some? && (tier != SSR || pool.value.featuredSsr == [] || featuredRoll >= FeaturedRate))
            ==> r.value == Choose(CardsByRarity(pool.value, TierName(tier)), pick)
    ensures (r.Some? && tier == SSR && pool.value.featuredSsr != [] && featuredRoll < FeaturedRate
             && Filter(CardsByRarity(pool.value, "SSR"), (c: Card) => c.isFeatured) == [])
            ==> r.value == Choose(CardsByRarity(pool.value, "SSR"), pick)
  {
    if pool.None? then None
    else
      var cards := CardsByRarity(pool.value, TierName(tier));
      if cards == [] then None
      else if tier == SSR && pool.value.featuredSsr != [] && featuredRoll < FeaturedRate then
        var featured := Filter(cards, (c: Card) => c.isFeatured);
        if featured != [] then Some(Choose(featured, pick)) else Some(Choose(cards, pick))
      else Some(Choose(cards, pick))
  }

  /** No card of the drawn rarity is available exactly when the pool is
      missing or has no card carrying that rarity. */
  lemma SelectCardMissing(pool: Option<Pool>, tier: Tier, featuredRoll: real, pick: nat)
    ensures SelectCard(pool, tier, featuredRoll, pick).None? <==>
              pool.None? || forall i :: 0 <= i < |pool.value.cards| ==> pool.value.cards[i].rarity != TierName(tier)
  {
    if pool.Some? {
      var cards := CardsByRarity(pool.value, TierName(tier));
      if cards != [] {
        assert cards[0] in pool.value.cards;
      }
    }
  }

  function MockId(tier: Tier, n: nat): string
  {
    "MOCK_" + TierName(tier) + "_" + DecimalString(n)
  }

  function MockName(tier: Tier): string
  {
    "模拟" + TierName(tier) + "卡牌"
  }

  /** The server's stand-in when no card of the rarity exists: a `Card`
      built with the default pool id, flag and image. */
  function ServerPlaceholder(tier: Tier, n: nat): (c: Card)
    ensures c.rarity == TierName(tier) && !c.isFeatured && c.poolId.None?
    ensures c.cardId == MockId(tier, n) && c.imageUrl == DefaultImageUrl(c.cardId)
  {
    NewCard(MockId(tier, n), MockName(tier), TierName(tier), None, false, None)
  }

  /** The browser's stand-in: the same id and name, no image (`null`, here
      the empty string) and no pool id. */
  function LocalPlaceholder(tier: Tier, n: nat): (c: Card)
    ensures c.rarity == TierName(tier) && !c.isFeatured && c.imageUrl == ""
    ensures c.cardId == MockId(tier, n)
  {
    Card(MockId(tier, n), MockName(tier), TierName(tier), None, false, "")
  }

  /** The card a server pull hands out: the selected card, or the
      placeholder. Either way it carries the drawn rarity. */
  function ServerCard(pool: Option<Pool>, tier: Tier, d: Draw): (c: Card)
    requires ValidDraw(d)
    ensures c.rarity == TierName(tier)
    ensures pool.Some? && CardsByRarity(pool.value, TierName(tier)) != [] ==> c in pool.value.cards
  {
    var picked := SelectCard(pool, tier, d.featuredRoll, d.pick);
    if picked.Some? then picked.value else ServerPlaceholder(tier, d.mockNumber)
  }

  /** The card a browser pull hands out. */
  function LocalCard(pool: Option<Pool>, tier: Tier, d: Draw): (c: Card)
    requires ValidDraw(d)
    ensures c.rarity == TierName(tier)
    ensures pool.Some? && CardsByRarity(pool.value, TierName(tier)) != [] ==> c in pool.value.cards
  {
    var picked := SelectCard(pool, tier, d.featuredRoll, d.pick);
    if picked.Some? then picked.value else LocalPlaceholder(tier, d.mockNumber)
  }
}
