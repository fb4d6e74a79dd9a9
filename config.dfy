/** The draw configuration: base probability of each rarity tier and the pity
    rule. The server reads it from `CARD_RARITY`/`PITY_CONFIG`, the browser
    engine carries its own copy in `LOCAL_CONFIG`; the two differ only in the
    base probability of the R tier, which no rule reads. Probabilities are
    exact reals rather than IEEE doubles. */
module Config {

  datatype RarityTable = RarityTable(
    ssrBase: real,       // base SSR probability
    srBase: real,        // SR probability (never pity-adjusted)
    rBase: real,         // R probability (informational only)
    softPity: int,       // counter value from which the SSR probability ramps up
    hardPity: int,       // the pull at which an SSR is guaranteed
    pityIncrease: real)  // extra SSR probability per pull past soft pity
  {
    /** What the pity rule needs of a table: a ramp that does not go down
        and a hard-pity pull that exists. */
    predicate WellFormed() {
      pityIncrease >= 0.0 && hardPity >= 1
    }
  }

  /** `CARD_RARITY` and `PITY_CONFIG` of the server. */
  const ServerTable := RarityTable(0.02, 0.10, 0.90, 74, 90, 0.06)

  /** `LOCAL_CONFIG` of the browser engine. */
  const LocalTable := RarityTable(0.02, 0.10, 0.88, 74, 90, 0.06)

  /** The UP-card share of the browser engine (`FEATURED_RATE`); the server
      writes the same 0.5 inline. */
  const FeaturedRate := 0.5

  /** Both shipped tables satisfy what the pity rule needs, and they agree on
      every field except the R base probability. */
  lemma TablesAgree()
    ensures ServerTable.WellFormed() && LocalTable.WellFormed()
    ensures ServerTable.(rBase := 0.0) == LocalTable.(rBase := 0.0)
    ensures ServerTable.rBase != LocalTable.rBase
  {
  }
}
