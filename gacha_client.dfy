/** The API client (services/gacha_client.py): the display form of a card,
    the defaults of a pull response, the request headers, and the tally the
    client keeps of the cards the server returned. The requests themselves
    are not modelled; the client's tally is. */
module Client {
  import opened Base
  import Report

  /** One card of a pull response. */
  datatype CardResult = CardResult(
    cardId: string,
    name: string,
    rarity: string,      // SSR / SR / R as the server sends it
    isFeatured: bool,
    imageUrl: string)

  /** The colour the display uses for a rarity; an unknown rarity is grey. */
  function RarityColor(rarity: string): string
  {
    if rarity == "SSR" then "#FFD700"
    else if rarity == "SR" then "#9B59B6"
    else if rarity == "R" then "#3498DB"
    else "#666"
  }

  predicate KnownRarity(rarity: string)
  {
    rarity == "SSR" || rarity == "SR" || rarity == "R"
  }

  /** Two rarities share a colour exactly when they are the same known
      rarity or both unknown: the colour tells the three tiers apart. */
  lemma ColorsDistinguishRarities(a: string, b: string)
    ensures RarityColor(a) == RarityColor(b) <==> a == b || (!KnownRarity(a) && !KnownRarity(b))
  {
  }

  const DisplayKeys: set<string> := {"card_id", "name", "rarity", "is_featured", "image_url", "color"}

  /** `to_display_dict`: the five fields copied as they are, plus the colour
      of the card's rarity. */
  function ToDisplayDict(c: CardResult): (d: map<string, Value>)
    ensures d.Keys == DisplayKeys
    ensures d["card_id"] == Str(c.cardId) && d["name"] == Str(c.name) && d["rarity"] == Str(c.rarity)
    ensures d["is_featured"] == Bool(c.isFeatured) && d["image_url"] == Str(c.imageUrl)
    ensures d["color"] == Str(RarityColor(c.rarity))
  {
    map["card_id" := Str(c.cardId), "name" := Str(c.name), "rarity" := Str(c.rarity),
        "is_featured" := Bool(c.isFeatured), "image_url" := Str(c.imageUrl),
        "color" := Str(RarityColor(c.rarity))]
  }

  /** The card a display dict shows, when its fields have the right shape. */
  function FromDisplayDict(d: map<string, Value>): Option<CardResult>
  {
    if DisplayKeys <= d.Keys && d["card_id"].Str? && d["name"].Str? && d["rarity"].Str?
       && d["is_featured"].Bool? && d["image_url"].Str?
    then Some(CardResult(d["card_id"].s, d["name"].s, d["rarity"].s, d["is_featured"].b, d["image_url"].s))
    else None
  }

  /** The display dict loses nothing of the card, and its colour agrees with
      the rarity it shows. */
  lemma DisplayRoundTrip(c: CardResult)
    ensures FromDisplayDict(ToDisplayDict(c)) == Some(c)
    ensures var d := ToDisplayDict(c);
            d["color"] == Str(RarityColor(d["rarity"].s))
  {
  }

  /** A pull response. Fields the dataclass leaves as `None` are set by
      `__post_init__`. */
  class PullResult {
    var success: bool
    var errorCode: int
    var errorMsg: string
    var cards: seq<CardResult>
    var pityCount: int
    var extraData: map<string, Value>

    /** The dataclass constructor followed by `__post_init__`: a missing
        card list becomes empty and missing extra data an empty dict; the
        other fields are stored as given. */
    constructor(success: bool, errorCode: int, errorMsg: string, cards: Option<seq<CardResult>>,
                pityCount: int, extraData: Option<map<string, Value>>)
      ensures this.success == success && this.errorCode == errorCode && this.errorMsg == errorMsg
      ensures this.pityCount == pityCount
      ensures this.cards == (if cards.Some? then cards.value else [])
      ensures this.extraData == (if extraData.Some? then extraData.value else map[])
    {
      this.success := success;
      this.errorCode := errorCode;
      this.errorMsg := errorMsg;
      this.pityCount := pityCount;
      new;
      if cards.None? {
        this.cards := [];
      } else {
        this.cards := cards.value;
      }
      if extraData.None? {
        this.extraData := map[];
      } else {
        this.extraData := extraData.value;
      }
    }
  }

  /** `SERVER_URL`, the default server address. */
  const DefaultServerUrl := "https://api.game.com"

  /** The default address has no trailing slash, so trimming keeps it. */
  lemma DefaultServerUrlTrimmed()
    ensures TrimSlashes(DefaultServerUrl) == DefaultServerUrl
  {
    assert DefaultServerUrl[|DefaultServerUrl| - 1] == 'm';
  }

  /** `rstrip('/')`: the string without its trailing slashes. */
  function TrimSlashes(s: string): (r: string)
    ensures |r| <= |s| && r == s[..|r|]
    ensures r == [] || r[|r| - 1] != '/'
    ensures forall i :: |r| <= i < |s| ==> s[i] == '/'
  {
    if s != [] && s[|s| - 1] == '/' then TrimSlashes(s[..|s| - 1]) else s
  }

  /** Trimming is idempotent. */
  lemma TrimSlashesIdempotent(s: string)
    ensures TrimSlashes(TrimSlashes(s)) == TrimSlashes(s)
  {
  }

  /** `k` slashes. */
  function Slashes(k: nat): (r: string)
    ensures |r| == k && forall i :: 0 <= i < k ==> r[i] == '/'
  {
    if k == 0 then [] else Slashes(k - 1) + ['/']
  }

  /** Appending slashes to an address does not change the address the
      client keeps. */
  lemma {:induction false} TrimSlashesIgnoresTrailing(s: string, k: nat)
    ensures TrimSlashes(s + Slashes(k)) == TrimSlashes(s)
    decreases k
  {
    if k == 0 {
      assert s + Slashes(0) == s;
    } else {
      var t := s + Slashes(k);
      assert Slashes(k) == Slashes(k - 1) + ['/'];
      assert t == (s + Slashes(k - 1)) + ['/'];
      assert t[..|t| - 1] == s + Slashes(k - 1);
      TrimSlashesIgnoresTrailing(s, k - 1);
    }
  }

  const ProtoType := "application/x-protobuf"
  const JsonType := "application/json"

  /** The client's local statistics dict, whose four keys are fixed. */
  datatype LocalTally = LocalTally(totalPulls: int, ssrCount: int, srCount: int, rCount: int)

  const ZeroTally := LocalTally(0, 0, 0, 0)

  /** The three counts make up the total and none is negative. */
  predicate Balanced(t: LocalTally)
  {
    0 <= t.ssrCount && 0 <= t.srCount && 0 <= t.rCount && t.ssrCount + t.srCount + t.rCount == t.totalPulls
  }

  predicate IsSsrCard(c: CardResult) { c.rarity == "SSR" }

  predicate IsSrCard(c: CardResult) { c.rarity == "SR" }

  /** What `_update_local_stats` counts as R: every rarity but SSR and SR. */
  predicate IsOtherCard(c: CardResult) { c.rarity != "SSR" && c.rarity != "SR" }

  /** The number of cards that `keep` accepts. */
  function CountWhere(cards: seq<CardResult>, keep: CardResult -> bool): (n: nat)
    ensures n <= |cards|
  {
    if cards == [] then 0
    else CountWhere(cards[..|cards| - 1], keep) + (if keep(cards[|cards| - 1]) then 1 else 0)
  }

  /** Every card is SSR, SR or counted as R, and only one of them. */
  lemma {:induction false} CountsPartition(cards: seq<CardResult>)
    ensures CountWhere(cards, IsSsrCard) + CountWhere(cards, IsSrCard) + CountWhere(cards, IsOtherCard) == |cards|
  {
    if cards != [] {
      CountsPartition(cards[..|cards| - 1]);
    }
  }

  /** The tally after counting one card. */
  function TallyOne(t: LocalTally, c: CardResult): LocalTally
  {
    var t1 := t.(totalPulls := t.totalPulls + 1);
    if c.rarity == "SSR" then t1.(ssrCount := t1.ssrCount + 1)
    else if c.rarity == "SR" then t1.(srCount := t1.srCount + 1)
    else t1.(rCount := t1.rCount + 1)
  }

  /** The tally after counting a list of cards, one after the other: the
      total rises by the number of cards and each tier by its own cards,
      with every rarity but SSR and SR counted as R. */
  function Tallied(t: LocalTally, cards: seq<CardResult>): (n: LocalTally)
    ensures n.totalPulls == t.totalPulls + |cards|
    ensures n.ssrCount == t.ssrCount + CountWhere(cards, IsSsrCard)
    ensures n.srCount == t.srCount + CountWhere(cards, IsSrCard)
    ensures n.rCount == t.rCount + CountWhere(cards, IsOtherCard)
  {
    if cards == [] then t else TallyOne(Tallied(t, cards[..|cards| - 1]), cards[|cards| - 1])
  }

  /** Counting keeps the three tiers adding up to the total. */
  lemma TalliedKeepsBalance(t: LocalTally, cards: seq<CardResult>)
    requires Balanced(t)
    ensures Balanced(Tallied(t, cards))
  {
    CountsPartition(cards);
  }

  /** Counting two lists one after the other is counting their
      concatenation. */
  lemma {:induction false} TalliedAppend(t: LocalTally, a: seq<CardResult>, b: seq<CardResult>)
    ensures Tallied(Tallied(t, a), b) == Tallied(t, a + b)
  {
    if b == [] {
      assert a + b == a;
    } else {
      var front := b[..|b| - 1];
      assert (a + b)[..|a + b| - 1] == a + front;
      assert (a + b)[|a + b| - 1] == b[|b| - 1];
      TalliedAppend(t, a, front);
    }
  }

  /** `get_local_stats`: the four counters and each tier's share of the
      total as exact reals; a rate of 0.0 stands for the literal "0.00%"
      returned when nothing has been pulled. */
  datatype LocalStatsView = LocalStatsView(
    totalPulls: int, ssrCount: int, srCount: int, rCount: int,
    ssrRate: real, srRate: real, rRate: real)

  function WithRates(t: LocalTally): (v: LocalStatsView)
    ensures v.totalPulls == t.totalPulls && v.ssrCount == t.ssrCount
    ensures v.srCount == t.srCount && v.rCount == t.rCount
    ensures t.totalPulls == 0 ==> v.ssrRate == 0.0 && v.srRate == 0.0 && v.rRate == 0.0
    ensures t.totalPulls != 0 ==>
              && v.ssrRate * t.totalPulls as real == t.ssrCount as real * 100.0
              && v.srRate * t.totalPulls as real == t.srCount as real * 100.0
              && v.rRate * t.totalPulls as real == t.rCount as real * 100.0
  {
    if t.totalPulls == 0 then LocalStatsView(t.totalPulls, t.ssrCount, t.srCount, t.rCount, 0.0, 0.0, 0.0)
    else
      var n := t.totalPulls;
      LocalStatsView(t.totalPulls, t.ssrCount, t.srCount, t.rCount,
                     Report.Rate(t.ssrCount, n), Report.Rate(t.srCount, n), Report.Rate(t.rCount, n))
  }

  /** Once anything has been counted from a reset tally, the three rates
      lie in [0, 100] and add up to exactly 100. */
  lemma LocalRatesSumToHundred(cards: seq<CardResult>)
    requires cards != []
    ensures var v := WithRates(Tallied(ZeroTally, cards));
            && v.ssrRate + v.srRate + v.rRate == 100.0
            && 0.0 <= v.ssrRate <= 100.0 && 0.0 <= v.srRate <= 100.0 && 0.0 <= v.rRate <= 100.0
  {
    var t := Tallied(ZeroTally, cards);
    TalliedKeepsBalance(ZeroTally, cards);
    Report.ThreeShares(t.ssrCount, t.srCount, t.rCount, t.totalPulls);
    Report.ShareBound(t.ssrCount, t.totalPulls);
    Report.ShareBound(t.srCount, t.totalPulls);
    Report.ShareBound(t.rCount, t.totalPulls);
  }

  class GachaClient {
    var serverUrl: string
    var token: Option<string>
    var userId: Option<string>
    var useProto: bool
    var localStats: LocalTally

    /** `__init__`: the address without trailing slashes, the credentials
        and format as given, and a zero tally. */
    constructor(serverUrl: string, token: Option<string>, userId: Option<string>, useProto: bool)
      ensures this.serverUrl == TrimSlashes(serverUrl)
      ensures this.token == token && this.userId == userId && this.useProto == useProto
      ensures localStats == ZeroTally
    {
      this.serverUrl := TrimSlashes(serverUrl);
      this.token := token;
      this.userId := userId;
      this.useProto := useProto;
      localStats := ZeroTally;
    }

    /** `__init__` with its defaults: the address `SERVER_URL` and the
        Protobuf format. */
    constructor WithDefaults(token: Option<string>, userId: Option<string>)
      ensures serverUrl == DefaultServerUrl && useProto
      ensures this.token == token && this.userId == userId
      ensures localStats == ZeroTally
    {
      DefaultServerUrlTrimmed();
      serverUrl := TrimSlashes(DefaultServerUrl);
      this.token := token;
      this.userId := userId;
      useProto := true;
      localStats := ZeroTally;
    }

    /** `_build_headers`: Content-Type and Accept both name the format in
        use; Authorization is `Bearer <token>` exactly when a token is set
        and not empty; no other header is sent. */
    function BuildHeaders(): (h: map<string, string>)
      reads this
      ensures "Content-Type" in h && "Accept" in h
      ensures h["Content-Type"] == h["Accept"] == if useProto then ProtoType else JsonType
      ensures "Authorization" in h <==> Truthy(token)
      ensures Truthy(token) ==> |h["Authorization"]| > 7 && h["Authorization"][7..] == token.value
      ensures Truthy(token) ==> h["Authorization"][..7] == "Bearer "
      ensures h.Keys <= {"Content-Type", "Accept", "Authorization"}
    {
      var format := if useProto then ProtoType else JsonType;
      var h := map["Content-Type" := format, "Accept" := format];
      if Truthy(token) then h["Authorization" := "Bearer " + token.value] else h
    }

    /** `_update_local_stats`, card by card: the tally becomes the old one
        with the cards counted; nothing else changes. */
    method UpdateLocalStats(cards: seq<CardResult>)
      modifies this
      ensures localStats == Tallied(old(localStats), cards)
      ensures serverUrl == old(serverUrl) && token == old(token) && userId == old(userId)
      ensures useProto == old(useProto)
    {
      var i := 0;
      while i < |cards|
        invariant 0 <= i <= |cards|
        invariant localStats == Tallied(old(localStats), cards[..i])
        invariant serverUrl == old(serverUrl) && token == old(token) && userId == old(userId)
        invariant useProto == old(useProto)
      {
        assert cards[..i + 1][..i] == cards[..i];
        ghost var before := localStats;
        localStats := localStats.(totalPulls := localStats.totalPulls + 1);
        if cards[i].rarity == "SSR" {
          localStats := localStats.(ssrCount := localStats.ssrCount + 1);
        } else if cards[i].rarity == "SR" {
          localStats := localStats.(srCount := localStats.srCount + 1);
        } else {
          localStats := localStats.(rCount := localStats.rCount + 1);
        }
        assert localStats == TallyOne(before, cards[i]);
        i := i + 1;
      }
      assert cards[..|cards|] == cards;
    }

    /** `get_local_stats`. */
    function GetLocalStats(): (v: LocalStatsView)
      reads this
      ensures v == WithRates(localStats)
    {
      WithRates(localStats)
    }

    /** `reset_local_stats`: the four counters back to 0; nothing else
        changes. */
    method ResetLocalStats()
      modifies this
      ensures localStats == ZeroTally
      ensures serverUrl == old(serverUrl) && token == old(token) && userId == old(userId)
      ensures useProto == old(useProto)
    {
      localStats := LocalTally(0, 0, 0, 0);
    }
  }
}
