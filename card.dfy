/** The card record (models/card.py): an immutable value with a default image
    path and a dict form used for storage and transport. */
module Cards {
  import opened Base

  /** A card. A Python `None` in one of the three text fields is represented
      by the empty string; the owning pool id stays optional because `to_dict`
      emits `None` for it. */
  datatype Card = Card(
    cardId: string,
    name: string,
    rarity: string,
    poolId: Option<string>,
    isFeatured: bool,
    imageUrl: string)

  const ImageDir := "/static/images/cards/"

  function DefaultImageUrl(cardId: string): string
  {
    ImageDir + cardId + ".png"
  }

  /** `Card.__init__`: a missing or empty image url is replaced by the
      default path derived from the card id; everything else is kept. */
  function NewCard(cardId: string, name: string, rarity: string, poolId: Option<string>,
                   isFeatured: bool, imageUrl: Option<string>): (c: Card)
    ensures c.cardId == cardId && c.name == name && c.rarity == rarity
    ensures c.poolId == poolId && c.isFeatured == isFeatured
    ensures c.imageUrl != ""
    ensures imageUrl.Some? && imageUrl.value != "" ==> c.imageUrl == imageUrl.value
    ensures imageUrl.None? || imageUrl.value == "" ==> c.imageUrl == ImageDir + cardId + ".png"
  {
    var url := if imageUrl.Some? && imageUrl.value != "" then imageUrl.value else DefaultImageUrl(cardId);
    Card(cardId, name, rarity, poolId, isFeatured, url)
  }

  const CardKeys: set<string> := {"card_id", "name", "rarity", "pool_id", "is_featured", "image_url"}

  /** `Card.to_dict`. */
  function ToDict(c: Card): (d: map<string, Value>)
    ensures d.Keys == CardKeys
    ensures c.poolId.None? <==> d["pool_id"] == Null
  {
    map["card_id" := Str(c.cardId), "name" := Str(c.name), "rarity" := Str(c.rarity),
        "pool_id" := (if c.poolId.Some? then Str(c.poolId.value) else Null),
        "is_featured" := Bool(c.isFeatured), "image_url" := Str(c.imageUrl)]
  }

  /** `data.get(key)` for a text field: a missing key or `None` reads as the
      empty string; a value that is not a string cannot be represented. */
  function TextField(d: map<string, Value>, key: string): Option<string>
  {
    if key !in d || d[key] == Null then Some("")
    else if d[key].Str? then Some(d[key].s)
    else None
  }

  /** `data.get(key)` for an optional text field. */
  function OptionalTextField(d: map<string, Value>, key: string): Option<Option<string>>
  {
    if key !in d || d[key] == Null then Some(None)
    else if d[key].Str? then Some(Some(d[key].s))
    else None
  }

  /** `data.get(key, False)` for a flag; `None` is falsy. */
  function FlagField(d: map<string, Value>, key: string): Option<bool>
  {
    if key !in d || d[key] == Null then Some(false)
    else if d[key].Bool? then Some(d[key].b)
    else None
  }

  /** `Card.from_dict`: every field read with its default, then the
      constructor applies the image default. `None` when a field holds a
      value the typed model cannot store. */
  function FromDict(d: map<string, Value>): (r: Option<Card>)
    ensures r.Some? ==> r.value.imageUrl != ""
    ensures r.Some? && "is_featured" !in d ==> !r.value.isFeatured
    ensures r.Some? && "card_id" !in d ==> r.value.cardId == ""
  {
    var cardId :- TextField(d, "card_id");
    var name :- TextField(d, "name");
    var rarity :- TextField(d, "rarity");
    var poolId :- OptionalTextField(d, "pool_id");
    var featured :- FlagField(d, "is_featured");
    var image :- OptionalTextField(d, "image_url");
    Some(NewCard(cardId, name, rarity, poolId, featured, image))
  }

  /** Decoding the dict form of a card gives back the card, for every card
      whose image url is set (which `NewCard` guarantees). */
  lemma RoundTrip(c: Card)
    requires c.imageUrl != ""
    ensures FromDict(ToDict(c)) == Some(c)
  {
  }

  /** A dict without `is_featured` decodes to a card that is not featured
      and, without `image_url`, gets the default image path. */
  lemma FromDictDefaults(d: map<string, Value>)
    requires FromDict(d).Some?
    requires "is_featured" !in d && "image_url" !in d
    ensures !FromDict(d).value.isFeatured
    ensures FromDict(d).value.imageUrl == DefaultImageUrl(FromDict(d).value.cardId)
  {
  }
}
