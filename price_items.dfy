/**
 * Price records as decoded from the price fixtures: a USD-only record and a record
 * with both a USD and a EUR price. Swift's `Decimal` is modelled as `real`.
 */
module PriceItems {
  import opened Common

  /** What can be done with a token; its raw value is the JSON string. */
  datatype Tag = Deposit | Withdrawal

  function TagRawValue(t: Tag): (r: string)
    ensures r == "deposit" || r == "withdrawal"
  {
    match t
    case Deposit => "deposit"
    case Withdrawal => "withdrawal"
  }

  /** `Tag(rawValue:)`, which decoding uses: nil for any other string. */
  function TagFromRaw(raw: string): (r: Option<Tag>)
    ensures r.Some? <==> raw == "deposit" || raw == "withdrawal"
    ensures r.Some? ==> TagRawValue(r.value) == raw
  {
    if raw == "deposit" then Some(Deposit)
    else if raw == "withdrawal" then Some(Withdrawal)
    else None
  }

  /** Every tag survives the trip through its raw value, so distinct tags have distinct raw values. */
  lemma TagRoundTrip(t: Tag)
    ensures TagFromRaw(TagRawValue(t)) == Some(t)
  {
  }

  lemma TagRawValuesDistinct(a: Tag, b: Tag)
    requires a != b
    ensures TagRawValue(a) != TagRawValue(b)
  {
  }

  /** `tags.map { $0.rawValue }`, the `tagStrings` of both record kinds. */
  function TagStrings(tags: seq<Tag>): (r: seq<string>)
    ensures |r| == |tags|
    ensures forall i :: 0 <= i < |tags| ==> r[i] == TagRawValue(tags[i])
  {
    if tags == [] then [] else [TagRawValue(tags[0])] + TagStrings(tags[1..])
  }

  /** Decoding the tag strings again gives back the tags. */
  lemma TagStringsDecode(tags: seq<Tag>)
    ensures forall i :: 0 <= i < |tags| ==> TagFromRaw(TagStrings(tags)[i]) == Some(tags[i])
  {
    forall i | 0 <= i < |tags| ensures TagFromRaw(TagStrings(tags)[i]) == Some(tags[i]) {
      TagRoundTrip(tags[i]);
    }
  }

  /** `USDPrice.Price`. */
  datatype USDPriceItem = USDPriceItem(id: int, name: string, usd: real, tags: seq<Tag>)

  /** `AllPrice.Price.PriceRecord`. */
  datatype PriceRecord = PriceRecord(usd: real, eur: real)

  /** `AllPrice.Price`, whose `usd` and `eur` read through to its price record. */
  datatype AllPriceItem = AllPriceItem(id: int, name: string, price: PriceRecord, tags: seq<Tag>)
  {
    function Usd(): (r: real)
      ensures r == price.usd
    {
      price.usd
    }

    function Eur(): (r: real)
      ensures r == price.eur
    {
      price.eur
    }
  }
}
