/**
 * The catalogue normaliser of the front end's data hook: every record the
 * `/nfts` endpoint returns is mapped to the one NFT shape the search engine
 * and the grid understand (artverse-archive/src/hooks/useNFTData.tsx).
 */
module Catalog {
  import opened Wrappers
  import opened Json
  import opened Text

  /** One `{trait_type, value}` pair as the grid and the search text use it. */
  datatype Attribute = Attribute(traitType: string, value: string)

  /** The normalised asset. */
  datatype NFT = NFT(
    id: string,
    name: string,
    image: string,
    description: string,
    attributes: seq<Attribute>,
    collection: string,
    chain: string,
    mintDate: string)

  /** The `raw_metadata` object of a backend record; an absent field is `None`. */
  datatype RawMetadata = RawMetadata(
    image: Option<string>,
    imageUrl: Option<string>,
    name: Option<string>,
    description: Option<string>,
    collectionName: Option<string>,
    mintedDate: Option<string>)

  /** The three shapes `attributes` takes: an array of pairs, a plain object, or anything else. */
  datatype RawAttributes =
    | AttributeArray(items: seq<Attribute>)
    | AttributeObject(entries: seq<(string, Json)>)
    | OtherAttributes

  /** One element of the JSON array the catalogue endpoint returns. */
  datatype RawRecord = RawRecord(
    cachedImageUrl: Option<string>,
    rawMetadata: Option<RawMetadata>,
    attributes: RawAttributes,
    contractAddress: Option<string>,
    tokenId: Option<string>,
    chain: Option<string>,
    name: Option<string>,
    description: Option<string>)

  const FallbackImage: string :=
    "https://images.unsplash.com/photo-1618005182384-a83a8bd57fbe?w=400&h=400&fit=crop"
  const UnnamedNFT: string := "Unnamed NFT"

  /** The fields of `raw_metadata` the normaliser reads. */
  datatype MetaKey = ImageKey | ImageUrlKey | NameKey | DescriptionKey | CollectionNameKey | MintedDateKey

  /** `nft.raw_metadata?.<key>`: absent when there is no `raw_metadata` object. */
  function Meta(raw: RawRecord, key: MetaKey): Option<string> {
    match raw.rawMetadata
    case None => None
    case Some(m) =>
      match key
      case ImageKey => m.image
      case ImageUrlKey => m.imageUrl
      case NameKey => m.name
      case DescriptionKey => m.description
      case CollectionNameKey => m.collectionName
      case MintedDateKey => m.mintedDate
  }

  /** Steps 1 to 3 of the image lookup: `cached_image_url`, then the metadata's `image` or `image_url`. */
  function ImageUrl(raw: RawRecord): (url: string)
    ensures url != ""
    ensures Truthy(raw.cachedImageUrl) ==> url == raw.cachedImageUrl.value
    ensures (!Truthy(raw.cachedImageUrl) && Truthy(Meta(raw, ImageKey)))
      ==> url == Meta(raw, ImageKey).value
    ensures (!Truthy(raw.cachedImageUrl) && !Truthy(Meta(raw, ImageKey)) && Truthy(Meta(raw, ImageUrlKey)))
      ==> url == Meta(raw, ImageUrlKey).value
    ensures NoImageSource(raw) ==> url == FallbackImage
  {
    var cached := if Truthy(raw.cachedImageUrl) then raw.cachedImageUrl.value else "";
    var fromMetadata :=
      if cached == "" && raw.rawMetadata.Some? then
        Or(Meta(raw, ImageKey), Or(Meta(raw, ImageUrlKey), ""))
      else cached;
    if fromMetadata == "" then FallbackImage else fromMetadata
  }

  /** No image field of the record holds a non-empty string. */
  predicate NoImageSource(raw: RawRecord) {
    && !Truthy(raw.cachedImageUrl)
    && !Truthy(Meta(raw, ImageKey))
    && !Truthy(Meta(raw, ImageUrlKey))
  }

  /** The attribute list: arrays are kept, an object becomes `(key, String(value))` pairs in order. */
  function NormalizeAttributes(a: RawAttributes): (r: seq<Attribute>)
    ensures a.AttributeArray? ==> r == a.items
    ensures a.AttributeObject? ==> |r| == |a.entries|
    ensures a.AttributeObject? ==>
      forall i :: 0 <= i < |r| ==> r[i].traitType == a.entries[i].0 && r[i].value == JsString(a.entries[i].1)
    ensures a.OtherAttributes? ==> r == []
  {
    match a
    case AttributeArray(items) => items
    case AttributeObject(entries) =>
      seq(|entries|, i requires 0 <= i < |entries| => Attribute(entries[i].0, JsString(entries[i].1)))
    case OtherAttributes => []
  }

  /** The `map` callback of `loadNFTs`: total, with a fallback for every field. */
  function Normalize(raw: RawRecord): (nft: NFT)
    ensures nft.image != "" && nft.name != ""
    ensures nft.id == Interpolate(raw.contractAddress) + ":" + Interpolate(raw.tokenId)
    ensures Truthy(raw.name) ==> nft.name == raw.name.value
    ensures (!Truthy(raw.name) && Truthy(Meta(raw, NameKey))) ==> nft.name == Meta(raw, NameKey).value
    ensures (!Truthy(raw.name) && !Truthy(Meta(raw, NameKey))) ==> nft.name == UnnamedNFT
    ensures Truthy(raw.description) ==> nft.description == raw.description.value
    ensures (!Truthy(raw.description) && Truthy(Meta(raw, DescriptionKey)))
      ==> nft.description == Meta(raw, DescriptionKey).value
    ensures (!Truthy(raw.description) && !Truthy(Meta(raw, DescriptionKey))) ==> nft.description == ""
    ensures nft.collection == Or(Meta(raw, CollectionNameKey), "")
    ensures nft.mintDate == Or(Meta(raw, MintedDateKey), "")
    ensures nft.chain == Or(raw.chain, "")
    ensures nft.image == ImageUrl(raw) && nft.attributes == NormalizeAttributes(raw.attributes)
  {
    NFT(
      id := Interpolate(raw.contractAddress) + ":" + Interpolate(raw.tokenId),
      name := Or(raw.name, Or(Meta(raw, NameKey), UnnamedNFT)),
      image := ImageUrl(raw),
      description := Or(raw.description, Or(Meta(raw, DescriptionKey), "")),
      attributes := NormalizeAttributes(raw.attributes),
      collection := Or(Meta(raw, CollectionNameKey), ""),
      chain := Or(raw.chain, ""),
      mintDate := Or(Meta(raw, MintedDateKey), ""))
  }

  /** `backendNFTs.map(...)`. */
  function NormalizeAll(raws: seq<RawRecord>): (nfts: seq<NFT>)
    ensures |nfts| == |raws| && forall i :: 0 <= i < |raws| ==> nfts[i] == Normalize(raws[i])
  {
    seq(|raws|, i requires 0 <= i < |raws| => Normalize(raws[i]))
  }

  /** Every card of the grid has an image to show and a title, whatever the backend left out. */
  lemma CardsAreComplete(raws: seq<RawRecord>)
    ensures forall nft :: nft in NormalizeAll(raws) ==> nft.image != "" && nft.name != ""
  {
  }

  /** A record that carries its name and image only in `raw_metadata` normalises field by field. */
  lemma NormalizeExample()
    ensures Normalize(RawRecord(
              cachedImageUrl := None,
              rawMetadata := Some(RawMetadata(Some("http://x/7.png"), None, Some("Ape #7"), None, None, None)),
              attributes := OtherAttributes,
              contractAddress := Some("0xA"), tokenId := Some("7"), chain := Some("Polygon"),
              name := None, description := None))
            == NFT("0xA:7", "Ape #7", "http://x/7.png", "", [], "", "Polygon", "")
  {
  }
}
