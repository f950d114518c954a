/** The records the gallery pages share: an entry of the image or video
    catalogue, its kind, and the two tile sizes of the masonry grid. */
module Media {
  import opened Wrappers
  import opened Text

  datatype Kind = Image | Video

  datatype Size = Standard | Tall

  /** One catalogue entry. A `likes` count is never negative in the
      catalogues, so it is a `nat`. */
  datatype Item = Item(id: int, prompt: string, author: string, likes: nat)

  /** The size rule the galleries, the search page and the favourites page
      share: `index % 4 === 0 && (index / 4) % 2 === 0` picks the tall
      tiles, which are exactly the multiples of 8. */
  function GridSize(index: nat): (s: Size)
    ensures s == Tall <==> index % 8 == 0
  {
    if index % 4 == 0 then (if (index / 4) % 2 == 0 then Tall else Standard) else Standard
  }

  /** An `id` field as JavaScript holds it: a catalogue number, or a string
      such as the galleries' `local-<n>`. */
  datatype ItemId = Num(n: int) | Label(s: string)

  /** `${id}` in a template literal. */
  function IdText(id: ItemId): string {
    match id
    case Num(n) => IntToString(n)
    case Label(s) => s
  }

  /** The `type` segment of a similar-page route. */
  function KindName(k: Kind): (s: string)
    ensures |s| == 5
  {
    match k
    case Image => "image"
    case Video => "video"
  }

  /** `` `/similar/${type}/${id}` ``: the route of an item's similar page,
      with the id as the link writes it. The kind and the id can be read
      back from their places. */
  function SimilarPath(k: Kind, idText: string): (r: string)
    ensures |r| == 15 + |idText|
    ensures r[..9] == "/similar/" && r[9..14] == KindName(k) && r[14] == '/'
    ensures r[15..] == idText
  {
    "/similar/" + KindName(k) + "/" + idText
  }

  /** The similar-page route of a catalogue item: the id segment is the
      number in decimal, and `parseInt` reads it back. */
  function SimilarRoute(k: Kind, id: int): (r: string)
    ensures |r| > 15
    ensures r[..9] == "/similar/" && r[9..14] == KindName(k) && r[14] == '/'
    ensures r[15..] == IntToString(id) && ParseInt(r[15..]) == Some(id)
  {
    ParseIntOfIntToString(id);
    SimilarPath(k, IntToString(id))
  }
}
