/** The image card: a like button and the "search similar" link. */
module ImageCard {
  import opened Wrappers
  import opened Text
  import opened Media
  import opened Likes

  /** The route segment the similar page is given for an image id. A
      gallery label `local-<n>` stands for the catalogue number `n`, so the
      prefix is dropped; see the findings in the README for the route as
      written, which keeps it. */
  function SimilarId(id: ItemId): string {
    match id
    case Num(n) => IntToString(n)
    case Label(s) => if StartsWith(s, LocalPrefix) then s[|LocalPrefix|..] else s
  }

  /** The prefix the galleries put in front of the ids of local entries. */
  const LocalPrefix: string := "local-"

  /** `` `/similar/image/${image.id}` `` as written. */
  function RouteAsWritten(id: ItemId): string {
    SimilarPath(Image, IdText(id))
  }

  /** The route of the search-similar link. */
  function CardRoute(id: ItemId): (r: string)
    ensures StartsWith(r, "/similar/image/")
    ensures r[|"/similar/image/"|..] == SimilarId(id)
  {
    SimilarPath(Image, SimilarId(id))
  }

  class ImageCard {
    const id: ItemId
    const like: LikeButton

    /** `useState(false)` and `useState(image.likes)`. */
    constructor(id: ItemId, likes: int)
      ensures this.id == id
      ensures fresh(like) && like.Valid() && like.state == LikeState(false, likes)
    {
      this.id := id;
      like := new LikeButton(likes);
    }

    /** `handleLike`: presses the button and hands the id to `onLike` when
        the parent gave one. */
    method HandleLike(hasOnLike: bool) returns (liked: Option<ItemId>)
      requires like.Valid()
      modifies like
      ensures like.Valid()
      ensures like.state == Pressed(old(like.state))
      ensures liked == (if hasOnLike then Some(id) else None)
    {
      like.Press();
      liked := if hasOnLike then Some(id) else None;
    }

    /** `handleSearchSimilar`: the route navigated to, and the id handed to
        `onSearchSimilar` when the parent gave one. */
    method HandleSearchSimilar(hasCallback: bool) returns (route: string, searched: Option<ItemId>)
      ensures route == CardRoute(id)
      ensures searched == (if hasCallback then Some(id) else None)
    {
      route := CardRoute(id);
      searched := if hasCallback then Some(id) else None;
    }
  }
}
