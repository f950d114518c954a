/** The card of one search result: a like button and the relevance score
    it displays. */
module SearchResultCard {
  import opened Wrappers
  import opened Media
  import opened Likes
  import opened Search

  /** `item.relevanceScore || 1`, with a missing score read as 0. */
  function ShownScore(relevance: int): (r: int)
    ensures r != 0
    ensures relevance != 0 ==> r == relevance
  {
    if relevance == 0 then 1 else relevance
  }

  /** Every result of a search shows its own relevance score. */
  lemma ShownScoreOfResults(query: string, images: seq<Item>, videos: seq<Item>)
    ensures var r := SearchResults(query, images, videos);
      forall i :: 0 <= i < |r| ==> ShownScore(r[i].relevance) == r[i].relevance
  {
    SearchResultsSpec(query, images, videos);
  }

  class SearchResultCard {
    const item: Hit
    const like: LikeButton

    /** `useState(false)` and `useState(item.likes || 0)`; a missing count
        is 0 in the catalogue model. */
    constructor(item: Hit)
      ensures this.item == item
      ensures fresh(like) && like.Valid() && like.state == LikeState(false, item.item.likes)
    {
      this.item := item;
      like := new LikeButton(item.item.likes);
    }

    /** `handleLike`: presses the button and hands the id to `onLike` when
        the parent gave one. */
    method HandleLike(hasOnLike: bool) returns (liked: Option<int>)
      requires like.Valid()
      modifies like
      ensures like.Valid()
      ensures like.state == Pressed(old(like.state))
      ensures liked == (if hasOnLike then Some(item.item.id) else None)
    {
      like.Press();
      liked := if hasOnLike then Some(item.item.id) else None;
    }
  }
}
