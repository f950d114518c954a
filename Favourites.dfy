/** The favourites page: a fixed pool of saved images and videos, narrowed
    by type and by a search query, sorted on a copy, sized for the grid and
    shown six at a time. */
module Favourites {
  import opened Wrappers
  import opened Lists
  import opened Text
  import opened Sorting
  import opened Media

  /** A saved entry: the catalogue entry, its type, the day it was saved and
      its tags. */
  datatype Favourite = Favourite(item: Item, kind: Kind, dateAdded: int, tags: seq<string>)

  /** A favourite with its grid size. */
  datatype Tile = Tile(favourite: Favourite, size: Size)

  const ImageTags: seq<string> := ["ai", "art", "creative"]
  const VideoTags: seq<string> := ["video", "animation", "creative"]

  /** `s.slice(0, n)`. */
  function Take<T>(s: seq<T>, n: nat): (r: seq<T>)
    ensures |r| == if |s| < n then |s| else n
    ensures forall i :: 0 <= i < |r| ==> r[i] == s[i]
  {
    s[..if |s| < n then |s| else n]
  }

  /** The entries of one type with their type, tags and dates; the date of
      the `i`-th entry of a type is `dateOf(type, i)`, standing for the
      random day the page draws for it. */
  function Tagged(items: seq<Item>, kind: Kind, tags: seq<string>, dateOf: (Kind, nat) -> int): (r: seq<Favourite>)
    ensures |r| == |items|
  {
    if items == [] then []
    else
      var n := |items| - 1;
      Tagged(items[..n], kind, tags, dateOf) + [Favourite(items[n], kind, dateOf(kind, n), tags)]
  }

  lemma {:induction false} TaggedEntries(items: seq<Item>, kind: Kind, tags: seq<string>, dateOf: (Kind, nat) -> int)
    ensures forall i :: 0 <= i < |items| ==>
      Tagged(items, kind, tags, dateOf)[i] == Favourite(items[i], kind, dateOf(kind, i), tags)
  {
    if items != [] {
      var p := items[..|items| - 1];
      TaggedEntries(p, kind, tags, dateOf);
      assert forall i :: 0 <= i < |p| ==> p[i] == items[i];
    }
  }

  /** `favoriteItems`: the first ten images, then the first eight videos. */
  function Pool(images: seq<Item>, videos: seq<Item>, dateOf: (Kind, nat) -> int): seq<Favourite> {
    Tagged(Take(images, 10), Image, ImageTags, dateOf) + Tagged(Take(videos, 8), Video, VideoTags, dateOf)
  }

  /** The pool holds at most ten images followed by at most eight videos,
      in catalogue order, each with its type and its type's tags. */
  lemma PoolSpec(images: seq<Item>, videos: seq<Item>, dateOf: (Kind, nat) -> int)
    ensures var p := Pool(images, videos, dateOf);
      var m := if |images| < 10 then |images| else 10;
      |p| == m + (if |videos| < 8 then |videos| else 8)
      && (forall i :: 0 <= i < m ==> p[i] == Favourite(images[i], Image, dateOf(Image, i), ImageTags))
      && (forall i :: m <= i < |p| ==> p[i] == Favourite(videos[i - m], Video, dateOf(Video, i - m), VideoTags))
  {
    TaggedEntries(Take(images, 10), Image, ImageTags, dateOf);
    TaggedEntries(Take(videos, 8), Video, VideoTags, dateOf);
  }

  function OfKind(k: Kind): Favourite -> bool {
    (f: Favourite) => f.kind == k
  }

  /** The type step: `'all'` keeps everything, `'images'` the images, and
      any other value the videos. */
  function ByType(favourites: seq<Favourite>, filter: string): seq<Favourite> {
    if filter == "all" then favourites
    else Filter(favourites, OfKind(if filter == "images" then Image else Video))
  }

  lemma ByTypeSpec(favourites: seq<Favourite>, filter: string)
    ensures forall f :: f in ByType(favourites, filter) <==>
      f in favourites && (filter == "all" || f.kind == (if filter == "images" then Image else Video))
    ensures Subsequence(ByType(favourites, filter), favourites)
    ensures filter == "all" ==> ByType(favourites, filter) == favourites
  {
    if filter != "all" {
      var keep := OfKind(if filter == "images" then Image else Video);
      FilterMembers(favourites, keep);
      FilterSubsequence(favourites, keep);
    } else {
      SubsequenceSelf(favourites);
    }
  }

  /** The search test against an already lower-cased query: the prompt,
      the author or one of the tags contains it. */
  predicate MatchesQuery(f: Favourite, query: string) {
    Contains(ToLower(f.item.prompt), query) || Contains(ToLower(f.item.author), query)
    || exists t :: t in f.tags && Contains(ToLower(t), query)
  }

  function Matching(query: string): Favourite -> bool {
    (f: Favourite) => MatchesQuery(f, query)
  }

  /** The search step: skipped when the query is blank, otherwise matched
      with the lower-cased query, untrimmed. */
  function SearchStep(favourites: seq<Favourite>, query: string): seq<Favourite> {
    if Trim(query) == [] then favourites
    else Filter(favourites, Matching(ToLower(query)))
  }

  lemma SearchStepSpec(favourites: seq<Favourite>, query: string)
    ensures IsBlank(query) ==> SearchStep(favourites, query) == favourites
    ensures !IsBlank(query) ==> forall f :: f in SearchStep(favourites, query) <==>
      f in favourites && MatchesQuery(f, ToLower(query))
    ensures Subsequence(SearchStep(favourites, query), favourites)
  {
    TrimEmptyIffBlank(query);
    if IsBlank(query) {
      SubsequenceSelf(favourites);
    } else {
      FilterMembers(favourites, Matching(ToLower(query)));
      FilterSubsequence(favourites, Matching(ToLower(query)));
    }
  }

  /** The comparator of each sort order, as a key sorted ascending; any
      other order compares every pair as equal, which leaves the list as
      it is (`Sorting.SortByConstantKey`). */
  function SortKey(sortBy: string): Option<Favourite -> real> {
    if sortBy == "newest" then Some((f: Favourite) => -(f.dateAdded as real))
    else if sortBy == "oldest" then Some((f: Favourite) => f.dateAdded as real)
    else if sortBy == "mostLiked" then Some((f: Favourite) => -(f.item.likes as real))
    else if sortBy == "leastLiked" then Some((f: Favourite) => f.item.likes as real)
    else None
  }

  /** `filteredAndSortedItems`. */
  function Arranged(pool: seq<Favourite>, filter: string, query: string, sortBy: string): seq<Favourite> {
    var f := SearchStep(ByType(pool, filter), query);
    match SortKey(sortBy)
    case None => f
    case Some(key) => SortByKey(f, key)
  }

  /** The sorted copy is a permutation of the filtered list, and an unknown
      order leaves the filtered list as it is. */
  lemma ArrangedPermutes(pool: seq<Favourite>, filter: string, query: string, sortBy: string)
    ensures multiset(Arranged(pool, filter, query, sortBy)) == multiset(SearchStep(ByType(pool, filter), query))
    ensures SortKey(sortBy).None? ==> Arranged(pool, filter, query, sortBy) == SearchStep(ByType(pool, filter), query)
  {
    if SortKey(sortBy).Some? {
      SortByKeyPermutes(SearchStep(ByType(pool, filter), query), SortKey(sortBy).value);
    }
  }

  /** Each sort order orders the list as its comparator says. */
  lemma ArrangedOrder(pool: seq<Favourite>, filter: string, query: string, sortBy: string)
    ensures var r := Arranged(pool, filter, query, sortBy);
      forall i, j :: 0 <= i < j < |r| ==>
        (sortBy == "newest" ==> r[i].dateAdded >= r[j].dateAdded)
        && (sortBy == "oldest" ==> r[i].dateAdded <= r[j].dateAdded)
        && (sortBy == "mostLiked" ==> r[i].item.likes >= r[j].item.likes)
        && (sortBy == "leastLiked" ==> r[i].item.likes <= r[j].item.likes)
  {
    var r := Arranged(pool, filter, query, sortBy);
    if SortKey(sortBy).Some? {
      var key := SortKey(sortBy).value;
      SortByKeySorted(SearchStep(ByType(pool, filter), query), key);
      forall i, j | 0 <= i < j < |r|
        ensures (sortBy == "newest" ==> r[i].dateAdded >= r[j].dateAdded)
          && (sortBy == "oldest" ==> r[i].dateAdded <= r[j].dateAdded)
          && (sortBy == "mostLiked" ==> r[i].item.likes >= r[j].item.likes)
          && (sortBy == "leastLiked" ==> r[i].item.likes <= r[j].item.likes)
      {
        assert key(r[i]) <= key(r[j]);
      }
    }
  }

  /** `itemsWithSize`. */
  function WithSize(favourites: seq<Favourite>): (r: seq<Tile>)
    ensures |r| == |favourites|
  {
    if favourites == [] then []
    else
      var n := |favourites| - 1;
      WithSize(favourites[..n]) + [Tile(favourites[n], GridSize(n))]
  }

  /** The tile at index `i` holds the `i`-th favourite and is tall exactly
      when `i` is a multiple of 8. */
  lemma {:induction false} WithSizeEntries(favourites: seq<Favourite>)
    ensures forall i :: 0 <= i < |favourites| ==>
      WithSize(favourites)[i].favourite == favourites[i]
      && (WithSize(favourites)[i].size == Tall <==> i % 8 == 0)
  {
    if favourites != [] {
      var p := favourites[..|favourites| - 1];
      WithSizeEntries(p);
      assert forall i :: 0 <= i < |p| ==> p[i] == favourites[i];
    }
  }

  datatype Stats = Stats(total: nat, images: nat, videos: nat, filteredTotal: nat, filteredImages: nat, filteredVideos: nat)

  /** `stats`, over the pool and the arranged list. */
  function StatsOf(pool: seq<Favourite>, shown: seq<Favourite>): (s: Stats)
    ensures s.images + s.videos == s.total
    ensures s.filteredImages + s.filteredVideos == s.filteredTotal
  {
    FilterComplement(pool, OfKind(Image), OfKind(Video));
    FilterComplement(shown, OfKind(Image), OfKind(Video));
    Stats(|pool|, |Filter(pool, OfKind(Image))|, |Filter(pool, OfKind(Video))|,
      |shown|, |Filter(shown, OfKind(Image))|, |Filter(shown, OfKind(Video))|)
  }

  /** The state of the favourites page. */
  class FavouritesPage {
    const pool: seq<Favourite>
    var searchQuery: string
    var activeFilter: string
    var sortBy: string
    var visibleItems: nat
    var loading: bool

    constructor(pool: seq<Favourite>)
      ensures this.pool == pool
      ensures searchQuery == "" && activeFilter == "all" && sortBy == "newest"
      ensures visibleItems == 6 && !loading
    {
      this.pool := pool;
      searchQuery := "";
      activeFilter := "all";
      sortBy := "newest";
      visibleItems := 6;
      loading := false;
    }

    /** The sized list the grid draws from. */
    function Shown(): seq<Tile>
      reads this
    {
      WithSize(Arranged(pool, activeFilter, searchQuery, sortBy))
    }

    /** The search box; the reset effect shows six items again when the
        query changes. */
    method SetSearchQuery(query: string)
      modifies this
      ensures searchQuery == query
      ensures visibleItems == if query != old(searchQuery) then 6 else old(visibleItems)
      ensures activeFilter == old(activeFilter) && sortBy == old(sortBy) && loading == old(loading)
    {
      if query != searchQuery {
        visibleItems := 6;
      }
      searchQuery := query;
    }

    /** The type buttons, with the same reset. */
    method SetActiveFilter(filter: string)
      modifies this
      ensures activeFilter == filter
      ensures visibleItems == if filter != old(activeFilter) then 6 else old(visibleItems)
      ensures searchQuery == old(searchQuery) && sortBy == old(sortBy) && loading == old(loading)
    {
      if filter != activeFilter {
        visibleItems := 6;
      }
      activeFilter := filter;
    }

    /** The sort selector, with the same reset. */
    method SetSortBy(order: string)
      modifies this
      ensures sortBy == order
      ensures visibleItems == if order != old(sortBy) then 6 else old(visibleItems)
      ensures searchQuery == old(searchQuery) && activeFilter == old(activeFilter) && loading == old(loading)
    {
      if order != sortBy {
        visibleItems := 6;
      }
      sortBy := order;
    }

    /** `loadMoreItems`, with the 300 ms delay taken as done: nothing while
        loading or once every tile shows, otherwise six more, up to the
        number of tiles. */
    method LoadMore()
      modifies this
      ensures old(loading) || old(visibleItems) >= |Shown()| ==> visibleItems == old(visibleItems)
      ensures !old(loading) && old(visibleItems) < |Shown()| ==>
        visibleItems == (if old(visibleItems) + 6 < |Shown()| then old(visibleItems) + 6 else |Shown()|)
        && old(visibleItems) < visibleItems <= |Shown()|
      ensures loading == old(loading)
      ensures searchQuery == old(searchQuery) && activeFilter == old(activeFilter) && sortBy == old(sortBy)
    {
      var n := |Shown()|;
      if loading || visibleItems >= n {
        return;
      }
      loading := true;
      visibleItems := if visibleItems + 6 < n then visibleItems + 6 else n;
      loading := false;
    }

    /** `itemsWithSize.slice(0, visibleItems)`. */
    function VisibleTiles(): (r: seq<Tile>)
      reads this
      ensures |r| == if visibleItems < |Shown()| then visibleItems else |Shown()|
      ensures r == Shown()[..|r|]
    {
      var s := Shown();
      s[..if visibleItems < |s| then visibleItems else |s|]
    }
  }
}
