/** The search page: the catalogues mapped to grid entries, the prompt
    search, the integer relevance score, the type filter with its four sort
    orders, and the "load more" counter. */
module Search {
  import opened Wrappers
  import opened Lists
  import opened Text
  import opened Sorting
  import opened Media
  import SearchModal

  /** A catalogue entry as the data mapping leaves it: tagged with its kind
      and a grid size. */
  datatype Entry = Entry(item: Item, kind: Kind, size: Size)

  /** A search result: `{ ...item, relevanceScore, size }`. */
  datatype Hit = Hit(item: Item, kind: Kind, size: Size, relevance: int)

  /** `items.map((item, index) => ({ ...item, type, size }))`. */
  function Sized(items: seq<Item>, kind: Kind): (r: seq<Entry>)
    ensures |r| == |items|
  {
    if items == [] then []
    else Sized(items[..|items| - 1], kind) + [Entry(items[|items| - 1], kind, GridSize(|items| - 1))]
  }

  /** Every entry keeps its item, carries the kind and is sized by its own
      index. */
  lemma {:induction false} SizedEntries(items: seq<Item>, kind: Kind)
    ensures forall i :: 0 <= i < |items| ==> Sized(items, kind)[i] == Entry(items[i], kind, GridSize(i))
  {
    if items != [] {
      var p := items[..|items| - 1];
      SizedEntries(p, kind);
      assert forall i :: 0 <= i < |p| ==> p[i] == items[i];
    }
  }

  /** `[...allImages, ...allVideos]`. */
  function AllData(images: seq<Item>, videos: seq<Item>): seq<Entry> {
    Sized(images, Image) + Sized(videos, Video)
  }

  /** `query.toLowerCase().split(' ').filter(term => term.length > 0)`. */
  function Terms(query: string): (r: seq<string>)
    ensures forall i :: 0 <= i < |r| ==> r[i] != []
  {
    NonEmpty(SplitOnChar(ToLower(query), ' '))
  }

  /** The terms are exactly the non-empty pieces of the lower-cased query
      between single spaces; none of them holds a space or an upper-case
      letter. */
  lemma TermsSpec(query: string)
    ensures forall t :: t in Terms(query) <==> t in SplitOnChar(ToLower(query), ' ') && t != []
    ensures forall t :: t in Terms(query) ==> ' ' !in t && IsLower(t)
  {
    var pieces := SplitOnChar(ToLower(query), ' ');
    SplitOnCharChars(ToLower(query), ' ');
    forall t | t in Terms(query) ensures ' ' !in t && IsLower(t) {
      var i :| 0 <= i < |pieces| && pieces[i] == t;
      forall j | 0 <= j < |t| ensures !IsUpper(t[j]) {
        assert t[j] in ToLower(query);
      }
    }
  }

  /** `terms.some(term => prompt.includes(term))`. */
  predicate AnyIn(prompt: string, terms: seq<string>) {
    terms != [] && (Contains(prompt, terms[|terms| - 1]) || AnyIn(prompt, terms[..|terms| - 1]))
  }

  lemma {:induction false} AnyInSpec(prompt: string, terms: seq<string>)
    ensures AnyIn(prompt, terms) <==> exists t :: t in terms && Contains(prompt, t)
  {
    if terms != [] {
      var p := terms[..|terms| - 1];
      var last := terms[|terms| - 1];
      AnyInSpec(prompt, p);
      if exists t :: t in terms && Contains(prompt, t) {
        var t :| t in terms && Contains(prompt, t);
        assert terms == p + [last];
        assert t in p || t == last;
      }
      if AnyIn(prompt, terms) && !Contains(prompt, last) {
        var t :| t in p && Contains(prompt, t);
        assert t in terms;
      }
    }
  }

  /** The test of `searchInPrompts` for one item: it has a prompt, and the
      lower-cased prompt contains some term. */
  predicate Matches(prompt: string, terms: seq<string>) {
    prompt != [] && AnyIn(ToLower(prompt), terms)
  }

  function MatchesTerms(terms: seq<string>): Entry -> bool {
    (e: Entry) => Matches(e.item.prompt, terms)
  }

  /** `searchInPrompts(allData, query)`. */
  function SearchInPrompts(data: seq<Entry>, terms: seq<string>): seq<Entry> {
    Filter(data, MatchesTerms(terms))
  }

  /** An entry is found iff its prompt is non-empty and contains some term;
      the found image entries come first, then the found video entries, each
      in catalogue order. */
  lemma SearchInPromptsSpec(images: seq<Item>, videos: seq<Item>, terms: seq<string>)
    ensures forall e :: e in SearchInPrompts(AllData(images, videos), terms) <==>
      e in AllData(images, videos) && e.item.prompt != [] && exists t :: t in terms && Contains(ToLower(e.item.prompt), t)
    ensures SearchInPrompts(AllData(images, videos), terms)
      == SearchInPrompts(Sized(images, Image), terms) + SearchInPrompts(Sized(videos, Video), terms)
    ensures Subsequence(SearchInPrompts(AllData(images, videos), terms), AllData(images, videos))
  {
    var data := AllData(images, videos);
    FilterMembers(data, MatchesTerms(terms));
    forall e: Entry ensures Matches(e.item.prompt, terms) <==> e.item.prompt != [] && exists t :: t in terms && Contains(ToLower(e.item.prompt), t) {
      AnyInSpec(ToLower(e.item.prompt), terms);
    }
    FilterAppend(Sized(images, Image), Sized(videos, Video), MatchesTerms(terms));
    FilterSubsequence(data, MatchesTerms(terms));
  }

  /** The points of one term: 5 when it is one of the prompt's
      space-separated words, else 1 when the prompt contains it. */
  function TermPoints(prompt: string, term: string): nat {
    if term in SplitOnChar(prompt, ' ') then 5 else if Contains(prompt, term) then 1 else 0
  }

  /** A term scores exactly when the prompt contains it. */
  lemma TermPointsPositive(prompt: string, term: string)
    ensures TermPoints(prompt, term) > 0 <==> Contains(prompt, term)
  {
    SplitOnCharContained(prompt, ' ');
  }

  function TermsPoints(prompt: string, terms: seq<string>): nat {
    if terms == [] then 0
    else TermsPoints(prompt, terms[..|terms| - 1]) + TermPoints(prompt, terms[|terms| - 1])
  }

  function ContainedIn(prompt: string): string -> bool {
    (term: string) => Contains(prompt, term)
  }

  /** The relevance of an item with prompt `prompt` for `terms`. */
  function Relevance(prompt: string, terms: seq<string>): nat {
    if prompt == [] then 0
    else
      var p := ToLower(prompt);
      var m := |Filter(terms, ContainedIn(p))|;
      TermsPoints(p, terms) + (if m > 1 then m * 2 else 0)
  }

  /** Every contained term adds at least 1 and at most 5. */
  lemma {:induction false} TermsPointsBounds(prompt: string, terms: seq<string>)
    ensures |Filter(terms, ContainedIn(prompt))| <= TermsPoints(prompt, terms)
    ensures TermsPoints(prompt, terms) <= 5 * |Filter(terms, ContainedIn(prompt))|
  {
    if terms != [] {
      TermsPointsBounds(prompt, terms[..|terms| - 1]);
      TermPointsPositive(prompt, terms[|terms| - 1]);
    }
  }

  /** A term that occurs in the prompt is counted by the filter. */
  lemma {:induction false} MatchingCountPositive(prompt: string, terms: seq<string>)
    requires AnyIn(prompt, terms)
    ensures |Filter(terms, ContainedIn(prompt))| >= 1
  {
    var p := terms[..|terms| - 1];
    if !Contains(prompt, terms[|terms| - 1]) {
      MatchingCountPositive(prompt, p);
    }
  }

  /** Every search result scores at least 1, and no item scores more than
      7 points per term. */
  lemma RelevanceBounds(prompt: string, terms: seq<string>)
    ensures Relevance(prompt, terms) <= 7 * |terms|
    ensures Matches(prompt, terms) ==> Relevance(prompt, terms) >= 1
  {
    if prompt != [] {
      var p := ToLower(prompt);
      TermsPointsBounds(p, terms);
      if AnyIn(p, terms) {
        MatchingCountPositive(p, terms);
      }
    }
  }

  /** When every term is one of the prompt's words, each scores 5 and, with
      more than one term, each adds 2 more. */
  lemma {:induction false} RelevanceAllWords(prompt: string, terms: seq<string>)
    requires prompt != []
    requires forall t :: t in terms ==> t in SplitOnChar(ToLower(prompt), ' ')
    ensures Relevance(prompt, terms) == 5 * |terms| + (if |terms| > 1 then 2 * |terms| else 0)
  {
    var p := ToLower(prompt);
    SplitOnCharContained(p, ' ');
    AllWordsPoints(p, terms);
    AllContained(p, terms);
  }

  lemma {:induction false} AllWordsPoints(p: string, terms: seq<string>)
    requires forall t :: t in terms ==> t in SplitOnChar(p, ' ')
    ensures TermsPoints(p, terms) == 5 * |terms|
  {
    if terms != [] {
      var q := terms[..|terms| - 1];
      assert forall t :: t in q ==> t in terms;
      AllWordsPoints(p, q);
    }
  }

  lemma {:induction false} AllContained(p: string, terms: seq<string>)
    requires forall t :: t in terms ==> Contains(p, t)
    ensures Filter(terms, ContainedIn(p)) == terms
  {
    if terms != [] {
      var q := terms[..|terms| - 1];
      assert forall t :: t in q ==> t in terms;
      AllContained(p, q);
      assert ContainedIn(p)(terms[|terms| - 1]);
      assert terms == q + [terms[|terms| - 1]];
    }
  }

  /** The relevance loop of the `results.map` callback: `score +=` for every
      term, then the bonus for several matching terms. */
  method RelevanceOf(prompt: string, terms: seq<string>) returns (score: int)
    ensures score == Relevance(prompt, terms)
  {
    score := 0;
    if prompt != [] {
      var p := ToLower(prompt);
      var words := SplitOnChar(p, ' ');
      var i := 0;
      while i < |terms|
        invariant 0 <= i <= |terms|
        invariant score == TermsPoints(p, terms[..i])
      {
        assert terms[..i + 1][..i] == terms[..i];
        var term := terms[i];
        if term in words {
          score := score + 5;
        } else if Contains(p, term) {
          score := score + 1;
        }
        i := i + 1;
      }
      assert terms[..i] == terms;
      var matchingTerms := Filter(terms, ContainedIn(p));
      if |matchingTerms| > 1 {
        score := score + |matchingTerms| * 2;
      }
    }
  }

  /** `results.map((item, index) => ({ ...item, relevanceScore, size }))`. */
  function Hits(results: seq<Entry>, terms: seq<string>): (r: seq<Hit>)
    ensures |r| == |results|
  {
    if results == [] then []
    else
      var e := results[|results| - 1];
      Hits(results[..|results| - 1], terms) + [Hit(e.item, e.kind, GridSize(|results| - 1), Relevance(e.item.prompt, terms))]
  }

  /** Every result keeps its item and kind, scores its relevance and is
      resized by its index among the results. */
  lemma {:induction false} HitsEntries(results: seq<Entry>, terms: seq<string>)
    ensures forall i :: 0 <= i < |results| ==>
      Hits(results, terms)[i] == Hit(results[i].item, results[i].kind, GridSize(i), Relevance(results[i].item.prompt, terms))
  {
    if results != [] {
      var p := results[..|results| - 1];
      HitsEntries(p, terms);
      assert forall i :: 0 <= i < |p| ==> p[i] == results[i];
    }
  }

  /** The search results for `query`: none when the query is blank,
      otherwise the found entries with their scores. */
  function SearchResults(query: string, images: seq<Item>, videos: seq<Item>): seq<Hit> {
    if IsBlank(query) then []
    else
      var terms := Terms(query);
      Hits(SearchInPrompts(AllData(images, videos), terms), terms)
  }

  /** Each result's prompt contains some term, it scores at least 1, and it
      is tall exactly at the indexes that are multiples of 8. */
  lemma SearchResultsSpec(query: string, images: seq<Item>, videos: seq<Item>)
    ensures var r := SearchResults(query, images, videos);
      forall i :: 0 <= i < |r| ==>
        Matches(r[i].item.prompt, Terms(query)) && r[i].relevance >= 1
        && (r[i].size == Tall <==> i % 8 == 0)
    ensures IsBlank(query) ==> SearchResults(query, images, videos) == []
  {
    if !IsBlank(query) {
      var terms := Terms(query);
      var found := SearchInPrompts(AllData(images, videos), terms);
      FilterMembers(AllData(images, videos), MatchesTerms(terms));
      HitsEntries(found, terms);
      forall i | 0 <= i < |found| ensures Relevance(found[i].item.prompt, terms) >= 1 {
        assert MatchesTerms(terms)(found[i]);
        RelevanceBounds(found[i].item.prompt, terms);
      }
    }
  }

  /** The `results.map` callback applied to every found entry. */
  method ScoreResults(results: seq<Entry>, terms: seq<string>) returns (hits: seq<Hit>)
    ensures hits == Hits(results, terms)
  {
    hits := [];
    var i := 0;
    while i < |results|
      invariant 0 <= i <= |results|
      invariant hits == Hits(results[..i], terms)
    {
      assert results[..i + 1][..i] == results[..i];
      var e := results[i];
      var score := RelevanceOf(e.item.prompt, terms);
      hits := hits + [Hit(e.item, e.kind, GridSize(i), score)];
      i := i + 1;
    }
    assert results[..i] == results;
  }

  function OfType(t: string): Hit -> bool {
    (h: Hit) => KindName(h.kind) == t
  }

  /** The type filter: `'all'` keeps everything, any other value keeps the
      results whose type is that value. */
  function FilterType(hits: seq<Hit>, t: string): seq<Hit> {
    if t == "all" then hits else Filter(hits, OfType(t))
  }

  /** The comparator of each sort order, as a key sorted ascending; an
      unknown order does not sort. A missing likes count or id is 0 in the
      catalogue model, which is what `|| 0` gives. */
  function SortKey(sortBy: string): Option<Hit -> real> {
    if sortBy == "relevance" then Some((h: Hit) => -(h.relevance as real))
    else if sortBy == "likes" then Some((h: Hit) => -(h.item.likes as real))
    else if sortBy == "newest" then Some((h: Hit) => -(h.item.id as real))
    else if sortBy == "oldest" then Some((h: Hit) => h.item.id as real)
    else None
  }

  /** The filter-and-sort effect as a value. */
  function Arranged(hits: seq<Hit>, t: string, sortBy: string): seq<Hit> {
    var f := FilterType(hits, t);
    match SortKey(sortBy)
    case None => f
    case Some(key) => SortByKey(f, key)
  }

  /** The arranged list is a permutation of the results of the chosen
      type, and an unknown order leaves them as they are. */
  lemma ArrangedPermutes(hits: seq<Hit>, t: string, sortBy: string)
    ensures multiset(Arranged(hits, t, sortBy)) == multiset(FilterType(hits, t))
    ensures SortKey(sortBy).None? ==> Arranged(hits, t, sortBy) == FilterType(hits, t)
  {
    if SortKey(sortBy).Some? {
      SortByKeyPermutes(FilterType(hits, t), SortKey(sortBy).value);
    }
  }

  /** The arranged list holds exactly the results of the chosen type; with
      `'all'` and an unknown order it is the result list itself. */
  lemma ArrangedMembers(hits: seq<Hit>, t: string, sortBy: string)
    ensures forall h :: h in Arranged(hits, t, sortBy) <==> h in hits && (t == "all" || KindName(h.kind) == t)
    ensures t == "all" && SortKey(sortBy).None? ==> Arranged(hits, t, sortBy) == hits
  {
    if t != "all" {
      FilterMembers(hits, OfType(t));
    }
    if SortKey(sortBy).Some? {
      SortByKeyMembers(FilterType(hits, t), SortKey(sortBy).value);
    }
  }

  /** Each sort order orders the list as its comparator says. */
  lemma ArrangedOrder(hits: seq<Hit>, t: string, sortBy: string)
    ensures var r := Arranged(hits, t, sortBy);
      forall i, j :: 0 <= i < j < |r| ==>
        (sortBy == "relevance" ==> r[i].relevance >= r[j].relevance)
        && (sortBy == "likes" ==> r[i].item.likes >= r[j].item.likes)
        && (sortBy == "newest" ==> r[i].item.id >= r[j].item.id)
        && (sortBy == "oldest" ==> r[i].item.id <= r[j].item.id)
  {
    var f := FilterType(hits, t);
    var r := Arranged(hits, t, sortBy);
    if SortKey(sortBy).Some? {
      var key := SortKey(sortBy).value;
      SortByKeySorted(f, key);
      forall i, j | 0 <= i < j < |r|
        ensures (sortBy == "relevance" ==> r[i].relevance >= r[j].relevance)
          && (sortBy == "likes" ==> r[i].item.likes >= r[j].item.likes)
          && (sortBy == "newest" ==> r[i].item.id >= r[j].item.id)
          && (sortBy == "oldest" ==> r[i].item.id <= r[j].item.id)
      {
        assert key(r[i]) <= key(r[j]);
      }
    }
  }

  /** The state of the search page. */
  class SearchPage {
    var query: string
    var searchResults: seq<Hit>
    var filteredResults: seq<Hit>
    var loading: bool
    var sortBy: string
    var visibleItems: nat
    var loadingMore: bool
    var filters: map<string, string>

    ghost predicate Valid()
      reads this
    {
      "type" in filters
    }

    constructor(query: string)
      ensures Valid()
      ensures this.query == query
      ensures searchResults == [] && filteredResults == [] && loading
      ensures sortBy == "relevance" && visibleItems == 12 && !loadingMore
      ensures filters == map["type" := "all"]
    {
      this.query := query;
      searchResults := [];
      filteredResults := [];
      loading := true;
      sortBy := "relevance";
      visibleItems := 12;
      loadingMore := false;
      filters := map["type" := "all"];
    }

    /** `performSearch`: `data` is the pair of catalogues, or `None` when
        loading them fails. A blank query, or a failure, leaves both lists
        empty. */
    method PerformSearch(data: Option<(seq<Item>, seq<Item>)>)
      modifies this
      ensures query == old(query)
      ensures searchResults == (if data.None? then [] else SearchResults(query, data.value.0, data.value.1))
      ensures filteredResults == searchResults
      ensures !loading
      ensures sortBy == old(sortBy) && visibleItems == old(visibleItems)
      ensures loadingMore == old(loadingMore) && filters == old(filters)
    {
      loading := true;
      if data.None? {
        searchResults := [];
        filteredResults := [];
        loading := false;
        return;
      }
      var (images, videos) := data.value;
      var allData := AllData(images, videos);
      TrimEmptyIffBlank(query);
      if Trim(query) == [] {
        searchResults := [];
        filteredResults := [];
        loading := false;
        return;
      }
      var terms := Terms(query);
      var results := SearchInPrompts(allData, terms);
      var resultsWithScore := ScoreResults(results, terms);
      searchResults := resultsWithScore;
      filteredResults := resultsWithScore;
      loading := false;
    }

    /** A new `?q=` while the page stays mounted (the header's search box,
        or `handleNewSearch`): the query changes and the search effect runs
        again, while the visible count, the filters and the sort order are
        kept. */
    method ChangeQuery(newQuery: string, data: Option<(seq<Item>, seq<Item>)>)
      modifies this
      ensures query == newQuery
      ensures searchResults == (if data.None? then [] else SearchResults(newQuery, data.value.0, data.value.1))
      ensures filteredResults == searchResults && !loading
      ensures sortBy == old(sortBy) && visibleItems == old(visibleItems)
      ensures loadingMore == old(loadingMore) && filters == old(filters)
    {
      query := newQuery;
      PerformSearch(data);
    }

    /** The filter-and-sort effect: copies the results, filters by type and
        sorts the copy in place. */
    method ApplyFilters()
      requires Valid()
      modifies this
      ensures Valid()
      ensures filteredResults == Arranged(searchResults, filters["type"], sortBy)
      ensures searchResults == old(searchResults) && filters == old(filters) && sortBy == old(sortBy)
      ensures visibleItems == old(visibleItems) && loadingMore == old(loadingMore) && loading == old(loading)
      ensures query == old(query)
    {
      var filtered := searchResults;
      var t := filters["type"];
      if t != "all" {
        filtered := Filter(filtered, OfType(t));
      }
      var key := SortKey(sortBy);
      if key.Some? {
        var a := new Hit[|filtered|](k requires 0 <= k < |filtered| => filtered[k]);
        assert a[..] == filtered;
        SortInPlace(a, key.value);
        filtered := a[..];
      }
      filteredResults := filtered;
    }

    /** `loadMoreItems`, with the 300 ms delay taken as done. */
    method LoadMore()
      modifies this
      ensures old(loadingMore) || old(visibleItems) >= |filteredResults| ==> visibleItems == old(visibleItems)
      ensures !old(loadingMore) && old(visibleItems) < |filteredResults| ==>
        visibleItems == Min(old(visibleItems) + 12, |filteredResults|)
      ensures loadingMore == old(loadingMore)
      ensures searchResults == old(searchResults) && filteredResults == old(filteredResults)
      ensures filters == old(filters) && sortBy == old(sortBy) && loading == old(loading)
      ensures query == old(query)
    {
      if loadingMore || visibleItems >= |filteredResults| {
        return;
      }
      loadingMore := true;
      visibleItems := Min(visibleItems + 12, |filteredResults|);
      loadingMore := false;
    }

    /** `handleFilterChange`: sets one filter and shows 12 items again. */
    method HandleFilterChange(filterKey: string, value: string)
      modifies this
      ensures filters == old(filters)[filterKey := value]
      ensures visibleItems == 12
      ensures old(Valid()) ==> Valid()
      ensures searchResults == old(searchResults) && filteredResults == old(filteredResults)
      ensures sortBy == old(sortBy) && loadingMore == old(loadingMore) && loading == old(loading)
      ensures query == old(query)
    {
      filters := filters[filterKey := value];
      visibleItems := 12;
    }

    /** The sort selector's `onChange`. */
    method SetSortBy(value: string)
      modifies this
      ensures sortBy == value
      ensures searchResults == old(searchResults) && filteredResults == old(filteredResults)
      ensures filters == old(filters) && visibleItems == old(visibleItems)
      ensures loadingMore == old(loadingMore) && loading == old(loading)
      ensures query == old(query)
    {
      sortBy := value;
    }

    /** `handleNewSearch`: the page's own search box and its suggestion tags
        lead to the same route as the search modal, the query encoded as
        typed. */
    method HandleNewSearch(newQuery: string) returns (navigateTo: string)
      ensures navigateTo == SearchModal.SearchRoute(newQuery)
      ensures navigateTo[10..] == SearchModal.Encode(newQuery)
    {
      navigateTo := SearchModal.SearchRoute(newQuery);
    }

    /** `filteredResults.slice(0, visibleItems)`. */
    function VisibleResults(): (r: seq<Hit>)
      reads this
      ensures |r| == Min(visibleItems, |filteredResults|)
      ensures r == filteredResults[..|r|]
    {
      filteredResults[..Min(visibleItems, |filteredResults|)]
    }
  }

  function Min(a: int, b: int): int {
    if a < b then a else b
  }
}
