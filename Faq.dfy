/** The FAQ page: questions grouped by category, narrowed by a search term,
    with an open/closed state per question. */
module Faq {
  import opened Wrappers
  import opened Lists
  import opened Text

  datatype Entry = Entry(question: string, answer: string)

  /** The search test against an already lower-cased term. */
  function Mentions(term: string): Entry -> bool {
    (e: Entry) => Contains(ToLower(e.question), term) || Contains(ToLower(e.answer), term)
  }

  /** `filteredFAQs`: the entries of the category that mention the term; an
      unknown category has none. */
  function FilteredFaqs(data: map<string, seq<Entry>>, category: string, term: string): seq<Entry> {
    if category in data then Filter(data[category], Mentions(ToLower(term))) else []
  }

  /** An unknown category lists nothing; otherwise an entry is listed iff
      its lower-cased question or answer contains the lower-cased term, and
      the list keeps the category's order. */
  lemma FilteredFaqsSpec(data: map<string, seq<Entry>>, category: string, term: string)
    ensures category !in data ==> FilteredFaqs(data, category, term) == []
    ensures category in data ==>
      Subsequence(FilteredFaqs(data, category, term), data[category])
      && forall e :: e in FilteredFaqs(data, category, term) <==>
        e in data[category] && (Contains(ToLower(e.question), ToLower(term)) || Contains(ToLower(e.answer), ToLower(term)))
  {
    if category in data {
      FilterMembers(data[category], Mentions(ToLower(term)));
      FilterSubsequence(data[category], Mentions(ToLower(term)));
    }
  }

  /** Every text contains the empty text, so an empty term lists the whole
      category. */
  lemma {:induction false} FilterEverything(s: seq<Entry>)
    ensures Filter(s, Mentions([])) == s
  {
    if s != [] {
      FilterEverything(s[..|s| - 1]);
      ContainsEmpty(ToLower(s[|s| - 1].question));
      assert s[..|s| - 1] + [s[|s| - 1]] == s;
    }
  }

  lemma EmptyTermListsAll(data: map<string, seq<Entry>>, category: string)
    requires category in data
    ensures FilteredFaqs(data, category, "") == data[category]
  {
    assert ToLower("") == [];
    FilterEverything(data[category]);
  }

  /** The count beside a category button: `faqData[id]?.length || 0`. */
  function CategoryCount(data: map<string, seq<Entry>>, id: string): (n: nat)
    ensures id in data ==> n == |data[id]|
    ensures id !in data ==> n == 0
  {
    if id in data then |data[id]| else 0
  }

  /** The open-state key of the question at `index` in the filtered list. */
  function ItemKey(category: string, index: nat): string {
    category + "_" + IntToString(index)
  }

  /** Within a category, different positions have different keys. */
  lemma ItemKeyInjective(category: string, i: nat, j: nat)
    requires ItemKey(category, i) == ItemKey(category, j)
    ensures i == j
  {
    var n := |category| + 1;
    assert ItemKey(category, i)[n..] == IntToString(i);
    assert ItemKey(category, j)[n..] == IntToString(j);
    ParseIntOfIntToString(i);
    ParseIntOfIntToString(j);
  }

  /** A key is open when the map says so; a missing key is closed. */
  predicate IsOpen(openItems: map<string, bool>, key: string) {
    key in openItems && openItems[key]
  }

  /** `toggleItem`: the key is set to the negation of its state. */
  function Toggled(openItems: map<string, bool>, key: string): (r: map<string, bool>)
    ensures IsOpen(r, key) == !IsOpen(openItems, key)
    ensures forall k :: k != key ==> (k in r <==> k in openItems) && (k in openItems ==> r[k] == openItems[k])
    ensures key in r
  {
    openItems[key := !IsOpen(openItems, key)]
  }

  /** Toggling twice restores the state of every key, and restores the map
      itself when the key was already in it. */
  lemma ToggledTwice(openItems: map<string, bool>, key: string)
    ensures forall k :: IsOpen(Toggled(Toggled(openItems, key), key), k) == IsOpen(openItems, k)
    ensures key in openItems ==> Toggled(Toggled(openItems, key), key) == openItems
  {
    var t := Toggled(Toggled(openItems, key), key);
    if key in openItems {
      assert t.Keys == openItems.Keys;
    }
  }

  /** The state of the FAQ page over the question table. */
  class FaqPage {
    const data: map<string, seq<Entry>>
    var activeCategory: string
    var openItems: map<string, bool>
    var searchTerm: string

    constructor(data: map<string, seq<Entry>>)
      ensures this.data == data
      ensures activeCategory == "general" && openItems == map[] && searchTerm == ""
    {
      this.data := data;
      activeCategory := "general";
      openItems := map[];
      searchTerm := "";
    }

    function Shown(): seq<Entry>
      reads this
    {
      FilteredFaqs(data, activeCategory, searchTerm)
    }

    /** A category button. */
    method SetActiveCategory(id: string)
      modifies this
      ensures activeCategory == id && openItems == old(openItems) && searchTerm == old(searchTerm)
    {
      activeCategory := id;
    }

    /** The search box. */
    method SetSearchTerm(term: string)
      modifies this
      ensures searchTerm == term && openItems == old(openItems) && activeCategory == old(activeCategory)
    {
      searchTerm := term;
    }

    /** A click on the question at `index` of the shown list toggles the key
        `<category>_<index>` and nothing else. */
    method ClickQuestion(index: nat)
      modifies this
      ensures openItems == Toggled(old(openItems), ItemKey(activeCategory, index))
      ensures IsOpen(openItems, ItemKey(activeCategory, index)) == !IsOpen(old(openItems), ItemKey(activeCategory, index))
      ensures activeCategory == old(activeCategory) && searchTerm == old(searchTerm)
    {
      openItems := Toggled(openItems, ItemKey(activeCategory, index));
    }
  }
}
