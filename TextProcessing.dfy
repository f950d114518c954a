/** The text utilities of the similar-items page: a suffix stemmer, a synonym
    table with related-word expansion, a term frequency and a cosine measure
    over word lists. */
module TextProcessing {
  import opened Wrappers
  import opened Text

  // ---------------------------------------------------------------- stemming

  /** A case-insensitive rule `/suffix$/i` with its replacement. */
  datatype Rule = Rule(suffix: string, replacement: string)

  /** The stemmer's rule table in the order it is written, its repeated
      entries included. */
  const StemRules: seq<Rule> := [
    Rule("ies", "y"), Rule("ied", "y"), Rule("ying", "y"), Rule("ing", ""),
    Rule("ly", ""), Rule("ed", ""), Rule("ies", "y"), Rule("ied", "y"),
    Rule("ies", "y"), Rule("s", "")]

  /** The seven distinct rules, in the order in which they first appear. */
  const CascadeRules: seq<Rule> := [
    Rule("ies", "y"), Rule("ied", "y"), Rule("ying", "y"), Rule("ing", ""),
    Rule("ly", ""), Rule("ed", ""), Rule("s", "")]

  /** Rewrites the suffix of `w` named by the first rule from index `i` on
      that matches it; `w` itself when no such rule matches. */
  function ApplyFrom(w: string, rules: seq<Rule>, i: nat): string
    decreases |rules| - i
  {
    if i >= |rules| then w
    else if EndsWith(w, rules[i].suffix) then w[..|w| - |rules[i].suffix|] + rules[i].replacement
    else ApplyFrom(w, rules, i + 1)
  }

  function ApplyFirst(w: string, rules: seq<Rule>): string {
    ApplyFrom(w, rules, 0)
  }

  /** The stem of a word: the word lower-cased, then the first of the rules
      ies, ied, ying, ing, ly, ed, s whose suffix ends it rewritten. */
  function Stemmed(word: string): string {
    ApplyFirst(ToLower(word), CascadeRules)
  }

  /** The rewrite is decided by the first matching rule, and only by it. */
  lemma {:induction false} ApplyFromAt(w: string, rules: seq<Rule>, i: nat, k: nat)
    requires i <= k < |rules|
    requires EndsWith(w, rules[k].suffix)
    requires forall j :: i <= j < k ==> !EndsWith(w, rules[j].suffix)
    ensures ApplyFrom(w, rules, i) == w[..|w| - |rules[k].suffix|] + rules[k].replacement
    decreases k - i
  {
    if i < k {
      ApplyFromAt(w, rules, i + 1, k);
    }
  }

  /** A word that no rule from index `i` on matches is left as it is. */
  lemma {:induction false} ApplyFromNone(w: string, rules: seq<Rule>, i: nat)
    requires forall j :: i <= j < |rules| ==> !EndsWith(w, rules[j].suffix)
    ensures ApplyFrom(w, rules, i) == w
    decreases |rules| - i
  {
    if i < |rules| {
      ApplyFromNone(w, rules, i + 1);
    }
  }

  lemma ApplyFirstAt(w: string, rules: seq<Rule>, k: nat)
    requires k < |rules|
    requires EndsWith(w, rules[k].suffix)
    requires forall j :: 0 <= j < k ==> !EndsWith(w, rules[j].suffix)
    ensures ApplyFirst(w, rules) == w[..|w| - |rules[k].suffix|] + rules[k].replacement
  {
    ApplyFromAt(w, rules, 0, k);
  }

  lemma ApplyFirstNone(w: string, rules: seq<Rule>)
    requires forall j :: 0 <= j < |rules| ==> !EndsWith(w, rules[j].suffix)
    ensures ApplyFirst(w, rules) == w
  {
    ApplyFromNone(w, rules, 0);
  }

  /** From index 6 on, the table holds ies, ied, ies, s and the cascade
      only s: they agree on words that end in neither ies nor ied. */
  lemma TableTail(w: string)
    requires !EndsWith(w, "ies") && !EndsWith(w, "ied")
    ensures ApplyFrom(w, StemRules, 6) == ApplyFrom(w, CascadeRules, 6)
  {
    assert ApplyFrom(w, StemRules, 6) == ApplyFrom(w, StemRules, 7);
    assert ApplyFrom(w, StemRules, 7) == ApplyFrom(w, StemRules, 8);
    assert ApplyFrom(w, StemRules, 8) == ApplyFrom(w, StemRules, 9);
    assert ApplyFrom(w, StemRules, 10) == w == ApplyFrom(w, CascadeRules, 7);
  }

  /** The first six entries of the table and of the cascade are the same
      rules, so a step over one of them keeps the two in agreement. */
  lemma TableHeadStep(w: string, i: nat)
    requires i < 6
    requires ApplyFrom(w, StemRules, i + 1) == ApplyFrom(w, CascadeRules, i + 1)
    ensures ApplyFrom(w, StemRules, i) == ApplyFrom(w, CascadeRules, i)
  {
    assert StemRules[..6] == CascadeRules[..6];
    assert StemRules[i] == StemRules[..6][i];
    assert CascadeRules[i] == CascadeRules[..6][i];
  }

  /** The repeated entries of the table are never reached: the table and the
      seven-rule cascade rewrite every word alike. */
  lemma TableIsCascade(w: string)
    ensures ApplyFirst(w, StemRules) == ApplyFirst(w, CascadeRules)
  {
    if !EndsWith(w, "ies") && !EndsWith(w, "ied") {
      TableTail(w);
      TableHeadStep(w, 5);
      TableHeadStep(w, 4);
      TableHeadStep(w, 3);
      TableHeadStep(w, 2);
      TableHeadStep(w, 1);
      TableHeadStep(w, 0);
    } else {
      TableHead(w);
    }
  }

  lemma TableHead(w: string)
    requires EndsWith(w, "ies") || EndsWith(w, "ied")
    ensures ApplyFirst(w, StemRules) == ApplyFirst(w, CascadeRules)
  {
    assert StemRules[0] == CascadeRules[0] && StemRules[1] == CascadeRules[1];
  }

  /** `stem`: lower-cases the word, then walks the rule table and applies
      the first rule that matches, stopping there. */
  method Stem(word: string) returns (stemmed: string)
    ensures stemmed == Stemmed(word)
  {
    stemmed := ToLower(word);
    ghost var w := stemmed;
    var i := 0;
    while i < |StemRules|
      invariant 0 <= i <= |StemRules|
      invariant stemmed == w
      invariant ApplyFrom(w, StemRules, i) == ApplyFirst(w, StemRules)
    {
      var rule := StemRules[i];
      if EndsWith(stemmed, rule.suffix) {
        stemmed := stemmed[..|stemmed| - |rule.suffix|] + rule.replacement;
        break;
      }
      i := i + 1;
    }
    TableIsCascade(w);
  }

  lemma {:induction false} ApplyFromShape(w: string, rules: seq<Rule>, i: nat)
    requires IsLower(w)
    requires forall j :: 0 <= j < |rules| ==> IsLower(rules[j].replacement)
    requires forall j :: 0 <= j < |rules| ==> |rules[j].replacement| <= |rules[j].suffix|
    ensures IsLower(ApplyFrom(w, rules, i))
    ensures |ApplyFrom(w, rules, i)| <= |w|
    decreases |rules| - i
  {
    if i < |rules| && !EndsWith(w, rules[i].suffix) {
      ApplyFromShape(w, rules, i + 1);
    }
  }

  /** A stem is lower case and never longer than its word. */
  lemma StemmedShape(word: string)
    ensures IsLower(Stemmed(word))
    ensures |Stemmed(word)| <= |word|
  {
    ToLowerIdempotent(word);
    ApplyFromShape(ToLower(word), CascadeRules, 0);
  }

  /** A word with none of the seven suffixes comes back only lower-cased. */
  lemma StemmedNoSuffix(word: string)
    requires forall j :: 0 <= j < |CascadeRules| ==> !EndsWith(ToLower(word), CascadeRules[j].suffix)
    ensures Stemmed(word) == ToLower(word)
  {
    ApplyFirstNone(ToLower(word), CascadeRules);
  }

  // --------------------------------------------------------------- synonyms

  /** The synonym table, in the order of its keys. */
  const Synonyms: seq<(string, seq<string>)> := [
    ("fantasy", ["magical", "mythical", "enchanted", "mystical", "fairy", "legendary"]),
    ("dragon", ["wyvern", "drake", "serpent", "beast", "monster"]),
    ("castle", ["fortress", "palace", "citadel", "stronghold", "keep"]),
    ("cyberpunk", ["futuristic", "dystopian", "neon", "cyber", "digital", "tech"]),
    ("space", ["cosmic", "stellar", "galactic", "universe", "astronomy", "planetary"]),
    ("ocean", ["sea", "marine", "aquatic", "underwater", "nautical", "maritime"]),
    ("forest", ["woodland", "jungle", "trees", "nature", "wilderness"]),
    ("robot", ["android", "cyborg", "automaton", "ai", "artificial", "mechanical"]),
    ("magic", ["spell", "enchantment", "sorcery", "wizardry", "mystical"]),
    ("urban", ["city", "metropolitan", "downtown", "street", "cityscape"]),
    ("vintage", ["retro", "classic", "antique", "old-fashioned", "nostalgic"]),
    ("bright", ["colorful", "vibrant", "brilliant", "luminous", "radiant"]),
    ("dark", ["gloomy", "shadowy", "mysterious", "noir", "gothic"])]

  /** The list stored under `key`, if `key` is one of the table's keys. */
  function Lookup(table: seq<(string, seq<string>)>, key: string): Option<seq<string>> {
    if table == [] then None
    else if table[0].0 == key then Some(table[0].1)
    else Lookup(table[1..], key)
  }

  /** A lookup succeeds exactly for the table's keys and yields an entry of
      the table. */
  lemma {:induction false} LookupSpec(table: seq<(string, seq<string>)>, key: string)
    ensures Lookup(table, key).Some? <==> exists e :: e in table && e.0 == key
    ensures Lookup(table, key).Some? ==> (key, Lookup(table, key).value) in table
  {
    if table != [] && table[0].0 != key {
      LookupSpec(table[1..], key);
      assert forall e :: e in table <==> e == table[0] || e in table[1..];
    }
  }

  /** Every key whose list holds `word`, each followed by its whole list,
      in table order. */
  function ListsHolding(table: seq<(string, seq<string>)>, word: string): seq<string> {
    if table == [] then []
    else (if word in table[0].1 then [table[0].0] + table[0].1 else [])
         + ListsHolding(table[1..], word)
  }

  lemma {:induction false} ListsHoldingMembers(table: seq<(string, seq<string>)>, word: string, x: string)
    ensures x in ListsHolding(table, word)
        <==> exists e :: e in table && word in e.1 && (x == e.0 || x in e.1)
  {
    if table != [] {
      ListsHoldingMembers(table[1..], word, x);
      var e0 := table[0];
      if word in e0.1 && (x == e0.0 || x in e0.1) {
        assert e0 in table;
      }
      assert forall e :: e in table <==> e == e0 || e in table[1..];
    }
  }

  predicate NoDuplicates<T(==)>(s: seq<T>) {
    forall i, j :: 0 <= i < j < |s| ==> s[i] != s[j]
  }

  /** `[...new Set(s)]`: the distinct elements of `s` in the order of their
      first occurrence. */
  function Dedup<T(==)>(s: seq<T>): (r: seq<T>)
    ensures |r| <= |s|
  {
    if s == [] then []
    else
      var d := Dedup(s[..|s| - 1]);
      if s[|s| - 1] in d then d else d + [s[|s| - 1]]
  }

  /** The result has no repetitions and holds exactly the elements of `s`. */
  lemma {:induction false} DedupSpec<T>(s: seq<T>)
    ensures NoDuplicates(Dedup(s))
    ensures forall x :: x in Dedup(s) <==> x in s
  {
    if s != [] {
      var p := s[..|s| - 1];
      DedupSpec(p);
      assert s == p + [s[|s| - 1]];
    }
  }

  /** The first element survives in first place. */
  lemma {:induction false} DedupHead<T>(s: seq<T>)
    requires s != []
    ensures Dedup(s) != [] && Dedup(s)[0] == s[0]
  {
    if |s| > 1 {
      DedupHead(s[..|s| - 1]);
      assert s[..|s| - 1][0] == s[0];
    }
  }

  /** A list without repetitions is left as it is. */
  lemma {:induction false} DedupOfDistinct<T>(s: seq<T>)
    requires NoDuplicates(s)
    ensures Dedup(s) == s
  {
    if s != [] {
      var p := s[..|s| - 1];
      DedupOfDistinct(p);
      assert s[|s| - 1] !in p;
      assert s == p + [s[|s| - 1]];
    }
  }

  /** The list stored under `key`, or no words when `key` is not a key. */
  function ListUnder(table: seq<(string, seq<string>)>, key: string): seq<string> {
    match Lookup(table, key)
    case Some(l) => l
    case None => []
  }

  /** The expansion before duplicates are removed: the word, its stem, the
      stem's list when the stem is a key, and every key (with its list) whose
      list holds the stem. */
  function Expand(word: string, st: string, table: seq<(string, seq<string>)>): seq<string> {
    [word, st] + ListUnder(table, st) + ListsHolding(table, st)
  }

  /** `getRelatedWords`. */
  function RelatedWords(word: string): seq<string> {
    Dedup(Expand(word, Stemmed(word), Synonyms))
  }

  /** `x` is a key, or a word of the list of a key, whose list holds `st`. */
  predicate SharesList(table: seq<(string, seq<string>)>, st: string, x: string) {
    exists e :: e in table && st in e.1 && (x == e.0 || x in e.1)
  }

  lemma ExpandMembers(word: string, st: string, table: seq<(string, seq<string>)>, x: string)
    ensures x in Expand(word, st, table) <==>
      x == word || x == st || x in ListUnder(table, st) || SharesList(table, st, x)
  {
    ListsHoldingMembers(table, st, x);
  }

  /** The related words are duplicate-free, start with the word itself, and
      are exactly the word, its stem, the stem's synonyms and the keys (with
      their lists) whose lists hold the stem. */
  lemma RelatedWordsSpec(word: string)
    ensures NoDuplicates(RelatedWords(word))
    ensures RelatedWords(word) != [] && RelatedWords(word)[0] == word
    ensures forall x :: x in RelatedWords(word) <==>
      x == word || x == Stemmed(word) || x in ListUnder(Synonyms, Stemmed(word)) || SharesList(Synonyms, Stemmed(word), x)
  {
    var raw := Expand(word, Stemmed(word), Synonyms);
    DedupHead(raw);
    DedupSpec(raw);
    forall x
      ensures x in raw <==>
        x == word || x == Stemmed(word) || x in ListUnder(Synonyms, Stemmed(word)) || SharesList(Synonyms, Stemmed(word), x)
    {
      ExpandMembers(word, Stemmed(word), Synonyms, x);
    }
  }

  /** The lower-case names every object literal inherits from
      `Object.prototype`: a stem (always lower case) can name only these. */
  const InheritedNames: set<string> := {"constructor", "__proto__"}

  /** What `synonyms[key]` reads on the object literal: an own key's list,
      the truthy value an inherited name reaches (a function, or the
      prototype object, neither of which can be spread), or `undefined`. */
  datatype Entry = OwnList(list: seq<string>) | InheritedValue | Absent

  function LookupAsWritten(table: seq<(string, seq<string>)>, key: string): (r: Entry)
    ensures r.OwnList? <==> Lookup(table, key).Some?
    ensures r.InheritedValue? <==> Lookup(table, key).None? && key in InheritedNames
  {
    match Lookup(table, key)
    case Some(l) => OwnList(l)
    case None => if key in InheritedNames then InheritedValue else Absent
  }

  /** `getRelatedWords` as written, over a table and a stem: the spread of
      an inherited value throws a `TypeError`, which stands here as no
      result. */
  function RelatedIn(table: seq<(string, seq<string>)>, word: string, st: string): Option<seq<string>> {
    match LookupAsWritten(table, st)
    case InheritedValue => None
    case OwnList(l) => Some(Dedup([word, st] + l + ListsHolding(table, st)))
    case Absent => Some(Dedup([word, st] + ListsHolding(table, st)))
  }

  lemma RelatedInSpec(table: seq<(string, seq<string>)>, word: string, st: string)
    ensures RelatedIn(table, word, st).None? <==> Lookup(table, st).None? && st in InheritedNames
    ensures RelatedIn(table, word, st).Some? ==> RelatedIn(table, word, st).value == Dedup(Expand(word, st, table))
  {
    match Lookup(table, st)
    case Some(l) =>
      assert ListUnder(table, st) == l;
    case None =>
      assert ListUnder(table, st) == [];
      assert [word, st] + [] + ListsHolding(table, st) == [word, st] + ListsHolding(table, st);
  }

  /** `getRelatedWords` on the page's synonym table, as written. */
  function RelatedWordsAsWritten(word: string): Option<seq<string>> {
    RelatedIn(Synonyms, word, Stemmed(word))
  }

  /** A table none of whose keys has the length and first letter of `key`
      has no entry under it. */
  lemma {:induction false} LookupUnlike(table: seq<(string, seq<string>)>, key: string)
    requires key != []
    requires forall i :: 0 <= i < |table| ==> |table[i].0| < |key| || (table[i].0 != [] && table[i].0[0] != key[0])
    ensures Lookup(table, key).None?
  {
    if table != [] {
      LookupUnlike(table[1..], key);
    }
  }

  /** No key of the synonym table is an inherited name. */
  lemma SynonymKeysOwn(key: string)
    requires key in InheritedNames
    ensures Lookup(Synonyms, key).None?
  {
    assert key == "constructor" || key == "__proto__";
    SynonymKeysUnlike(key);
  }

  lemma SynonymKeysUnlike(key: string)
    requires key == "constructor" || key == "__proto__"
    ensures Lookup(Synonyms, key).None?
  {
    LookupUnlike(Synonyms, key);
  }

  /** The code as written throws exactly for a word whose stem is an
      inherited name, and otherwise lists what the own-key expansion
      `RelatedWords` lists. */
  lemma RelatedWordsAsWrittenSpec(word: string)
    ensures RelatedWordsAsWritten(word).None? <==> Stemmed(word) in InheritedNames
    ensures RelatedWordsAsWritten(word).Some? ==> RelatedWordsAsWritten(word).value == RelatedWords(word)
  {
    var st := Stemmed(word);
    RelatedInSpec(Synonyms, word, st);
    if st in InheritedNames {
      SynonymKeysOwn(st);
    }
  }

  /** `constructor` has none of the seven suffixes and is its own stem. */
  lemma ConstructorStem()
    ensures Stemmed("constructor") == "constructor"
  {
    var w := "constructor";
    assert IsLower(w);
    assert w[|w| - 1] == 'r';
    StemmedByLastLetter(w);
  }

  /** A word whose last letter is not the suffix's does not end with it. */
  lemma LastLetterDiffers(w: string, suffix: string)
    requires w != [] && suffix != [] && w[|w| - 1] != suffix[|suffix| - 1]
    ensures !EndsWith(w, suffix)
  {
  }

  /** A lower-case word ending in none of the rules' last letters s, d, g,
      y is its own stem. */
  lemma StemmedByLastLetter(w: string)
    requires w != [] && IsLower(w)
    requires w[|w| - 1] != 's' && w[|w| - 1] != 'd' && w[|w| - 1] != 'g' && w[|w| - 1] != 'y'
    ensures Stemmed(w) == w
  {
    ToLowerOfLower(w);
    forall j | 0 <= j < |CascadeRules|
      ensures !EndsWith(ToLower(w), CascadeRules[j].suffix)
    {
      LastLetterDiffers(w, CascadeRules[j].suffix);
    }
    StemmedNoSuffix(w);
  }

  /** A reference keyword `constructor` makes `getRelatedWords` as written
      throw, while the own-key expansion lists the word. */
  lemma ConstructorThrows()
    ensures RelatedWordsAsWritten("constructor").None?
    ensures RelatedWords("constructor") != [] && RelatedWords("constructor")[0] == "constructor"
  {
    ConstructorStem();
    RelatedWordsAsWrittenSpec("constructor");
    RelatedWordsSpec("constructor");
  }

  // ------------------------------------------------------ term frequency

  /** Some word of `words` contains `term`. */
  predicate SomeContains(words: seq<string>, term: string) {
    exists i :: 0 <= i < |words| && Contains(words[i], term)
  }

  /** How many of `words` contain `term`. */
  function CountContaining(words: seq<string>, term: string): (n: nat)
    ensures n <= |words|
  {
    if words == [] then 0
    else CountContaining(words[..|words| - 1], term) + (if Contains(words[|words| - 1], term) then 1 else 0)
  }

  /** The count is positive exactly when some word contains the term. */
  lemma {:induction false} CountContainingPositive(words: seq<string>, term: string)
    ensures CountContaining(words, term) > 0 <==> SomeContains(words, term)
  {
    if words != [] {
      var p := words[..|words| - 1];
      CountContainingPositive(p, term);
      assert forall i :: 0 <= i < |p| ==> p[i] == words[i];
      if Contains(words[|words| - 1], term) {
        assert SomeContains(words, term) by {
          assert 0 <= |words| - 1 < |words| && Contains(words[|words| - 1], term);
        }
      }
    }
  }

  /** `calculateTermFrequency`: the share of the text's white-space-separated
      words that contain the term. */
  function TermFrequency(term: string, text: string): (r: real)
    ensures 0.0 <= r <= 1.0
    ensures r > 0.0 <==> CountContaining(SplitRuns(ToLower(text), IsSpace), term) > 0
  {
    var words := SplitRuns(ToLower(text), IsSpace);
    var n := CountContaining(words, term);
    ShareBounds(n, |words|);
    n as real / |words| as real
  }

  /** The frequency is positive exactly when some white-space-separated word
      of the lower-cased text contains the term. */
  lemma TermFrequencyPositive(term: string, text: string)
    ensures TermFrequency(term, text) > 0.0 <==> SomeContains(SplitRuns(ToLower(text), IsSpace), term)
  {
    CountContainingPositive(SplitRuns(ToLower(text), IsSpace), term);
  }

  /** A part `n` of a whole `m` is a share between 0 and 1, positive exactly
      when the part is. */
  lemma ShareBounds(n: nat, m: nat)
    requires 0 < m && n <= m
    ensures 0.0 <= n as real / m as real <= 1.0
    ensures n as real / m as real > 0.0 <==> n > 0
  {
    var q := n as real / m as real;
    assert q * m as real == n as real;
  }

  // ------------------------------------------------------- cosine measure

  /** What the model assumes of `Math.sqrt` on non-negative numbers. */
  ghost predicate SqrtLaws(sqrt: real -> real) {
    forall x :: 0.0 <= x ==> 0.0 <= sqrt(x) && (sqrt(x) == 0.0 <==> x == 0.0)
  }

  /** `vec1.filter(x => vec2.includes(x)).length`: the elements of `v1`
      present in `v2`, counted with repetition. */
  function CountPresent(v1: seq<string>, v2: seq<string>): (n: nat)
    ensures n <= |v1|
  {
    if v1 == [] then 0
    else CountPresent(v1[..|v1| - 1], v2) + (if v1[|v1| - 1] in v2 then 1 else 0)
  }

  /** No shared element exactly when the count is zero. */
  lemma {:induction false} CountPresentZero(v1: seq<string>, v2: seq<string>)
    ensures CountPresent(v1, v2) == 0 <==> forall i :: 0 <= i < |v1| ==> v1[i] !in v2
  {
    if v1 != [] {
      var p := v1[..|v1| - 1];
      CountPresentZero(p, v2);
      assert forall i :: 0 <= i < |p| ==> p[i] == v1[i];
    }
  }

  /** Duplicates count: every element of `v1` present in `v2` is counted,
      however often it occurs. */
  lemma {:induction false} CountPresentAll(v1: seq<string>, v2: seq<string>)
    requires forall i :: 0 <= i < |v1| ==> v1[i] in v2
    ensures CountPresent(v1, v2) == |v1|
  {
    if v1 != [] {
      var p := v1[..|v1| - 1];
      assert forall i :: 0 <= i < |p| ==> p[i] == v1[i];
      CountPresentAll(p, v2);
    }
  }

  /** `cosineSimilarity`: zero when either list is empty, otherwise the
      number of shared elements over the product of the square roots of the
      lengths. */
  function Cosine(v1: seq<string>, v2: seq<string>, sqrt: real -> real): (r: real)
    requires SqrtLaws(sqrt)
    ensures 0.0 <= r
    ensures (v1 == [] || v2 == []) ==> r == 0.0
    ensures v1 != [] && v2 != [] ==> r == CountPresent(v1, v2) as real / (sqrt(|v1| as real) * sqrt(|v2| as real))
    ensures r == 0.0 <==> v1 == [] || v2 == [] || CountPresent(v1, v2) == 0
  {
    var m1 := sqrt(|v1| as real);
    var m2 := sqrt(|v2| as real);
    if m1 == 0.0 || m2 == 0.0 then 0.0
    else
      assert m1 * m2 > 0.0;
      CountPresent(v1, v2) as real / (m1 * m2)
  }
}
