/** The similar-items page: the reference item named by the route, its
    keywords, the seven-signal score of every other item of the same kind,
    and the ranked, size-annotated result list. */
module Similar {
  import opened Wrappers
  import opened Lists
  import opened Text
  import opened Sorting
  import opened Media
  import opened TextProcessing

  // ------------------------------------------------------------- keywords

  /** The separator class `[,\s]` of the prompt tokeniser. */
  predicate IsWordSeparator(c: char) {
    c == ',' || IsSpace(c)
  }

  /** The stop-word list as written (`her` appears twice). */
  const StopWords: seq<string> := [
    "the", "and", "for", "are", "but", "not", "you", "all", "can", "had",
    "her", "was", "one", "our", "out", "day", "get", "has", "him", "his",
    "how", "its", "may", "new", "now", "old", "see", "two", "who", "boy",
    "did", "she", "use", "her", "way", "say"]

  predicate IsLong(w: string) {
    Utf16Length(w) > 2
  }

  /** The filter of the reference prompt's tokens. */
  predicate IsKeyword(w: string) {
    Utf16Length(w) > 2 && !Includes(StopWords, w)
  }

  /** The tokens of a lower-cased prompt split on runs of commas and white space. */
  function Tokens(prompt: string): seq<string> {
    SplitRuns(ToLower(prompt), IsWordSeparator)
  }

  /** The reference item's keywords (`originalWords`). */
  function OriginalWords(prompt: string): seq<string> {
    Filter(Tokens(prompt), IsKeyword)
  }

  /** A candidate's words (`itemWords`): no stop-word filter here. */
  function ItemWords(prompt: string): seq<string> {
    Filter(Tokens(prompt), IsLong)
  }

  /** Every token is a lower-case word without commas or white space. */
  lemma TokensShape(prompt: string)
    ensures forall w :: w in Tokens(prompt) ==> IsLower(w)
    ensures forall w, j :: w in Tokens(prompt) && 0 <= j < |w| ==> !IsWordSeparator(w[j])
  {
    var low := ToLower(prompt);
    ToLowerIdempotent(prompt);
    SplitRunsChars(low, IsWordSeparator);
    forall w | w in Tokens(prompt) ensures IsLower(w) {
      var i :| 0 <= i < |Tokens(prompt)| && Tokens(prompt)[i] == w;
      forall j | 0 <= j < |w| ensures !IsUpper(w[j]) {
        var c := w[j];
        assert c in low;
        var k :| 0 <= k < |low| && low[k] == c;
      }
    }
  }

  /** The reference keywords are exactly the tokens of the prompt longer
      than two UTF-16 code units that are not stop words. */
  lemma OriginalWordsSpec(prompt: string)
    ensures forall w :: w in OriginalWords(prompt) <==> w in Tokens(prompt) && IsKeyword(w)
  {
    FilterMembers(Tokens(prompt), IsKeyword);
  }

  /** Every reference keyword is a lower-case word without commas or white
      space. */
  lemma OriginalWordsShape(prompt: string)
    ensures forall w :: w in OriginalWords(prompt) ==> IsLower(w)
    ensures forall w, j :: w in OriginalWords(prompt) && 0 <= j < |w| ==> !IsWordSeparator(w[j])
  {
    TokensShape(prompt);
    FilterMembers(Tokens(prompt), IsKeyword);
  }

  /** A stop word is never a keyword. */
  lemma StopWordsExcluded(w: string)
    requires w in StopWords
    ensures !IsKeyword(w)
  {
    IncludesIn(StopWords, w);
  }

  /** `enhancedKeywords`: the related words of every keyword, concatenated in
      keyword order and not de-duplicated across keywords. */
  function Enhanced(words: seq<string>): seq<string> {
    FlatMap(words, RelatedWords)
  }

  /** The loop that pushes each keyword's related words. */
  method EnhanceKeywords(words: seq<string>) returns (enhanced: seq<string>)
    ensures enhanced == Enhanced(words)
  {
    enhanced := [];
    var i := 0;
    while i < |words|
      invariant 0 <= i <= |words|
      invariant enhanced == FlatMap(words[..i], RelatedWords)
    {
      assert words[..i + 1][..i] == words[..i];
      enhanced := enhanced + RelatedWords(words[i]);
      i := i + 1;
    }
    assert words[..|words|] == words;
  }

  /** A word is an enhanced keyword exactly when it is related to one of the
      keywords; in particular every keyword is one. */
  lemma EnhancedMembers(words: seq<string>, x: string)
    ensures x in Enhanced(words) <==> exists i :: 0 <= i < |words| && x in RelatedWords(words[i])
    ensures x in words ==> x in Enhanced(words)
  {
    FlatMapMembers(words, RelatedWords, x);
    if x in words {
      var k :| 0 <= k < |words| && words[k] == x;
      RelatedWordsSpec(x);
    }
  }

  /** Keywords are not merged across words: the keywords of two lists of
      words are the two lists of keywords one after the other, repeats kept. */
  lemma EnhancedAppend(a: seq<string>, b: seq<string>)
    ensures Enhanced(a + b) == Enhanced(a) + Enhanced(b)
  {
    FlatMapAppend(a, b, RelatedWords);
  }

  /** The keyword loop as written: the first keyword whose related words
      throw ends the page's computation (no result). */
  function EnhancedAsWritten(words: seq<string>): Option<seq<string>> {
    FlatMapOrFail(words, RelatedWordsAsWritten)
  }

  /** The loop as written throws exactly when some keyword stems to an
      inherited name; otherwise it builds the same keywords as `Enhanced`. */
  lemma EnhancedAsWrittenSpec(words: seq<string>)
    ensures EnhancedAsWritten(words).None? <==> exists i :: 0 <= i < |words| && Stemmed(words[i]) in InheritedNames
    ensures EnhancedAsWritten(words).Some? ==> EnhancedAsWritten(words).value == Enhanced(words)
  {
    forall x
      ensures RelatedWordsAsWritten(x).None? <==> Stemmed(x) in InheritedNames
      ensures RelatedWordsAsWritten(x).Some? ==> RelatedWordsAsWritten(x).value == RelatedWords(x)
    {
      RelatedWordsAsWrittenSpec(x);
    }
    FlatMapOrFailSpec(words, RelatedWordsAsWritten, RelatedWords);
  }

  /** A reference prompt with the keyword `constructor` (for example
      "Constructor of worlds") makes the page's keyword loop throw as
      written; the own-key expansion keeps the keyword. */
  lemma ConstructorKeywordThrows(words: seq<string>)
    requires "constructor" in words
    ensures EnhancedAsWritten(words).None?
    ensures "constructor" in Enhanced(words)
  {
    var i :| 0 <= i < |words| && words[i] == "constructor";
    ConstructorStem();
    EnhancedAsWrittenSpec(words);
    EnhancedMembers(words, "constructor");
  }

  // -------------------------------------------------------------- signals

  /** Signal 1's test for one keyword and one item word. */
  predicate WordsMatch(keyword: string, itemWord: string) {
    Stemmed(itemWord) == Stemmed(keyword) || Contains(itemWord, keyword) || Contains(keyword, itemWord)
  }

  /** How many of `itemWords` stand in relation `m` to `keyword`. */
  function MatchCount(keyword: string, itemWords: seq<string>, m: (string, string) -> bool): (n: nat)
    ensures n <= |itemWords|
  {
    if itemWords == [] then 0
    else MatchCount(keyword, itemWords[..|itemWords| - 1], m)
         + (if m(keyword, itemWords[|itemWords| - 1]) then 1 else 0)
  }

  /** The number of pairs (keyword, item word) in relation `m`, keywords
      counted with repetition. */
  function PairCount(keywords: seq<string>, itemWords: seq<string>, m: (string, string) -> bool): nat {
    if keywords == [] then 0
    else PairCount(keywords[..|keywords| - 1], itemWords, m)
         + MatchCount(keywords[|keywords| - 1], itemWords, m)
  }

  /** Signal 1's count of matching pairs. */
  function KeywordMatches(keywords: seq<string>, itemWords: seq<string>): nat {
    PairCount(keywords, itemWords, WordsMatch)
  }

  lemma {:induction false} MatchCountZero(keyword: string, itemWords: seq<string>, m: (string, string) -> bool)
    ensures MatchCount(keyword, itemWords, m) == 0 <==>
      forall j :: 0 <= j < |itemWords| ==> !m(keyword, itemWords[j])
  {
    if itemWords != [] {
      var p := itemWords[..|itemWords| - 1];
      MatchCountZero(keyword, p, m);
      assert forall j :: 0 <= j < |p| ==> p[j] == itemWords[j];
    }
  }

  lemma {:induction false} PairCountZero(keywords: seq<string>, itemWords: seq<string>, m: (string, string) -> bool)
    ensures PairCount(keywords, itemWords, m) == 0 <==>
      forall i, j :: 0 <= i < |keywords| && 0 <= j < |itemWords| ==> !m(keywords[i], itemWords[j])
  {
    if keywords != [] {
      var p := keywords[..|keywords| - 1];
      PairCountZero(p, itemWords, m);
      MatchCountZero(keywords[|keywords| - 1], itemWords, m);
      assert forall i :: 0 <= i < |p| ==> p[i] == keywords[i];
    }
  }

  lemma {:induction false} PairCountAppend(a: seq<string>, b: seq<string>, itemWords: seq<string>, m: (string, string) -> bool)
    ensures PairCount(a + b, itemWords, m) == PairCount(a, itemWords, m) + PairCount(b, itemWords, m)
    decreases |b|
  {
    if b == [] {
      assert a + b == a;
    } else {
      var bp := b[..|b| - 1];
      PairCountAppend(a, bp, itemWords, m);
      assert (a + b)[..|a + b| - 1] == a + bp;
      assert (a + b)[|a + b| - 1] == b[|b| - 1];
    }
  }

  /** Signal 1 is zero exactly when no keyword matches any item word. */
  lemma KeywordMatchesZero(keywords: seq<string>, itemWords: seq<string>)
    ensures KeywordMatches(keywords, itemWords) == 0 <==>
      forall i, j :: 0 <= i < |keywords| && 0 <= j < |itemWords| ==> !WordsMatch(keywords[i], itemWords[j])
  {
    PairCountZero(keywords, itemWords, WordsMatch);
  }

  /** Counting is additive over the keyword list, so a keyword that two
      original words both produce is counted twice. */
  lemma KeywordMatchesAppend(a: seq<string>, b: seq<string>, itemWords: seq<string>)
    ensures KeywordMatches(a + b, itemWords) == KeywordMatches(a, itemWords) + KeywordMatches(b, itemWords)
  {
    PairCountAppend(a, b, itemWords, WordsMatch);
  }

  /** `originalWords.map(w => stem(w))`. */
  function StemAll(words: seq<string>): (r: seq<string>)
    ensures |r| == |words|
  {
    if words == [] then [] else StemAll(words[..|words| - 1]) + [Stemmed(words[|words| - 1])]
  }

  /** The contribution of one keyword to signal 3. */
  function FrequencyTerm(word: string, itemPrompt: string): real {
    var tf := TermFrequency(word, itemPrompt);
    if tf > 0.0 then tf * 20.0 else 0.0
  }

  /** Signal 3: twenty times the term frequency of every keyword. */
  function FrequencySignal(words: seq<string>, itemPrompt: string): (r: real)
    ensures 0.0 <= r <= 20.0 * |words| as real
  {
    if words == [] then 0.0
    else FrequencySignal(words[..|words| - 1], itemPrompt) + FrequencyTerm(words[|words| - 1], itemPrompt)
  }

  /** `1 - |a - b| / (max(a, b) + 1)`. */
  function LikeSimilarity(a: nat, b: nat): (r: real)
    ensures 0.0 < r <= 1.0
    ensures a == b ==> r == 1.0
  {
    var diff := if a <= b then b - a else a - b;
    var top := if a <= b then b else a;
    ShareBounds(diff, top + 1);
    1.0 - diff as real / (top + 1) as real
  }

  /** Signal 5: the popularity tiers. */
  function PopularityBonus(a: nat, b: nat): (r: real)
    ensures r == 5.0 || r == 3.0 || r == 1.0 || r == 0.0
    ensures a == b ==> r == 5.0
  {
    var sim := LikeSimilarity(a, b);
    if sim > 0.8 then 5.0 else if sim > 0.6 then 3.0 else if sim > 0.4 then 1.0 else 0.0
  }

  /** Signal 7: prompts of close length. */
  function LengthBonus(a: nat, b: nat): (r: real)
    ensures r == 2.0 || r == 1.0 || r == 0.0
    ensures r == 2.0 <==> -20 < a - b < 20
    ensures r == 0.0 <==> !(-50 < a - b < 50)
  {
    var diff := if a <= b then b - a else a - b;
    if diff < 20 then 2.0 else if diff < 50 then 1.0 else 0.0
  }

  // --------------------------------------------------------------- themes

  datatype Theme = Theme(name: string, keywords: seq<string>, weight: real)

  /** The six themes, in their written order. */
  const Themes: seq<Theme> := [
    Theme("fantasy", ["fantasy", "dragon", "castle", "magic", "mystical", "mythical", "enchanted", "wizard", "fairy", "spell", "legendary", "magical"], 1.2),
    Theme("scifi", ["cyberpunk", "futuristic", "robot", "space", "alien", "tech", "cyber", "sci-fi", "android", "ai", "digital", "neon"], 1.3),
    Theme("nature", ["forest", "ocean", "mountain", "tree", "flower", "landscape", "natural", "garden", "wildlife", "organic", "earth"], 1.1),
    Theme("urban", ["city", "urban", "street", "building", "lights", "downtown", "metropolitan", "architecture", "skyline"], 1.0),
    Theme("abstract", ["abstract", "geometric", "pattern", "digital", "modern", "artistic", "creative", "conceptual", "surreal"], 1.1),
    Theme("vintage", ["vintage", "retro", "old", "classic", "antique", "steampunk", "nostalgic", "historical", "traditional"], 1.0)]

  /** `keywords.some(k => prompt.includes(k))`. */
  predicate MentionsAny(prompt: string, keywords: seq<string>) {
    keywords != [] && (MentionsAny(prompt, keywords[..|keywords| - 1]) || Contains(prompt, keywords[|keywords| - 1]))
  }

  /** The themes among `ts` that `prompt` mentions, in order. */
  function ThemesIn(prompt: string, ts: seq<Theme>): seq<Theme> {
    if ts == [] then []
    else
      var t := ts[|ts| - 1];
      ThemesIn(prompt, ts[..|ts| - 1]) + (if MentionsAny(prompt, t.keywords) then [t] else [])
  }

  lemma {:induction false} ThemesInMembers(prompt: string, ts: seq<Theme>)
    ensures forall t :: t in ThemesIn(prompt, ts) <==> t in ts && MentionsAny(prompt, t.keywords)
  {
    if ts != [] {
      ThemesInMembers(prompt, ts[..|ts| - 1]);
      assert ts == ts[..|ts| - 1] + [ts[|ts| - 1]];
    }
  }

  /** `themes.find(t => t.theme === name)`. */
  function FindTheme(ts: seq<Theme>, name: string): Option<Theme> {
    if ts == [] then None
    else if ts[0].name == name then Some(ts[0])
    else FindTheme(ts[1..], name)
  }

  /** A lookup by name succeeds exactly when a theme of that name is present. */
  lemma {:induction false} FindThemeSpec(ts: seq<Theme>, name: string)
    ensures FindTheme(ts, name).Some? <==> exists t :: t in ts && t.name == name
    ensures FindTheme(ts, name).Some? ==> FindTheme(ts, name).value in ts && FindTheme(ts, name).value.name == name
  {
    if ts != [] && ts[0].name != name {
      FindThemeSpec(ts[1..], name);
      assert forall t :: t in ts <==> t == ts[0] || t in ts[1..];
    }
  }

  /** Signal 6: twenty times the weight of every reference theme that the
      item's themes also hold. */
  function ThemeBonus(originalThemes: seq<Theme>, itemThemes: seq<Theme>): real {
    if originalThemes == [] then 0.0
    else
      var t := originalThemes[|originalThemes| - 1];
      ThemeBonus(originalThemes[..|originalThemes| - 1], itemThemes)
      + (if FindTheme(itemThemes, t.name).Some? then 20.0 * t.weight else 0.0)
  }

  /** The theme bonus stated per theme: twenty times the weight of each
      theme of `ts` that both prompts mention. */
  function SharedThemeBonus(ts: seq<Theme>, p: string, q: string): real {
    if ts == [] then 0.0
    else
      var t := ts[|ts| - 1];
      SharedThemeBonus(ts[..|ts| - 1], p, q)
      + (if MentionsAny(p, t.keywords) && MentionsAny(q, t.keywords) then 20.0 * t.weight else 0.0)
  }

  predicate DistinctNames(ts: seq<Theme>) {
    forall i, j :: 0 <= i < j < |ts| ==> ts[i].name != ts[j].name
  }

  /** Adding a theme whose name no reference theme has leaves the bonus alone. */
  lemma {:induction false} ThemeBonusExtend(os: seq<Theme>, its: seq<Theme>, t: Theme)
    requires forall o :: o in os ==> o.name != t.name
    ensures ThemeBonus(os, its + [t]) == ThemeBonus(os, its)
  {
    if os != [] {
      var pre := os[..|os| - 1];
      var o := os[|os| - 1];
      assert forall x :: x in pre ==> x in os;
      ThemeBonusExtend(pre, its, t);
      FindThemeSpec(its + [t], o.name);
      FindThemeSpec(its, o.name);
      assert forall x :: x in its + [t] && x.name == o.name ==> x in its;
    }
  }

  /** With distinct names, looking up the name of the last theme among the
      themes a prompt mentions finds it exactly when the prompt mentions it. */
  lemma FindLastTheme(q: string, ts: seq<Theme>)
    requires ts != [] && DistinctNames(ts)
    ensures FindTheme(ThemesIn(q, ts), ts[|ts| - 1].name).Some? <==> MentionsAny(q, ts[|ts| - 1].keywords)
  {
    var t := ts[|ts| - 1];
    var its := ThemesIn(q, ts);
    FindThemeSpec(its, t.name);
    ThemesInMembers(q, ts);
    if FindTheme(its, t.name).Some? {
      var u := FindTheme(its, t.name).value;
      var k :| 0 <= k < |ts| && ts[k] == u;
      assert k == |ts| - 1;
    }
  }

  /** The find-by-name matching of themes amounts to summing the weights of
      the themes that both prompts mention. */
  lemma {:induction false} ThemeBonusShared(ts: seq<Theme>, p: string, q: string)
    requires DistinctNames(ts)
    ensures ThemeBonus(ThemesIn(p, ts), ThemesIn(q, ts)) == SharedThemeBonus(ts, p, q)
  {
    if ts != [] {
      var pre := ts[..|ts| - 1];
      var t := ts[|ts| - 1];
      assert DistinctNames(pre);
      ThemeBonusShared(pre, p, q);
      var ps := ThemesIn(p, pre);
      var qs := ThemesIn(q, pre);
      var qs' := ThemesIn(q, ts);
      // the bonus of the reference themes of `pre` is unchanged by `t`
      assert ThemeBonus(ps, qs') == ThemeBonus(ps, qs) by {
        if MentionsAny(q, t.keywords) {
          assert qs' == qs + [t];
          ThemesInMembers(p, pre);
          forall o | o in ps ensures o.name != t.name {
            var k :| 0 <= k < |pre| && pre[k] == o;
            assert ts[k] == o;
          }
          ThemeBonusExtend(ps, qs, t);
        } else {
          assert qs' == qs;
        }
      }
      // `t` itself counts when both prompts mention it
      FindLastTheme(q, ts);
      if MentionsAny(p, t.keywords) {
        var ps' := ps + [t];
        assert ThemesIn(p, ts) == ps';
        assert ps'[..|ps'| - 1] == ps;
        assert ThemeBonus(ps', qs') == ThemeBonus(ps, qs')
          + (if FindTheme(qs', t.name).Some? then 20.0 * t.weight else 0.0);
      } else {
        assert ThemesIn(p, ts) == ps;
      }
    }
  }

  /** The six theme names are pairwise distinct. */
  lemma ThemesDistinct()
    ensures DistinctNames(Themes)
  {
  }

  /** Signal 6 is the sum of twenty times the weight of the themes both
      prompts mention. */
  lemma ThemeBonusIsShared(p: string, q: string)
    ensures ThemeBonus(ThemesIn(p, Themes), ThemesIn(q, Themes)) == SharedThemeBonus(Themes, p, q)
  {
    ThemesDistinct();
    ThemeBonusShared(Themes, p, q);
  }

  // --------------------------------------------------------------- score

  /** The seven additive signals of one candidate. */
  datatype Signals = Signals(
    keywords: real, cosine: real, frequency: real, author: real,
    popularity: real, themes: real, length: real)

  function Total(s: Signals): real {
    s.keywords + s.cosine + s.frequency + s.author + s.popularity + s.themes + s.length
  }

  /** What the reference contributes to every score: its lower-cased prompt,
      its keywords and its enhanced keywords. */
  datatype Reference = Reference(item: Item, prompt: string, words: seq<string>, keywords: seq<string>)

  function ReferenceOf(item: Item): (r: Reference)
    ensures r.words == OriginalWords(item.prompt)
  {
    var words := OriginalWords(item.prompt);
    Reference(item, ToLower(item.prompt), words, Enhanced(words))
  }

  /** The signals of `item` against the reference. */
  function SignalsOf(ref: Reference, item: Item, sqrt: real -> real): (s: Signals)
    requires SqrtLaws(sqrt)
    ensures s.keywords == 15.0 * KeywordMatches(ref.keywords, ItemWords(item.prompt)) as real
    ensures s.author == (if item.author == ref.item.author then 8.0 else 0.0)
    ensures s.popularity == PopularityBonus(item.likes, ref.item.likes)
    ensures s.length == LengthBonus(Utf16Length(ref.prompt), Utf16Length(item.prompt))
    ensures s.keywords >= 0.0 && s.cosine >= 0.0 && s.frequency >= 0.0 && s.themes >= 0.0
  {
    var itemPrompt := ToLower(item.prompt);
    var itemWords := ItemWords(item.prompt);
    Utf16LengthOfLower(item.prompt);
    ThemesInMembers(ref.prompt, Themes);
    ThemeBonusNonNegative(ThemesIn(ref.prompt, Themes), ThemesIn(itemPrompt, Themes));
    Signals(
      15.0 * KeywordMatches(ref.keywords, itemWords) as real,
      Cosine(StemAll(ref.words), StemAll(itemWords), sqrt) * 25.0,
      FrequencySignal(ref.words, itemPrompt),
      if item.author == ref.item.author then 8.0 else 0.0,
      PopularityBonus(item.likes, ref.item.likes),
      ThemeBonus(ThemesIn(ref.prompt, Themes), ThemesIn(itemPrompt, Themes)),
      LengthBonus(Utf16Length(ref.prompt), Utf16Length(itemPrompt)))
  }

  lemma {:induction false} ThemeBonusNonNegative(os: seq<Theme>, its: seq<Theme>)
    requires forall t :: t in os ==> t in Themes
    ensures ThemeBonus(os, its) >= 0.0
  {
    if os != [] {
      var pre := os[..|os| - 1];
      assert forall t :: t in pre ==> t in os;
      ThemeBonusNonNegative(pre, its);
      assert os[|os| - 1] in Themes;
    }
  }

  /** `Math.round(x * 10) / 10`: to one decimal, halves rounded up. */
  function Round1(x: real): real {
    (x * 10.0 + 0.5).Floor as real / 10.0
  }

  /** Rounding moves a score by at most 0.05, keeps it non-negative and keeps
      the order of scores. */
  lemma Round1Bounds(x: real)
    ensures x - 0.05 < Round1(x) <= x + 0.05
    ensures x >= 0.0 ==> Round1(x) >= 0.0
  {
    var f := (x * 10.0 + 0.5).Floor;
    assert f as real <= x * 10.0 + 0.5 < f as real + 1.0;
  }

  lemma Round1Monotone(x: real, y: real)
    requires x <= y
    ensures Round1(x) <= Round1(y)
  {
    var f, g := (x * 10.0 + 0.5).Floor, (y * 10.0 + 0.5).Floor;
    assert f as real <= x * 10.0 + 0.5;
    assert y * 10.0 + 0.5 < g as real + 1.0;
    assert f <= g;
  }

  /** A candidate's score as the page stores it. */
  function Score(ref: Reference, item: Item, sqrt: real -> real): real
    requires SqrtLaws(sqrt)
  {
    Round1(Total(SignalsOf(ref, item, sqrt)))
  }

  /** Every score is a sum of non-negative signals, so it is not negative;
      the fixed bonuses are exact. */
  lemma ScoreFacts(ref: Reference, item: Item, sqrt: real -> real)
    requires SqrtLaws(sqrt)
    ensures Score(ref, item, sqrt) >= 0.0
    ensures Total(SignalsOf(ref, item, sqrt)) >= (if item.author == ref.item.author then 8.0 else 0.0)
  {
    Round1Bounds(Total(SignalsOf(ref, item, sqrt)));
  }

  /** Signal 1's inner loop: fifteen points for every item word that
      matches one keyword. */
  method KeywordPoints(keyword: string, itemWords: seq<string>) returns (points: real)
    ensures points == 15.0 * MatchCount(keyword, itemWords, WordsMatch) as real
  {
    points := 0.0;
    var keywordStem := Stem(keyword);
    var j := 0;
    while j < |itemWords|
      invariant 0 <= j <= |itemWords|
      invariant points == 15.0 * MatchCount(keyword, itemWords[..j], WordsMatch) as real
    {
      var itemWordStem := Stem(itemWords[j]);
      assert itemWords[..j + 1][..j] == itemWords[..j];
      if itemWordStem == keywordStem || Contains(itemWords[j], keyword) || Contains(keyword, itemWords[j]) {
        points := points + 15.0;
      }
      j := j + 1;
    }
    assert itemWords[..j] == itemWords;
  }

  /** Signal 1: the inner loop for every enhanced keyword. */
  method KeywordSignal(keywords: seq<string>, itemWords: seq<string>) returns (points: real)
    ensures points == 15.0 * KeywordMatches(keywords, itemWords) as real
  {
    points := 0.0;
    var i := 0;
    while i < |keywords|
      invariant 0 <= i <= |keywords|
      invariant points == 15.0 * KeywordMatches(keywords[..i], itemWords) as real
    {
      assert keywords[..i + 1][..i] == keywords[..i];
      var p := KeywordPoints(keywords[i], itemWords);
      points := points + p;
      i := i + 1;
    }
    assert keywords[..i] == keywords;
  }

  /** Signal 3: the term-frequency loop over the reference keywords. */
  method FrequencyPoints(words: seq<string>, itemPrompt: string) returns (points: real)
    ensures points == FrequencySignal(words, itemPrompt)
  {
    points := 0.0;
    var k := 0;
    while k < |words|
      invariant 0 <= k <= |words|
      invariant points == FrequencySignal(words[..k], itemPrompt)
    {
      var tf := TermFrequency(words[k], itemPrompt);
      assert words[..k + 1][..k] == words[..k];
      if tf > 0.0 {
        points := points + tf * 20.0;
      }
      k := k + 1;
    }
    assert words[..k] == words;
  }

  /** Signal 6, first half: the themes each prompt mentions, in theme order. */
  method DetectThemes(originalPrompt: string, itemPrompt: string)
    returns (originalThemes: seq<Theme>, itemThemes: seq<Theme>)
    ensures originalThemes == ThemesIn(originalPrompt, Themes)
    ensures itemThemes == ThemesIn(itemPrompt, Themes)
  {
    originalThemes, itemThemes := [], [];
    var t := 0;
    while t < |Themes|
      invariant 0 <= t <= |Themes|
      invariant originalThemes == ThemesIn(originalPrompt, Themes[..t])
      invariant itemThemes == ThemesIn(itemPrompt, Themes[..t])
    {
      assert Themes[..t + 1][..t] == Themes[..t];
      if MentionsAny(originalPrompt, Themes[t].keywords) {
        originalThemes := originalThemes + [Themes[t]];
      }
      if MentionsAny(itemPrompt, Themes[t].keywords) {
        itemThemes := itemThemes + [Themes[t]];
      }
      t := t + 1;
    }
    assert Themes[..t] == Themes;
  }

  /** Signal 6, second half: the weight of every reference theme found by
      name among the item's themes. */
  method ThemePoints(originalThemes: seq<Theme>, itemThemes: seq<Theme>) returns (points: real)
    ensures points == ThemeBonus(originalThemes, itemThemes)
  {
    points := 0.0;
    var m := 0;
    while m < |originalThemes|
      invariant 0 <= m <= |originalThemes|
      invariant points == ThemeBonus(originalThemes[..m], itemThemes)
    {
      assert originalThemes[..m + 1][..m] == originalThemes[..m];
      var matching := FindTheme(itemThemes, originalThemes[m].name);
      if matching.Some? {
        points := points + 20.0 * originalThemes[m].weight;
      }
      m := m + 1;
    }
    assert originalThemes[..m] == originalThemes;
  }

  /** Signal 5 as the callback's `if`/`else if` chain. */
  method PopularityPoints(likes: nat, originalLikes: nat) returns (points: real)
    ensures points == PopularityBonus(likes, originalLikes)
  {
    var likeSimilarity := LikeSimilarity(likes, originalLikes);
    points := 0.0;
    if likeSimilarity > 0.8 {
      points := 5.0;
    } else if likeSimilarity > 0.6 {
      points := 3.0;
    } else if likeSimilarity > 0.4 {
      points := 1.0;
    }
  }

  /** Signal 7 as the callback's `if`/`else if` chain on the length gap. */
  method LengthPoints(originalLength: nat, itemLength: nat) returns (points: real)
    ensures points == LengthBonus(originalLength, itemLength)
  {
    var lengthDiff := if originalLength <= itemLength then itemLength - originalLength else originalLength - itemLength;
    points := 0.0;
    if lengthDiff < 20 {
      points := 2.0;
    } else if lengthDiff < 50 {
      points := 1.0;
    }
  }

  /** The seven signals as the scoring callback computes them from the
      lower-cased item prompt and its words. */
  lemma SignalsOfParts(ref: Reference, item: Item, sqrt: real -> real)
    requires SqrtLaws(sqrt)
    ensures var s := SignalsOf(ref, item, sqrt);
      var itemPrompt := ToLower(item.prompt);
      var itemWords := ItemWords(item.prompt);
      s.keywords == 15.0 * KeywordMatches(ref.keywords, itemWords) as real
      && s.cosine == Cosine(StemAll(ref.words), StemAll(itemWords), sqrt) * 25.0
      && s.frequency == FrequencySignal(ref.words, itemPrompt)
      && s.author == (if item.author == ref.item.author then 8.0 else 0.0)
      && s.popularity == PopularityBonus(item.likes, ref.item.likes)
      && s.themes == ThemeBonus(ThemesIn(ref.prompt, Themes), ThemesIn(itemPrompt, Themes))
      && s.length == LengthBonus(Utf16Length(ref.prompt), Utf16Length(itemPrompt))
  {
  }

  /** The scoring callback: the `score +=` steps in their written order. */
  method ScoreItem(ref: Reference, item: Item, sqrt: real -> real) returns (score: real)
    requires SqrtLaws(sqrt)
    ensures score == Score(ref, item, sqrt)
  {
    var itemPrompt := ToLower(item.prompt);
    var itemWords := ItemWords(item.prompt);
    SignalsOfParts(ref, item, sqrt);
    ghost var signals := SignalsOf(ref, item, sqrt);
    var raw := 0.0;

    // 1. keyword matching
    var keywordPoints := KeywordSignal(ref.keywords, itemWords);
    raw := raw + keywordPoints;
    assert raw == signals.keywords;

    // 2. cosine similarity of the stemmed word lists
    raw := raw + Cosine(StemAll(ref.words), StemAll(itemWords), sqrt) * 25.0;
    assert raw == signals.keywords + signals.cosine;

    // 3. term frequency of every keyword
    var frequencyPoints := FrequencyPoints(ref.words, itemPrompt);
    raw := raw + frequencyPoints;
    ghost var upToFrequency := raw;
    assert raw == signals.keywords + signals.cosine + signals.frequency;

    // 4. author
    if item.author == ref.item.author {
      raw := raw + 8.0;
    }

    // 5. popularity
    var popularityPoints := PopularityPoints(item.likes, ref.item.likes);
    assert raw == upToFrequency + signals.author;
    raw := raw + popularityPoints;

    // 6. themes
    var originalThemes, itemThemes := DetectThemes(ref.prompt, itemPrompt);
    var themePoints := ThemePoints(originalThemes, itemThemes);
    raw := raw + themePoints;

    // 7. prompt length
    var lengthPoints := LengthPoints(Utf16Length(ref.prompt), Utf16Length(itemPrompt));
    raw := raw + lengthPoints;
    assert raw == Total(signals);

    score := Round1(raw);
  }

  // ------------------------------------------------------------- ranking

  datatype Scored = Scored(item: Item, kind: Kind, score: real)

  datatype Ranked = Ranked(item: Item, kind: Kind, score: real, size: Size)

  /** The comparator `(a, b) => b.score - a.score` as an ascending key. */
  function DescendingScore(s: Scored): real {
    -s.score
  }

  /** The test of `filter(item => item.score > 5)`. */
  predicate AboveFive(x: Scored) {
    x.score > 5.0
  }

  predicate NonIncreasing(s: seq<Scored>) {
    forall i, j :: 0 <= i < j < |s| ==> s[i].score >= s[j].score
  }

  lemma {:induction false} AboveFiveKeepsOrder(s: seq<Scored>)
    requires NonIncreasing(s)
    ensures NonIncreasing(Filter(s, AboveFive))
  {
    if s != [] {
      var p := s[..|s| - 1];
      assert NonIncreasing(p);
      AboveFiveKeepsOrder(p);
      FilterMembers(p, AboveFive);
      forall x | x in Filter(p, AboveFive) ensures x.score >= s[|s| - 1].score {
        var k :| 0 <= k < |p| && p[k] == x;
      }
    }
  }

  /** The size rule of this page. */
  function SimilarSize(i: nat): (z: Size)
    ensures z == Tall <==> (i < 8 && i % 3 == 0) || (i > 8 && i % 7 == 0)
  {
    if i < 8 && i % 3 == 0 then Tall
    else if i % 7 == 0 && i > 8 then Tall
    else Standard
  }

  /** `map((item, index) => ({...item, size}))`. */
  function WithSizes(s: seq<Scored>): (r: seq<Ranked>)
    ensures |r| == |s|
    ensures forall i :: 0 <= i < |s| ==> r[i] == Ranked(s[i].item, s[i].kind, s[i].score, SimilarSize(i))
  {
    if s == [] then []
    else
      var x := s[|s| - 1];
      WithSizes(s[..|s| - 1]) + [Ranked(x.item, x.kind, x.score, SimilarSize(|s| - 1))]
  }

  /** A ranked entry without its size. */
  function Unranked(r: Ranked): Scored {
    Scored(r.item, r.kind, r.score)
  }

  const MaxResults: nat := 60

  /** The candidates in descending score order, ties in their original order. */
  function ByScore(scored: seq<Scored>): seq<Scored> {
    SortByKey(scored, DescendingScore)
  }

  /** The entries kept before the cut at 60. */
  function Kept(scored: seq<Scored>): seq<Scored> {
    Filter(ByScore(scored), AboveFive)
  }

  /** Sort, keep scores above 5, keep the first 60, size by rank. */
  function Rank(scored: seq<Scored>): seq<Ranked> {
    var kept := Kept(scored);
    WithSizes(kept[..if |kept| < MaxResults then |kept| else MaxResults])
  }

  /** Sorting by the comparator orders by non-increasing score and keeps
      every candidate. */
  lemma ByScoreSpec(scored: seq<Scored>)
    ensures NonIncreasing(ByScore(scored))
    ensures multiset(ByScore(scored)) == multiset(scored)
  {
    var sorted := ByScore(scored);
    SortByKeySorted(scored, DescendingScore);
    SortByKeyPermutes(scored, DescendingScore);
    forall i, j | 0 <= i < j < |sorted| ensures sorted[i].score >= sorted[j].score {
      assert DescendingScore(sorted[i]) <= DescendingScore(sorted[j]);
    }
  }

  /** The kept entries are the candidates above 5, in non-increasing order. */
  lemma KeptSpec(scored: seq<Scored>)
    ensures NonIncreasing(Kept(scored))
    ensures forall x :: x in Kept(scored) <==> x in scored && x.score > 5.0
    ensures forall i :: 0 <= i < |Kept(scored)| ==> Kept(scored)[i].score > 5.0
  {
    ByScoreSpec(scored);
    AboveFiveKeepsOrder(ByScore(scored));
    FilterMembers(ByScore(scored), AboveFive);
    forall x ensures x in ByScore(scored) <==> x in scored {
      assert x in ByScore(scored) <==> x in multiset(ByScore(scored));
    }
  }

  /** The ranked list has at most 60 entries, every score above 5, scores
      non-increasing, the page's size rule, and only scored candidates. */
  lemma RankSpec(scored: seq<Scored>)
    ensures |Rank(scored)| <= MaxResults
    ensures forall i :: 0 <= i < |Rank(scored)| ==> Rank(scored)[i].score > 5.0
    ensures forall i, j :: 0 <= i < j < |Rank(scored)| ==> Rank(scored)[i].score >= Rank(scored)[j].score
    ensures forall i :: 0 <= i < |Rank(scored)| ==>
      Rank(scored)[i].size == (if (i < 8 && i % 3 == 0) || (i > 8 && i % 7 == 0) then Tall else Standard)
    ensures forall i :: 0 <= i < |Rank(scored)| ==> Unranked(Rank(scored)[i]) in scored
  {
    var kept := Kept(scored);
    KeptSpec(scored);
    var n := if |kept| < MaxResults then |kept| else MaxResults;
    var r := Rank(scored);
    forall i | 0 <= i < |r| ensures Unranked(r[i]) == kept[i] && kept[i] in kept {
    }
  }

  /** Nothing above 5 is dropped except when the list is full of candidates
      scoring at least as much. */
  lemma RankDropsOnlyLower(scored: seq<Scored>, x: Scored)
    requires x in scored && x.score > 5.0
    requires forall i :: 0 <= i < |Rank(scored)| ==> Unranked(Rank(scored)[i]) != x
    ensures |Rank(scored)| == MaxResults
    ensures forall i :: 0 <= i < |Rank(scored)| ==> Rank(scored)[i].score >= x.score
  {
    var kept := Kept(scored);
    KeptSpec(scored);
    var r := Rank(scored);
    var k :| 0 <= k < |kept| && kept[k] == x;
    assert forall i :: 0 <= i < |r| ==> Unranked(r[i]) == kept[i];
    assert k >= |r|;
  }

  // ------------------------------------------------------------ the page

  /** `find(img => img.id === parseInt(id))`: an id that does not parse is
      NaN, which equals no id. */
  function FindById(pool: seq<Item>, id: Option<int>): (r: Option<Item>)
    ensures r.Some? ==> id.Some? && r.value in pool && r.value.id == id.value
  {
    if id.None? || pool == [] then None
    else if pool[0].id == id.value then Some(pool[0])
    else FindById(pool[1..], id)
  }

  /** The lookup finds an entry exactly when the id parsed and some entry
      carries it, and then it finds the first such entry. */
  lemma {:induction false} FindByIdSpec(pool: seq<Item>, id: Option<int>)
    ensures FindById(pool, id).Some? <==> id.Some? && exists x :: x in pool && x.id == id.value
  {
    if id.Some? && pool != [] && pool[0].id != id.value {
      FindByIdSpec(pool[1..], id);
      assert forall x :: x in pool <==> x == pool[0] || x in pool[1..];
    }
  }

  /** `find` returns the first entry with the id. */
  lemma {:induction false} FindByIdFirst(pool: seq<Item>, id: Option<int>)
    ensures FindById(pool, id).Some? ==>
      exists k :: 0 <= k < |pool| && pool[k] == FindById(pool, id).value
        && forall j :: 0 <= j < k ==> pool[j].id != id.value
  {
    if id.Some? && pool != [] && pool[0].id != id.value {
      FindByIdFirst(pool[1..], id);
      if FindById(pool, id).Some? {
        var k :| 0 <= k < |pool[1..]| && pool[1..][k] == FindById(pool, id).value
          && forall j :: 0 <= j < k ==> pool[1..][j].id != id.value;
        assert pool[k + 1] == FindById(pool, id).value;
        assert forall j :: 1 <= j < k + 1 ==> pool[j].id == pool[1..][j - 1].id;
      }
    } else if id.Some? && pool != [] {
      assert pool[0] == FindById(pool, id).value;
    }
  }

  /** The route's `type` parameter. */
  function KindOf(routeType: string): Option<Kind> {
    if routeType == "image" then Some(Image)
    else if routeType == "video" then Some(Video)
    else None
  }

  function PoolOf(kind: Kind, images: seq<Item>, videos: seq<Item>): seq<Item> {
    if kind == Image then images else videos
  }

  /** `originalItem`: the route's kind must be "image" or "video", and the id
      is looked up in that catalogue. */
  function OriginalItem(routeType: string, id: string, images: seq<Item>, videos: seq<Item>): (r: Option<Item>)
    ensures r.Some? ==> KindOf(routeType).Some? && ParseInt(id).Some?
    ensures r.Some? ==> r.value in PoolOf(KindOf(routeType).value, images, videos) && r.value.id == ParseInt(id).value
  {
    match KindOf(routeType)
    case None => None
    case Some(kind) => FindById(PoolOf(kind, images, videos), ParseInt(id))
  }

  /** `allItems`: the catalogue of the reference's kind without the
      reference's id, tagged with that kind. */
  function Candidates(pool: seq<Item>, ref: Item): (r: seq<Item>)
    ensures |r| <= |pool|
  {
    if pool == [] then []
    else Candidates(pool[..|pool| - 1], ref) + (if pool[|pool| - 1].id != ref.id then [pool[|pool| - 1]] else [])
  }

  /** The candidates are the catalogue entries whose id differs from the
      reference's. */
  lemma {:induction false} CandidatesMembers(pool: seq<Item>, ref: Item)
    ensures forall x :: x in Candidates(pool, ref) <==> x in pool && x.id != ref.id
  {
    if pool != [] {
      var p := pool[..|pool| - 1];
      CandidatesMembers(p, ref);
      assert pool == p + [pool[|pool| - 1]];
    }
  }

  /** The score of every candidate, in order. */
  function Scores(ref: Reference, items: seq<Item>, sqrt: real -> real): (r: seq<real>)
    requires SqrtLaws(sqrt)
    ensures |r| == |items|
  {
    if items == [] then []
    else Scores(ref, items[..|items| - 1], sqrt) + [Score(ref, items[|items| - 1], sqrt)]
  }

  /** `{ ...item, type, score }` for every candidate. */
  function Tag(kind: Kind, items: seq<Item>, scores: seq<real>): (r: seq<Scored>)
    requires |scores| == |items|
    ensures |r| == |items|
  {
    if items == [] then []
    else Tag(kind, items[..|items| - 1], scores[..|scores| - 1]) + [Scored(items[|items| - 1], kind, scores[|scores| - 1])]
  }

  /** Each candidate keeps its place, its entry and its score, and is
      tagged with the kind. */
  lemma {:induction false} TagEntries(kind: Kind, items: seq<Item>, scores: seq<real>)
    requires |scores| == |items|
    ensures forall i :: 0 <= i < |items| ==> Tag(kind, items, scores)[i] == Scored(items[i], kind, scores[i])
  {
    if items != [] {
      var p := items[..|items| - 1];
      var q := scores[..|scores| - 1];
      TagEntries(kind, p, q);
      assert forall i :: 0 <= i < |p| ==> p[i] == items[i] && q[i] == scores[i];
    }
  }

  /** The ranked list for a found reference item `orig` of kind `kind`. */
  function RankedFor(orig: Item, kind: Kind, images: seq<Item>, videos: seq<Item>, sqrt: real -> real): seq<Ranked>
    requires SqrtLaws(sqrt)
  {
    var cands := Candidates(PoolOf(kind, images, videos), orig);
    Rank(Tag(kind, cands, Scores(ReferenceOf(orig), cands, sqrt)))
  }

  /** `similarItems` as a value. */
  function SimilarSpec(routeType: string, id: string, images: seq<Item>, videos: seq<Item>, sqrt: real -> real): seq<Ranked>
    requires SqrtLaws(sqrt)
  {
    match OriginalItem(routeType, id, images, videos)
    case None => []
    case Some(orig) => RankedFor(orig, KindOf(routeType).value, images, videos, sqrt)
  }

  lemma ScoresStep(ref: Reference, items: seq<Item>, i: nat, sqrt: real -> real)
    requires SqrtLaws(sqrt) && i < |items|
    ensures Scores(ref, items[..i + 1], sqrt) == Scores(ref, items[..i], sqrt) + [Score(ref, items[i], sqrt)]
  {
    assert items[..i + 1][..i] == items[..i];
  }

  /** The scoring loop of `allItems.map(...)`: the score of every candidate. */
  method ScoreAll(ref: Reference, items: seq<Item>, sqrt: real -> real) returns (scores: seq<real>)
    requires SqrtLaws(sqrt)
    ensures scores == Scores(ref, items, sqrt)
  {
    scores := [];
    var i := 0;
    while i < |items|
      invariant 0 <= i <= |items|
      invariant scores == Scores(ref, items[..i], sqrt)
    {
      ScoresStep(ref, items, i, sqrt);
      var score := ScoreItem(ref, items[i], sqrt);
      scores := scores + [score];
      i := i + 1;
    }
    assert items[..i] == items;
  }

  /** The objects built by `allItems.map(...)`: a new array holding every
      candidate with its kind and score. */
  method TagAll(kind: Kind, items: seq<Item>, scores: seq<real>) returns (scored: array<Scored>)
    requires |scores| == |items|
    ensures fresh(scored)
    ensures scored[..] == Tag(kind, items, scores)
  {
    var list := Tag(kind, items, scores);
    scored := new Scored[|list|](k requires 0 <= k < |list| => list[k]);
  }

  /** The shaping after `allItems.map(...)`: sorts the scored array in
      place, then filters, cuts and sizes it. */
  method RankInPlace(scored: array<Scored>) returns (result: seq<Ranked>)
    modifies scored
    ensures result == Rank(old(scored[..]))
  {
    SortInPlace(scored, DescendingScore);
    var kept := Filter(scored[..], AboveFive);
    result := WithSizes(kept[..if |kept| < MaxResults then |kept| else MaxResults]);
  }

  /** `similarItems` once the reference item is found. */
  method SimilarFor(orig: Item, kind: Kind, images: seq<Item>, videos: seq<Item>, sqrt: real -> real)
    returns (result: seq<Ranked>)
    requires SqrtLaws(sqrt)
    ensures result == RankedFor(orig, kind, images, videos, sqrt)
  {
    var originalWords := OriginalWords(orig.prompt);
    var enhancedKeywords := EnhanceKeywords(originalWords);
    var ref := Reference(orig, ToLower(orig.prompt), originalWords, enhancedKeywords);
    assert ref == ReferenceOf(orig);
    var allItems := Candidates(PoolOf(kind, images, videos), orig);
    var scores := ScoreAll(ref, allItems, sqrt);
    var scoredItems := TagAll(kind, allItems, scores);
    result := RankInPlace(scoredItems);
  }

  /** `similarItems`: no list without a reference item, otherwise the
      ranked candidates. */
  method SimilarItems(routeType: string, id: string, images: seq<Item>, videos: seq<Item>, sqrt: real -> real)
    returns (result: seq<Ranked>)
    requires SqrtLaws(sqrt)
    ensures result == SimilarSpec(routeType, id, images, videos, sqrt)
  {
    var original := OriginalItem(routeType, id, images, videos);
    if original.None? {
      return [];
    }
    result := SimilarFor(original.value, KindOf(routeType).value, images, videos, sqrt);
  }

  /** An unknown kind, an id that does not parse, or an id not in the
      catalogue gives no reference item and an empty list. */
  lemma SimilarWithoutReference(routeType: string, id: string, images: seq<Item>, videos: seq<Item>, sqrt: real -> real)
    requires SqrtLaws(sqrt)
    requires KindOf(routeType).None? || ParseInt(id).None?
      || (forall x :: x in PoolOf(KindOf(routeType).value, images, videos) ==> x.id != ParseInt(id).value)
    ensures OriginalItem(routeType, id, images, videos).None?
    ensures SimilarSpec(routeType, id, images, videos, sqrt) == []
  {
    if KindOf(routeType).Some? {
      FindByIdSpec(PoolOf(KindOf(routeType).value, images, videos), ParseInt(id));
    }
  }

  /** Conversely, a known kind, a parsable id and a catalogue entry with
      that id give a reference item. */
  lemma SimilarHasReference(routeType: string, id: string, images: seq<Item>, videos: seq<Item>, x: Item)
    requires KindOf(routeType).Some? && ParseInt(id).Some?
    requires x in PoolOf(KindOf(routeType).value, images, videos) && x.id == ParseInt(id).value
    ensures OriginalItem(routeType, id, images, videos).Some?
  {
    FindByIdSpec(PoolOf(KindOf(routeType).value, images, videos), ParseInt(id));
  }

  /** Ranking tagged candidates lists only those candidates, with the tag. */
  lemma RankTagged(kind: Kind, items: seq<Item>, scores: seq<real>)
    requires |scores| == |items|
    ensures forall i :: 0 <= i < |Rank(Tag(kind, items, scores))| ==>
      Rank(Tag(kind, items, scores))[i].kind == kind && Rank(Tag(kind, items, scores))[i].item in items
  {
    var scored := Tag(kind, items, scores);
    TagEntries(kind, items, scores);
    RankSpec(scored);
    var r := Rank(scored);
    forall i | 0 <= i < |r|
      ensures r[i].kind == kind && r[i].item in items
    {
      var k :| 0 <= k < |scored| && scored[k] == Unranked(r[i]);
      assert items[k] in items;
    }
  }

  /** Every item ranked for `orig` is a catalogue entry of kind `kind`,
      carries that kind, and has an id other than `orig`'s. */
  lemma RankedForCandidates(orig: Item, kind: Kind, images: seq<Item>, videos: seq<Item>, sqrt: real -> real)
    requires SqrtLaws(sqrt)
    ensures var r := RankedFor(orig, kind, images, videos, sqrt);
      forall i :: 0 <= i < |r| ==>
        r[i].kind == kind && r[i].item in PoolOf(kind, images, videos) && r[i].item.id != orig.id
  {
    var pool := PoolOf(kind, images, videos);
    var cands := Candidates(pool, orig);
    var scores := Scores(ReferenceOf(orig), cands, sqrt);
    CandidatesMembers(pool, orig);
    RankTagged(kind, cands, scores);
  }

  /** Every listed item is from the catalogue of the route's kind, carries
      that kind, and has an id other than the reference's. */
  lemma SimilarCandidatesOnly(routeType: string, id: string, images: seq<Item>, videos: seq<Item>, sqrt: real -> real)
    requires SqrtLaws(sqrt)
    ensures var r := SimilarSpec(routeType, id, images, videos, sqrt);
      forall i :: 0 <= i < |r| ==>
        KindOf(routeType) == Some(r[i].kind)
        && r[i].item in PoolOf(r[i].kind, images, videos)
        && ParseInt(id).Some? && r[i].item.id != ParseInt(id).value
  {
    var o := OriginalItem(routeType, id, images, videos);
    if o.Some? {
      RankedForCandidates(o.value, KindOf(routeType).value, images, videos, sqrt);
    }
  }

  /** The `type` segment of an item's route reads back as its kind. */
  lemma KindNameReadsBack(k: Kind)
    ensures KindOf(KindName(k)) == Some(k)
  {
    if k == Video {
      assert "video"[0] != "image"[0];
    }
  }

  /** `similarItems.find(item => item.id === itemId)`: the position of the
      first listed item with the id. */
  function FindListed(items: seq<Ranked>, itemId: int): (r: Option<nat>)
    ensures r.Some? ==> r.value < |items| && items[r.value].item.id == itemId
    ensures r.Some? ==> forall j :: 0 <= j < r.value ==> items[j].item.id != itemId
    ensures r.None? ==> forall j :: 0 <= j < |items| ==> items[j].item.id != itemId
  {
    if items == [] then None
    else if items[0].item.id == itemId then Some(0)
    else
      var rest := FindListed(items[1..], itemId);
      if rest.Some? then Some(rest.value + 1) else None
  }

  /** The page's own state: how many of the ranked items are shown. */
  class SimilarPage {
    var visibleItems: nat
    var loading: bool

    constructor()
      ensures visibleItems == 12 && !loading
    {
      visibleItems := 12;
      loading := false;
    }

    /** `loadMoreItems`, given `similarItems.length`: nothing while loading
        or once every item is shown, otherwise twelve more, up to the end. */
    method LoadMore(listed: nat)
      modifies this
      ensures old(loading) || old(visibleItems) >= listed ==> visibleItems == old(visibleItems)
      ensures !old(loading) && old(visibleItems) < listed ==>
        visibleItems == (if old(visibleItems) + 12 < listed then old(visibleItems) + 12 else listed)
      ensures loading == old(loading)
    {
      if loading || visibleItems >= listed {
        return;
      }
      loading := true;
      visibleItems := if visibleItems + 12 < listed then visibleItems + 12 else listed;
      loading := false;
    }

    /** `handleSearchSimilar`: the page of the first listed item with the
        id, and no navigation for an id not listed. */
    method HandleSearchSimilar(items: seq<Ranked>, itemId: int) returns (navigateTo: Option<string>)
      ensures navigateTo.Some? <==> exists i :: 0 <= i < |items| && items[i].item.id == itemId
      ensures navigateTo.Some? ==>
        (exists i :: 0 <= i < |items| && items[i].item.id == itemId && navigateTo.value == SimilarRoute(items[i].kind, items[i].item.id))
    {
      var found := FindListed(items, itemId);
      if found.None? {
        return None;
      }
      navigateTo := Some(SimilarRoute(items[found.value].kind, items[found.value].item.id));
    }
  }

  /** The link of every listed item leads to a page that finds its
      reference item: the kind and the id in the route name a catalogue
      entry. */
  lemma ListedRouteFindsReference(routeType: string, id: string, images: seq<Item>, videos: seq<Item>,
                                  sqrt: real -> real, i: nat)
    requires SqrtLaws(sqrt)
    requires i < |SimilarSpec(routeType, id, images, videos, sqrt)|
    ensures var r := SimilarSpec(routeType, id, images, videos, sqrt)[i];
      var route := SimilarRoute(r.kind, r.item.id);
      OriginalItem(route[9..14], route[15..], images, videos) == FindById(PoolOf(r.kind, images, videos), Some(r.item.id))
      && OriginalItem(route[9..14], route[15..], images, videos).Some?
  {
    var r := SimilarSpec(routeType, id, images, videos, sqrt)[i];
    SimilarCandidatesOnly(routeType, id, images, videos, sqrt);
    ParseIntOfIntToString(r.item.id);
    KindNameReadsBack(r.kind);
    SimilarHasReference(KindName(r.kind), IntToString(r.item.id), images, videos, r.item);
  }
}
