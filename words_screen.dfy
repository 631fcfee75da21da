/** The word list screen: the category choices, the search-and-category filter,
    the difficulty tabs, the mastery colour bands and the summary figures. */
module WordsScreen {
  import opened Outcomes
  import opened Types
  import opened Seqs
  import opened Text

  /** The category choice that selects every word. */
  const All := "all"

  function CategoryOf(w: Word): string
  {
    w.category
  }

  /** `words.map(word => word.category)`. */
  function CategoryList(words: seq<Word>): (r: seq<string>)
    ensures |r| == |words| && forall i :: 0 <= i < |words| ==> r[i] == words[i].category
  {
    seq(|words|, i requires 0 <= i < |words| => words[i].category)
  }

  /** `['all', ...Array.from(new Set(categories))]`. */
  function Categories(words: seq<Word>): (r: seq<string>)
    ensures |r| >= 1 && r[0] == All
    ensures forall c :: c in r[1..] <==> exists i :: 0 <= i < |words| && words[i].category == c
  {
    var cs := CategoryList(words);
    assert forall c :: c in cs <==> exists i :: 0 <= i < |words| && words[i].category == c by {
      forall c ensures c in cs <==> exists i :: 0 <= i < |words| && words[i].category == c {
        if c in cs {
          var i :| 0 <= i < |cs| && cs[i] == c;
          assert words[i].category == c;
        }
      }
    }
    [All] + Distinct(cs)
  }

  /** After `'all'`, each category appears once, in order of first occurrence. */
  lemma CategoriesDistinctInOrder(words: seq<Word>)
    ensures NoDuplicates(Categories(words)[1..])
    ensures var cs := Categories(words)[1..];
      forall i, j :: 0 <= i < j < |cs| ==> IndexOf(CategoryList(words), cs[i]) < IndexOf(CategoryList(words), cs[j])
  {
    assert Categories(words)[1..] == DistinctFrom(CategoryList(words), {});
    DistinctFromNoDuplicates(CategoryList(words), {});
    DistinctFromFirstOccurrenceOrder(CategoryList(words), {});
  }

  /** The search part of the filter: the lower-cased English or Japanese contains
      the lower-cased search term. */
  predicate MatchesSearch(w: Word, searchTerm: string)
  {
    Includes(ToLower(w.english), ToLower(searchTerm)) || Includes(ToLower(w.japanese), ToLower(searchTerm))
  }

  /** The category part of the filter. */
  predicate MatchesCategory(w: Word, selectedCategory: string)
  {
    selectedCategory == All || w.category == selectedCategory
  }

  /** `filteredWords`. */
  function FilteredWords(words: seq<Word>, searchTerm: string, selectedCategory: string): (r: seq<Word>)
    ensures forall w :: w in r <==> w in words && MatchesSearch(w, searchTerm) && MatchesCategory(w, selectedCategory)
  {
    Filter(words, (w: Word) => MatchesSearch(w, searchTerm) && MatchesCategory(w, selectedCategory))
  }

  /** The search condition holds exactly when the lower-cased term occurs at
      some position of the lower-cased English or Japanese. */
  lemma MatchesSearchIff(w: Word, searchTerm: string)
    ensures MatchesSearch(w, searchTerm) <==>
      (exists i :: OccursAt(ToLower(w.english), ToLower(searchTerm), i))
      || (exists i :: OccursAt(ToLower(w.japanese), ToLower(searchTerm), i))
  {
    IncludesIff(ToLower(w.english), ToLower(searchTerm));
    IncludesIff(ToLower(w.japanese), ToLower(searchTerm));
  }

  /** The filtered list keeps the words in their order. */
  lemma FilteredWordsInOrder(words: seq<Word>, searchTerm: string, selectedCategory: string)
    ensures IsSubsequence(FilteredWords(words, searchTerm, selectedCategory), words)
  {
    FilterIsSubsequence(words, (w: Word) => MatchesSearch(w, searchTerm) && MatchesCategory(w, selectedCategory));
  }

  /** With no search term and the `'all'` category every word is shown. */
  lemma EmptySearchShowsAll(words: seq<Word>)
    ensures FilteredWords(words, "", All) == words
  {
    forall i | 0 <= i < |words| ensures MatchesSearch(words[i], "") {
      IncludesEmpty(ToLower(words[i].english));
    }
    FilterKeepsAll(words, (w: Word) => MatchesSearch(w, "") && MatchesCategory(w, All));
  }

  /** The words of one difficulty tab. */
  function WordsOfDifficulty(words: seq<Word>, d: Difficulty): (r: seq<Word>)
    ensures forall w :: w in r <==> w in words && w.difficulty == d
  {
    Filter(words, (w: Word) => w.difficulty == d)
  }

  /** The beginner, intermediate and advanced tabs together hold every filtered
      word exactly once. */
  lemma DifficultyPartition(filtered: seq<Word>)
    ensures multiset(WordsOfDifficulty(filtered, Beginner)) + multiset(WordsOfDifficulty(filtered, Intermediate))
            + multiset(WordsOfDifficulty(filtered, Advanced)) == multiset(filtered)
    ensures |WordsOfDifficulty(filtered, Beginner)| + |WordsOfDifficulty(filtered, Intermediate)|
            + |WordsOfDifficulty(filtered, Advanced)| == |filtered|
  {
    FilterPartition3(filtered, (w: Word) => w.difficulty == Beginner,
                     (w: Word) => w.difficulty == Intermediate, (w: Word) => w.difficulty == Advanced);
  }

  const Green := "text-green-600"
  const Yellow := "text-yellow-600"
  const Red := "text-red-600"

  /** `getMasteryColor(level)`. */
  function MasteryColor(level: int): (c: string)
    ensures c == Green <==> level >= 80
    ensures c == Yellow <==> 60 <= level < 80
    ensures c == Red <==> level < 60
  {
    if level >= 80 then Green else if level >= 60 then Yellow else Red
  }

  /** The "mastered" figure: words at level 80 or more. */
  function Mastered(words: seq<Word>): (r: seq<Word>)
    ensures forall w :: w in r <==> w in words && MasteryColor(w.masteryLevel) == Green
  {
    Filter(words, (w: Word) => w.masteryLevel >= 80)
  }

  /** The "needs review" figure: words below level 60. */
  function NeedsReview(words: seq<Word>): (r: seq<Word>)
    ensures forall w :: w in r <==> w in words && MasteryColor(w.masteryLevel) == Red
  {
    Filter(words, (w: Word) => w.masteryLevel < 60)
  }

  /** No word counts as both mastered and needing review, so the two figures
      add up to at most the number of words. */
  lemma MasteredAndNeedsReviewDisjoint(words: seq<Word>)
    ensures |Mastered(words)| + |NeedsReview(words)| <= |words|
    ensures forall w :: !(w in Mastered(words) && w in NeedsReview(words))
  {
    FilterDisjoint(words, (w: Word) => w.masteryLevel >= 80, (w: Word) => w.masteryLevel < 60);
  }

  function Level(w: Word): int
  {
    w.masteryLevel
  }

  /** The average-mastery figure, `Math.round(sum / words.length)`; `None` for no
      words, where the source divides by zero. `Math.round` rounds halves up. */
  function RoundedAverage(words: seq<Word>): (r: Option<int>)
    ensures r.None? <==> words == []
    ensures r.Some? ==>
      2 * |words| * r.value - |words| <= 2 * SumOf(words, Level) < 2 * |words| * r.value + |words|
  {
    if words == [] then None
    else
      var n := |words|;
      var s := SumOf(words, Level);
      var q := (2 * s + n) / (2 * n);
      assert 2 * n * q <= 2 * s + n < 2 * n * q + 2 * n;
      Some(q)
  }

  /** When every level is in 0..100 so is the rounded average. */
  lemma RoundedAverageInRange(words: seq<Word>)
    requires forall i :: 0 <= i < |words| ==> 0 <= words[i].masteryLevel <= 100
    ensures RoundedAverage(words).Some? ==> 0 <= RoundedAverage(words).value <= 100
  {
    if words != [] {
      SumOfBounds(words, Level, 0, 100);
      RoundedInRange(|words|, SumOf(words, Level), RoundedAverage(words).value);
    }
  }

  /** A sum of `n` terms in 0..100 rounds, divided by `n`, into 0..100. */
  lemma RoundedInRange(n: int, s: int, r: int)
    requires n > 0 && 0 <= s <= 100 * n
    requires 2 * n * r - n <= 2 * s < 2 * n * r + n
    ensures 0 <= r <= 100
  {
  }
}
