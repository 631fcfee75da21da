/** The home screen: today's review words, the average mastery, the song the
    screen selects for playback, and the rule that starts the day's song when
    the user is near home. Whether a position is "near" another is decided by
    the geolocation hook, which is not part of this model: it is the predicate
    `isNearHome` passed in. */
module Dashboard {
  import opened Outcomes
  import opened Types
  import opened Seqs
  import WordsScreen

  /** The review condition of today's list: mastery below 70 or never reviewed. */
  predicate DueForReview(w: Word)
  {
    w.masteryLevel < 70 || w.lastReviewed.None?
  }

  /** `todayWords`: at most five words due for review, the first ones in list
      order. */
  function TodayWords(words: seq<Word>): (r: seq<Word>)
    ensures |r| <= 5
    ensures forall i :: 0 <= i < |r| ==> r[i] in words && DueForReview(r[i])
    ensures r <= Filter(words, DueForReview)
    ensures |r| == if |Filter(words, DueForReview)| < 5 then |Filter(words, DueForReview)| else 5
  {
    var due := Filter(words, DueForReview);
    var r := Take(due, 5);
    assert forall i :: 0 <= i < |r| ==> r[i] == due[i] && due[i] in due;
    r
  }

  /** Today's words keep the word list's order. */
  lemma TodayWordsInOrder(words: seq<Word>)
    ensures IsSubsequence(TodayWords(words), words)
  {
    FilterIsSubsequence(words, DueForReview);
    PrefixOfSubsequence(TodayWords(words), Filter(words, DueForReview), words);
  }

  /** `averageMastery`: the sum of the levels over the number of words; `None`
      for no words, where the source computes `0 / 0`. */
  function AverageMastery(words: seq<Word>): (r: Option<real>)
    ensures r.None? <==> words == []
    ensures r.Some? ==> r.value * (|words| as real) == SumOf(words, WordsScreen.Level) as real
  {
    if words == [] then None
    else Some((SumOf(words, WordsScreen.Level) as real) / (|words| as real))
  }

  /** When every level is in 0..100 so is the average. */
  lemma AverageMasteryInRange(words: seq<Word>)
    requires forall i :: 0 <= i < |words| ==> 0 <= words[i].masteryLevel <= 100
    ensures AverageMastery(words).Some? ==> 0.0 <= AverageMastery(words).value <= 100.0
  {
    if words != [] {
      SumOfBounds(words, WordsScreen.Level, 0, 100);
      QuotientInRange(|words| as real, SumOf(words, WordsScreen.Level) as real, AverageMastery(words).value);
    }
  }

  /** `a * n == s` with `0 <= s <= 100 * n` puts `a` in 0..100. */
  lemma QuotientInRange(n: real, s: real, a: real)
    requires n > 0.0 && 0.0 <= s <= 100.0 * n && a * n == s
    ensures 0.0 <= a <= 100.0
  {
  }

  /** A position, as the geolocation hook compares them. */
  datatype Coordinates = Coordinates(latitude: real, longitude: real)

  /** The fixed demo location the status badge checks. */
  const DemoHome := Coordinates(35.6762, 139.6503)

  function HomeCoordinates(h: HomeLocation): Coordinates
  {
    Coordinates(h.latitude, h.longitude)
  }

  /** The condition of the auto-play effect: the user has a home and is near it. */
  predicate AutoPlayFires(user: User, isNearHome: Coordinates -> bool)
  {
    user.homeLocation.Some? && isNearHome(HomeCoordinates(user.homeLocation.value))
  }

  /** The "near home" badge: no geolocation error, both coordinates truthy (not
      missing, not 0), and near the demo location. */
  predicate BadgeShown(hasError: bool, latitude: Option<real>, longitude: Option<real>, isNearHome: Coordinates -> bool)
  {
    !hasError && latitude.Some? && latitude.value != 0.0 && longitude.Some? && longitude.value != 0.0
    && isNearHome(DemoHome)
  }

  /** The badge looks at the demo location, the effect at the user's home, so
      either can hold without the other. */
  lemma BadgeAndTriggerCanDisagree()
    ensures exists user, isNearHome :: AutoPlayFires(user, isNearHome) && !BadgeShown(false, Some(1.0), Some(1.0), isNearHome)
    ensures exists user, isNearHome :: !AutoPlayFires(user, isNearHome) && BadgeShown(false, Some(1.0), Some(1.0), isNearHome)
  {
    var home := HomeLocation(1.0, 1.0, "");
    var atHome := (c: Coordinates) => c == HomeCoordinates(home);
    var user := User("1", "", "", Some(home));
    assert AutoPlayFires(user, atHome) && !BadgeShown(false, Some(1.0), Some(1.0), atHome);
    var atDemo := (c: Coordinates) => c == DemoHome;
    assert !AutoPlayFires(user, atDemo) && BadgeShown(false, Some(1.0), Some(1.0), atDemo);
  }

  class Screen {
    const user: User
    const words: seq<Word>
    const songs: seq<VocabularySong>
    var currentSong: Option<VocabularySong>

    /** The screen opens with the given words and songs and nothing selected. */
    constructor (user: User, words: seq<Word>, songs: seq<VocabularySong>)
      ensures this.user == user && this.words == words && this.songs == songs
      ensures currentSong == None
    {
      this.user := user;
      this.words := words;
      this.songs := songs;
      currentSong := None;
    }

    /** The auto-play effect: when it fires, the first song becomes the selected
        one (with no songs, `songs[0]` is `undefined` and nothing is selected);
        otherwise the selection stays as it was. */
    method AutoPlayEffect(isNearHome: Coordinates -> bool)
      modifies this
      ensures AutoPlayFires(user, isNearHome) ==> currentSong == if |songs| > 0 then Some(songs[0]) else None
      ensures !AutoPlayFires(user, isNearHome) ==> currentSong == old(currentSong)
    {
      if user.homeLocation.Some? && isNearHome(HomeCoordinates(user.homeLocation.value)) {
        currentSong := if |songs| > 0 then Some(songs[0]) else None;
      }
    }

    /** `playVocabularySong(song)`: selects the song. */
    method PlayVocabularySong(song: VocabularySong)
      modifies this
      ensures currentSong == Some(song)
    {
      currentSong := Some(song);
    }
  }
}
