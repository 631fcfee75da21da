/** The song list screen: the `m:ss` duration format, the words each song
    teaches, the genre tabs, the total-minutes figure, and the play/pause rule
    over the songs store's selected song. */
module SongsScreen {
  import opened Outcomes
  import opened Types
  import opened Seqs
  import opened Text
  import SongsStore

  /** `a % b` in JavaScript for a positive `b`: the remainder takes the sign of
      `a` (Dafny's `%` never returns a negative value). */
  function JsRem(a: int, b: int): (r: int)
    requires b > 0
    ensures a >= 0 ==> r == a % b
    ensures -b < r < b && (r < 0 ==> a < 0)
  {
    if a >= 0 then a % b else -((-a) % b)
  }

  /** `formatTime(seconds)`: `Math.floor(seconds / 60)`, a colon, then
      `(seconds % 60).toString().padStart(2, "0")`. */
  function FormatTime(seconds: int): string
  {
    IntToString(seconds / 60) + ":" + PadStart(IntToString(JsRem(seconds, 60)), 2, '0')
  }

  /** Reads an `m:ss` string back into seconds: at least one digit of minutes,
      a colon, then two digits of seconds below 60. */
  function ParseTime(t: string): (r: Option<int>)
    ensures r.Some? ==> r.value >= 0 && |t| >= 4 && t[|t| - 3] == ':'
  {
    if |t| >= 4 && t[|t| - 3] == ':' && IsDigits(t[..|t| - 3]) && IsDigits(t[|t| - 2..])
       && ParseNat(t[|t| - 2..]) < 60
    then Some(ParseNat(t[..|t| - 3]) * 60 + ParseNat(t[|t| - 2..]))
    else None
  }

  /** The seconds part of a non-negative time is two digits that read back as
      the remainder. */
  lemma TwoDigitSeconds(n: nat)
    requires n < 60
    ensures |PadStart(NatToString(n), 2, '0')| == 2 && IsDigits(PadStart(NatToString(n), 2, '0'))
    ensures ParseNat(PadStart(NatToString(n), 2, '0')) == n
  {
    var p := PadStart(NatToString(n), 2, '0');
    if n < 10 {
      assert p == ['0', DigitChar(n)];
      assert p[..1] == ['0'] && ['0'][..0] == [];
    } else {
      assert NatToString(n) == NatToString(n / 10) + [DigitChar(n % 10)];
      assert NatToString(n / 10) == [DigitChar(n / 10)];
      ParseNatToString(n);
    }
  }

  /** For a non-negative number of seconds, `formatTime` prints the minutes, a
      colon and two digits of seconds, and reading that back gives the seconds:
      `mins * 60 + secs == seconds`. */
  lemma FormatTimeRoundTrip(seconds: int)
    requires seconds >= 0
    ensures |FormatTime(seconds)| == |NatToString(seconds / 60)| + 3
    ensures ParseTime(FormatTime(seconds)) == Some(seconds)
  {
    FormatTimeLength(seconds);
    FormatTimeReadsBack(seconds);
  }

  /** The length half of `FormatTimeRoundTrip`. */
  lemma FormatTimeLength(seconds: int)
    requires seconds >= 0
    ensures |FormatTime(seconds)| == |NatToString(seconds / 60)| + 3
  {
    FormatTimeShape(seconds, seconds / 60, seconds % 60);
    ClockReadsBack(seconds / 60, seconds % 60);
  }

  /** The reading-back half of `FormatTimeRoundTrip`. */
  lemma FormatTimeReadsBack(seconds: int)
    requires seconds >= 0
    ensures ParseTime(FormatTime(seconds)) == Some(seconds)
  {
    FormatTimeShape(seconds, seconds / 60, seconds % 60);
    ClockOfSecondsReadsBack(seconds);
  }

  /** The clock of a number of seconds reads back as that number. */
  lemma ClockOfSecondsReadsBack(seconds: nat)
    ensures ParseTime(Clock(seconds / 60, seconds % 60)) == Some(seconds)
  {
    ClockReadsBack(seconds / 60, seconds % 60);
  }

  /** Minutes `q`, a colon and `rem` padded to two digits. */
  function Clock(q: nat, rem: nat): string
  {
    NatToString(q) + ":" + PadStart(NatToString(rem), 2, '0')
  }

  /** For a non-negative number of seconds neither part carries a sign. */
  lemma FormatTimeShape(seconds: int, q: nat, rem: nat)
    requires seconds >= 0 && q == seconds / 60 && rem == seconds % 60
    ensures FormatTime(seconds) == Clock(q, rem)
  {
  }

  /** Whole minutes `q`, a colon and the seconds `rem` padded to two digits
      read back as `q * 60 + rem`. */
  lemma ClockReadsBack(q: nat, rem: nat)
    requires rem < 60
    ensures |Clock(q, rem)| == |NatToString(q)| + 3 && ParseTime(Clock(q, rem)) == Some(q * 60 + rem)
  {
    TwoDigitSeconds(rem);
    ParseNatToString(q);
    ParseTimeOfDigits(NatToString(q), PadStart(NatToString(rem), 2, '0'), q, rem);
  }

  /** Minutes written as digits, a colon and two digits of seconds below 60
      read back as `minutes * 60 + seconds`. */
  lemma ParseTimeOfDigits(m: string, secs: string, q: nat, rem: nat)
    requires m != [] && IsDigits(m) && |secs| == 2 && IsDigits(secs)
    requires ParseNat(m) == q && ParseNat(secs) == rem && rem < 60
    ensures |m + ":" + secs| == |m| + 3 && ParseTime(m + ":" + secs) == Some(q * 60 + rem)
  {
    ClockSplit(m, secs);
    ParseTimeAt(m + ":" + secs, m, secs);
  }

  /** Where the parts of `m + ":" + secs` sit, for two-character `secs`. */
  lemma ClockSplit(m: string, secs: string)
    requires |secs| == 2
    ensures var t := m + ":" + secs;
      |t| == |m| + 3 && t[..|t| - 3] == m && t[|t| - 2..] == secs && t[|t| - 3] == ':'
  {
  }

  /** `ParseTime` on a string made of digits `m`, a colon and digits `secs`. */
  lemma ParseTimeAt(t: string, m: string, secs: string)
    requires m != [] && IsDigits(m) && |secs| == 2 && IsDigits(secs) && ParseNat(secs) < 60
    requires |t| == |m| + 3 && t[..|t| - 3] == m && t[|t| - 2..] == secs && t[|t| - 3] == ':'
    ensures ParseTime(t) == Some(ParseNat(m) * 60 + ParseNat(secs))
  {
  }

  /** `getWordsInSong(song)`: the words whose id the song lists, in the word
      list's order. */
  function WordsInSong(words: seq<Word>, song: VocabularySong): (r: seq<Word>)
    ensures forall w :: w in r <==> w in words && w.id in song.words
  {
    Filter(words, (w: Word) => w.id in song.words)
  }

  /** The words of a song are a subsequence of the word list. */
  lemma WordsInSongInOrder(words: seq<Word>, song: VocabularySong)
    ensures IsSubsequence(WordsInSong(words, song), words)
  {
    FilterIsSubsequence(words, (w: Word) => w.id in song.words);
  }

  /** The songs of one genre tab. */
  function SongsOfGenre(songs: seq<VocabularySong>, g: Genre): (r: seq<VocabularySong>)
    ensures forall s :: s in r <==> s in songs && s.genre == g
  {
    Filter(songs, (s: VocabularySong) => s.genre == g)
  }

  /** The J-POP, Chill and Acoustic tabs together hold every song exactly once. */
  lemma GenrePartition(songs: seq<VocabularySong>)
    ensures multiset(SongsOfGenre(songs, JPop)) + multiset(SongsOfGenre(songs, Chill))
            + multiset(SongsOfGenre(songs, Acoustic)) == multiset(songs)
    ensures |SongsOfGenre(songs, JPop)| + |SongsOfGenre(songs, Chill)| + |SongsOfGenre(songs, Acoustic)| == |songs|
  {
    FilterPartition3(songs, (s: VocabularySong) => s.genre == JPop,
                     (s: VocabularySong) => s.genre == Chill, (s: VocabularySong) => s.genre == Acoustic);
  }

  function Duration(s: VocabularySong): int
  {
    s.duration
  }

  /** The total-minutes figure: `Math.floor(sum of durations / 60)`, the whole
      minutes in the summed seconds. */
  function TotalMinutes(songs: seq<VocabularySong>): (r: int)
    ensures r * 60 <= SumOf(songs, Duration) < r * 60 + 60
  {
    SumOf(songs, Duration) / 60
  }

  /** Playback state of the screen over the songs store. */
  class Screen {
    const store: SongsStore.Store
    var isPlaying: bool
    var currentTime: int

    /** Mounting the screen seeds the song store with the demo songs if it has none. */
    constructor (store: SongsStore.Store, mockSongs: seq<VocabularySong>)
      modifies store
      ensures this.store == store && !isPlaying && currentTime == 0
      ensures store.songs == SeedIfEmpty(old(store.songs), mockSongs)
      ensures store.currentSong == old(store.currentSong)
    {
      this.store := store;
      isPlaying := false;
      currentTime := 0;
      new;
      store.InitializeWithMockData(mockSongs);
    }

    /** `playSong(song)`: the selected song (same id) toggles between playing and
        paused; any other song becomes the selected one and starts from 0. */
    method PlaySong(song: VocabularySong)
      modifies this, store
      ensures store.songs == old(store.songs)
      ensures old(store.currentSong).Some? && old(store.currentSong).value.id == song.id ==>
        isPlaying == !old(isPlaying) && currentTime == old(currentTime) && store.currentSong == old(store.currentSong)
      ensures !(old(store.currentSong).Some? && old(store.currentSong).value.id == song.id) ==>
        isPlaying && currentTime == 0 && store.currentSong == Some(song)
    {
      if store.currentSong.Some? && store.currentSong.value.id == song.id {
        isPlaying := !isPlaying;
      } else {
        store.SetCurrentSong(Some(song));
        isPlaying := true;
        currentTime := 0;
      }
    }
  }
}
