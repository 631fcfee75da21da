/** The client-side store of vocabulary songs: the song list and the song
    currently selected for playback. Every action is local; nothing waits on a
    backend. */
module SongsStore {
  import opened Outcomes
  import opened Types
  import opened Seqs
  import opened Text

  /** `Omit<VocabularySong, 'id'>`: what `addSong` receives. */
  datatype SongInput = SongInput(
    title: string,
    artist: string,
    genre: Genre,
    audioUrl: string,
    lyrics: string,
    words: seq<string>,
    duration: int,
    createdAt: Timestamp)

  /** `{ ...song, id: Date.now().toString(), createdAt: new Date() }`, the clock
      read once as `now` milliseconds. */
  function NewSong(song: SongInput, now: nat): (s: VocabularySong)
    ensures s.id == NatToString(now) && s.createdAt == now
    ensures s.title == song.title && s.artist == song.artist && s.genre == song.genre
    ensures s.audioUrl == song.audioUrl && s.lyrics == song.lyrics
    ensures s.words == song.words && s.duration == song.duration
  {
    VocabularySong(NatToString(now), song.title, song.artist, song.genre, song.audioUrl,
                   song.lyrics, song.words, song.duration, now)
  }

  /** The generated fields ignore the input: whatever `createdAt` it carries, the
      new song is the same. */
  lemma NewSongOverwritesCreatedAt(song: SongInput, now: nat, t: Timestamp)
    ensures NewSong(song.(createdAt := t), now) == NewSong(song, now)
  {
  }

  /** Songs added at different milliseconds get different ids; two added in the
      same millisecond share one. */
  lemma {:induction false} NewSongIds(a: SongInput, b: SongInput, t: nat, u: nat)
    ensures NewSong(a, t).id == NewSong(b, u).id <==> t == u
  {
    if NatToString(t) == NatToString(u) {
      ParseNatToString(t);
      ParseNatToString(u);
    }
  }

  /** `{ ...song, ...updates }`. */
  function MergeSong(s: VocabularySong, p: SongPatch): VocabularySong
  {
    VocabularySong(p.id.GetOr(s.id), p.title.GetOr(s.title), p.artist.GetOr(s.artist),
                   p.genre.GetOr(s.genre), p.audioUrl.GetOr(s.audioUrl), p.lyrics.GetOr(s.lyrics),
                   p.words.GetOr(s.words), p.duration.GetOr(s.duration), p.createdAt.GetOr(s.createdAt))
  }

  /** A patch that names no `id` keeps the song's id, so a merge by id never
      moves a song to another id; the empty patch changes nothing. */
  lemma MergeSongKeepsId(s: VocabularySong, p: SongPatch)
    ensures p.id.None? ==> MergeSong(s, p).id == s.id
    ensures MergeSong(s, SongPatch(None, None, None, None, None, None, None, None, None)) == s
  {
  }

  class Store {
    var songs: seq<VocabularySong>
    var currentSong: Option<VocabularySong>

    /** The initial state: no songs, none selected. */
    constructor ()
      ensures songs == [] && currentSong == None
    {
      songs := [];
      currentSong := None;
    }

    /** `addSong(song)`: appends exactly one new song; the earlier songs stay as
        they were, in their order. */
    method AddSong(song: SongInput, now: nat)
      modifies this
      ensures songs == old(songs) + [NewSong(song, now)]
      ensures |songs| == |old(songs)| + 1 && songs[..|old(songs)|] == old(songs)
      ensures currentSong == old(currentSong)
    {
      songs := songs + [NewSong(song, now)];
    }

    /** `updateSong(id, updates)`: merges the patch into every song with that id;
        length and order are kept and every other song is left as it was. */
    method UpdateSong(id: string, updates: SongPatch)
      modifies this
      ensures |songs| == |old(songs)|
      ensures forall i :: 0 <= i < |songs| ==>
        songs[i] == if old(songs)[i].id == id then MergeSong(old(songs)[i], updates) else old(songs)[i]
      ensures currentSong == old(currentSong)
    {
      songs := MapWhere(songs, (s: VocabularySong) => s.id == id, (s: VocabularySong) => MergeSong(s, updates));
    }

    /** `deleteSong(id)`: removes every song with that id and keeps the rest in
        order. The selected song is not touched, even when it is the one removed. */
    method DeleteSong(id: string)
      modifies this
      ensures songs == Filter(old(songs), (s: VocabularySong) => s.id != id)
      ensures forall s :: s in songs <==> s in old(songs) && s.id != id
      ensures currentSong == old(currentSong)
    {
      songs := Filter(songs, (s: VocabularySong) => s.id != id);
    }

    /** `setCurrentSong(song)`. */
    method SetCurrentSong(song: Option<VocabularySong>)
      modifies this
      ensures currentSong == song && songs == old(songs)
    {
      currentSong := song;
    }

    /** `initializeWithMockData(mockSongs)`: seeds the list only when it is empty. */
    method InitializeWithMockData(mockSongs: seq<VocabularySong>)
      modifies this
      ensures songs == SeedIfEmpty(old(songs), mockSongs)
      ensures currentSong == old(currentSong)
    {
      if |songs| == 0 {
        songs := mockSongs;
      }
    }
  }

  /** Deleting an id no song has leaves the list as it was. */
  lemma DeleteAbsentSong(songs: seq<VocabularySong>, id: string)
    requires forall i :: 0 <= i < |songs| ==> songs[i].id != id
    ensures Filter(songs, (s: VocabularySong) => s.id != id) == songs
  {
    FilterKeepsAll(songs, (s: VocabularySong) => s.id != id);
  }

  /** Updating an id no song has leaves the list as it was. */
  lemma UpdateAbsentSong(songs: seq<VocabularySong>, id: string, updates: SongPatch)
    requires forall i :: 0 <= i < |songs| ==> songs[i].id != id
    ensures MapWhere(songs, (s: VocabularySong) => s.id == id, (s: VocabularySong) => MergeSong(s, updates)) == songs
  {
    MapWhereNoneSelected(songs, (s: VocabularySong) => s.id == id, (s: VocabularySong) => MergeSong(s, updates));
  }
}
