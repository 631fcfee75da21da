/** The application's records: users, vocabulary words, vocabulary songs, the
    screens, the `Partial<…>` update objects the stores accept, and the shape of
    the settings object. */
module Types {
  import opened Outcomes

  /** A `Date`, as the milliseconds `getTime()` returns. */
  type Timestamp = int

  datatype HomeLocation = HomeLocation(latitude: real, longitude: real, address: string)

  datatype User = User(id: string, email: string, name: string, homeLocation: Option<HomeLocation>)

  datatype Difficulty = Beginner | Intermediate | Advanced

  /** A vocabulary word. `masteryLevel` is documented as 0-100, but nothing in the
      stores enforces that range (see `WordsStore.LocalMasteryNotClamped`). */
  datatype Word = Word(
    id: string,
    userId: string,
    english: string,
    japanese: string,
    pronunciation: Option<string>,
    difficulty: Difficulty,
    category: string,
    createdAt: Timestamp,
    lastReviewed: Option<Timestamp>,
    masteryLevel: int)

  datatype Genre = JPop | Chill | Acoustic

  /** A generated song; `words` holds the ids of the words it teaches and
      `duration` is in seconds. */
  datatype VocabularySong = VocabularySong(
    id: string,
    title: string,
    artist: string,
    genre: Genre,
    audioUrl: string,
    lyrics: string,
    words: seq<string>,
    duration: int,
    createdAt: Timestamp)

  datatype Screen = LoginScreen | DashboardScreen | WordsScreen | AddWordScreen | SongsScreen | SettingsScreen

  /** `Partial<Word>`: `None` is an absent key. For the fields `Word` declares
      optional, `Some(None)` is a key present with the value `undefined`. */
  datatype WordPatch = WordPatch(
    id: Option<string>,
    userId: Option<string>,
    english: Option<string>,
    japanese: Option<string>,
    pronunciation: Option<Option<string>>,
    difficulty: Option<Difficulty>,
    category: Option<string>,
    createdAt: Option<Timestamp>,
    lastReviewed: Option<Option<Timestamp>>,
    masteryLevel: Option<int>)

  /** `Partial<VocabularySong>`: `None` is an absent key. */
  datatype SongPatch = SongPatch(
    id: Option<string>,
    title: Option<string>,
    artist: Option<string>,
    genre: Option<Genre>,
    audioUrl: Option<string>,
    lyrics: Option<string>,
    words: Option<seq<string>>,
    duration: Option<int>,
    createdAt: Option<Timestamp>)

  /** The keys of the settings object. */
  datatype SettingKey =
    | AutoPlay | Volume | MusicGenre | GeofenceNotifications | LearningReminders
    | DailyGoalReminders | GeofenceEnabled | HomeRadius | DarkMode | Language
    | OfflineMode | DailyWordGoal | DifficultyLevel | ReviewInterval

  /** A value stored under a settings key: a boolean, a number, an array of
      numbers (the sliders' values) or a string. */
  datatype SettingValue = Flag(on: bool) | Amount(n: int) | Amounts(ns: seq<int>) | Choice(s: string)

  /** The settings object. As in JavaScript, any subset of keys may be present;
      a value of any kind may sit under any key. */
  type Settings = map<SettingKey, SettingValue>
}
