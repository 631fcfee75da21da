# MimiCoach core, modelled in Dafny

MimiCoach is a vocabulary-learning web app. Users keep a list of English
words with their Japanese meanings and a mastery level (0–100). They listen
to "vocabulary songs" that use those words. When they come near home, the
day's song is meant to start playing. This project models the deterministic
rules under the app's screens and proves properties of them:

- the words service over the hosted document store: document mapping, the
  update and mastery payloads, the error-message table, and the rule that
  every operation reports failure as a value;
- the words store, whose list changes only after the service reports success;
- the songs store: append, merge by id, delete, seed with demo data;
- the word-list, song-list, dashboard and add-word screens: filters,
  categories, difficulty and genre tabs, colour bands, averages, the `m:ss`
  time format, today's review list, the auto-play rule, form validation and
  the saved word;
- the mock session hook (`useAuth`): restore, login, register, logout over
  the user and its storage entry;
- the authentication service: its error table, the display-name fallback
  chain, and register/login/logout results;
- the settings screen: defaults overlaid with the stored object, single-key
  changes, the storage and dark-mode effects, setting home, export;
- the theme helpers: light, dark or system, and the `dark` class on the
  document root.

The modules follow the source files:

| module | file |
|---|---|
| `WordsService` | `lib/wordsService.ts` |
| `WordsStore` | `store/useWordsStore.ts` |
| `SongsStore` | `store/useSongsStore.ts` |
| `WordsScreen` | `components/WordsScreen.tsx` |
| `SongsScreen` | `components/SongsScreen.tsx` |
| `Dashboard` | `components/Dashboard.tsx` |
| `AddWordScreen` | `components/AddWordScreen.tsx` |
| `AuthHook` | `hooks/useAuth.ts` |
| `AuthService` | `lib/authService.ts` |
| `SettingsScreen` | `components/SettingsScreen.tsx` |
| `Theme` | `lib/theme.ts` |

`Types` holds the shared records (`User`, `Word`, `VocabularySong`, the
screen names, partial updates, the settings object). `Browser` holds the
local-storage entries and the root element's class list, as one `Window`
object. `Outcomes` holds `Option`, the outcome of an awaited backend call
(`Attempt`: returned or threw with a code) and the `{ success, error }`
reply (`Reply`). `Seqs` and `Text` give the JavaScript array and string
operations the code uses:

- `filter`, `map` over matching elements, `slice(0, n)`, `new Set`,
  `reduce` sums;
- decimal printing and parsing, `padStart`, `trim`, ASCII `toLowerCase`,
  `includes`, `split(c)[0]`, the `a || b || …` fallback on strings.

Calls to the backend, the clock, storage exceptions, geolocation and number
formatting are inputs:

- each backend call is an `Attempt` parameter;
- `Date.now()` / `new Date()` is one `now` parameter;
- "reading or writing throws" is a boolean parameter;
- `isNearHome` and `toFixed(4)` are function parameters.

Objects whose fields the source updates in place are classes with
`modifies` clauses: the two stores, the hook, the screens' state and the
window. Pure rules are functions, with lemmas stating what they promise.

Where the source disagrees with itself the model follows the code, and a
lemma states the disagreement:

- The words store keeps an unclamped mastery level while the backend stores
  the clamped one (`WordsStore.LocalMasteryNotClamped`).
- The store's local merge keeps a patch's `id` and `createdAt` while the
  backend drops them (`WordsStore.MergeDivergesFromPayload`).
- The dashboard's "near home" badge checks a fixed Tokyo location while
  auto-play checks the user's home (`Dashboard.BadgeAndTriggerCanDisagree`).
- Ids made from the clock collide within one millisecond
  (`SongsStore.NewSongIds`, `AuthHook.RegisterIds`).
- The mock login gives every user the id `"1"` (`AuthHook.LoginIdsCollide`).

## Model

| member | source | states |
|---|---|---|
| `WordsService.ErrorMessage` | team-35/src/lib/wordsService.ts:29-48 | every error code gets a non-empty message |
| `WordsService.ErrorMessageTable` | team-35/src/lib/wordsService.ts:29-48 | the seven known codes get seven distinct messages, none of them the default; every other code gets the default message |
| `WordsService.Settle` | team-35/src/lib/wordsService.ts:143-153 | a call that returns is a success; one that throws is a failure carrying the table's message for its code |
| `WordsService.FromFirestore` | team-35/src/lib/wordsService.ts:51-57 | the mapped word's id is the document id; a missing `createdAt` becomes the current time; `lastReviewed` is kept as stored |
| `WordsService.DocumentIdOverridesStoredId` | team-35/src/lib/wordsService.ts:52-54 | any `id` stored inside the document is ignored in favour of the document id |
| `WordsService.MapSnapshot` | team-35/src/lib/wordsService.ts:101-104 | the loop maps every document in snapshot order: one word per document, at the same position, with the document's id |
| `WordsService.GetUserWords` | team-35/src/lib/wordsService.ts:90-114 | a failed query gives the table's message; a successful one gives exactly the mapped documents in order |
| `WordsService.Spread` | team-35/src/lib/wordsService.ts:122 | `{ ...updates }` holds exactly the keys the patch sets, with their values |
| `WordsService.UpdatePayload` | team-35/src/lib/wordsService.ts:122-129 | the update never carries `id` or `createdAt`; a `lastReviewed` date becomes the server timestamp; every other key passes through unchanged |
| `WordsService.SanitizeUpdate` | team-35/src/lib/wordsService.ts:122-129 | the statements that edit the spread object produce exactly `UpdatePayload` |
| `WordsService.UpdateWord` | team-35/src/lib/wordsService.ts:117-140 | sends `UpdatePayload(updates)`; the reply succeeds iff the write returns, and otherwise carries the table's message |
| `WordsService.DeleteWord` | team-35/src/lib/wordsService.ts:143-154 | succeeds iff the delete returns; otherwise carries the table's message for its code |
| `WordsService.Clamp` | team-35/src/lib/wordsService.ts:161 | the result is in 0..100, equals the level when the level is in range, and is 0 below and 100 above |
| `WordsService.MasteryPayload` | team-35/src/lib/wordsService.ts:160-163 | the mastery update has exactly two keys: a level in 0..100 and the server timestamp |
| `WordsService.UpdateMasteryLevel` | team-35/src/lib/wordsService.ts:157-172 | sends `MasteryPayload(level)` and succeeds iff the write returns; a throwing write gives the table's (non-empty) message for its code |
| `WordsService.AddPayload` | team-35/src/lib/wordsService.ts:63-68 | the new document carries the given user id and a server `createdAt`; `lastReviewed` is the server time when the data has one and `null` otherwise |
| `WordsService.AddPayloadOverrides` | team-35/src/lib/wordsService.ts:63-68 | the `userId` inside the word data never reaches the document, and neither does the `lastReviewed` date itself |
| `WordsService.AddWord` | team-35/src/lib/wordsService.ts:61-87 | the document written is `AddPayload(userId, data)`, under the given user id; success iff the write returns and the read finds the document, and the word is that document mapped under the new id; a throwing write or read gives the table's message; a missing document gives the add-failed message |
| `WordsStore.OrDefault` | team-35/src/store/useWordsStore.ts:41 | a non-empty service message wins, otherwise the store's fallback message |
| `WordsStore.ServiceMessageWins` | team-35/src/store/useWordsStore.ts:84 | since the service never reports an empty message, a failed update leaves exactly the service's message in the store |
| `WordsStore.MergeAgreesWithPayload` | team-35/src/store/useWordsStore.ts:78 | the empty patch changes nothing; on every field other than `id`, `createdAt` and `lastReviewed` the merged word agrees with what the backend was sent, and keeps its old value where nothing was sent |
| `WordsStore.MergeDivergesFromPayload` | team-35/src/store/useWordsStore.ts:78 | the local merge takes `id`, `createdAt` and the `lastReviewed` date from the patch, while the backend update drops the first two and stores the server time for the third |
| `WordsStore.LocalMasteryNotClamped` | team-35/src/store/useWordsStore.ts:113 | the level the store records equals the level the backend stores iff the level is in 0..100 |
| `WordsStore.DeleteAbsentWord` | team-35/src/store/useWordsStore.ts:95 | deleting an id no word has leaves the list unchanged |
| `WordsStore.Draft` | team-35/src/store/useWordsStore.ts:50-54 | the data passed to the service carries the given user id and the input's fields |
| `WordsStore.Store.constructor` | team-35/src/store/useWordsStore.ts:28-30 | the store starts with no words, not loading, no error |
| `WordsStore.Store.LoadUserWords` | team-35/src/store/useWordsStore.ts:33-45 | success replaces the list with the mapped documents in order and clears the error; failure keeps the list and records the service's message; loading ends false |
| `WordsStore.Store.AddWord` | team-35/src/store/useWordsStore.ts:48-69 | the backend is sent `AddPayload` of the user id and the word data; returns true iff the service adds the word; on success the stored word is put at the front, ahead of the unchanged old list; on failure the list is kept and the message recorded |
| `WordsStore.Store.UpdateWord` | team-35/src/store/useWordsStore.ts:72-87 | true iff the write returns; on success every word with the id is merged with the patch and every other word is kept, with length and order unchanged; on failure the list is kept and the message recorded |
| `WordsStore.Store.DeleteWord` | team-35/src/store/useWordsStore.ts:90-103 | true iff the delete returns; on success exactly the words with that id leave the list and the rest keep their order; on failure the list is kept |
| `WordsStore.Store.UpdateMasteryLevel` | team-35/src/store/useWordsStore.ts:106-123 | the backend is sent the clamped payload; on success the words with the id get the given level and `lastReviewed = now`, and others are kept; on failure the list is kept |
| `WordsStore.Store.ReceiveSnapshot` | team-35/src/store/useWordsStore.ts:129-131 | each snapshot replaces the list with its mapped documents in order and clears the error |
| `WordsStore.Store.ReceiveSnapshotError` | team-35/src/store/useWordsStore.ts:132-134 | a listener error records the table's message and keeps the list |
| `WordsStore.Store.SetError` | team-35/src/store/useWordsStore.ts:139 | sets the error only |
| `WordsStore.Store.SetLoading` | team-35/src/store/useWordsStore.ts:140 | sets the loading flag only |
| `WordsStore.Store.InitializeWithMockData` | team-35/src/store/useWordsStore.ts:143-148 | the demo words are installed only when the list is empty |
| `SongsStore.NewSong` | team-35/src/store/useSongsStore.ts:22-26 | the new song's id is the clock printed in decimal; `createdAt` is the clock; every other field is the input's |
| `SongsStore.NewSongOverwritesCreatedAt` | team-35/src/store/useSongsStore.ts:25 | the input's own `createdAt` has no effect on the new song |
| `SongsStore.NewSongIds` | team-35/src/store/useSongsStore.ts:24 | two new songs get the same id iff they are added in the same millisecond |
| `SongsStore.MergeSongKeepsId` | team-35/src/store/useSongsStore.ts:35 | a patch without `id` keeps the song's id; the empty patch changes nothing |
| `SongsStore.Store.constructor` | team-35/src/store/useSongsStore.ts:18-19 | the store starts with no songs and none selected |
| `SongsStore.Store.AddSong` | team-35/src/store/useSongsStore.ts:21-30 | appends exactly the new song; the earlier songs are unchanged and in order; the selection is untouched |
| `SongsStore.Store.UpdateSong` | team-35/src/store/useSongsStore.ts:32-38 | songs with the id are merged with the patch, all others kept, with length and order unchanged |
| `SongsStore.Store.DeleteSong` | team-35/src/store/useSongsStore.ts:40-44 | exactly the songs with that id are removed, the rest kept in order; the selected song is left as it was, even when it is the deleted one |
| `SongsStore.Store.SetCurrentSong` | team-35/src/store/useSongsStore.ts:46-48 | selects the song and leaves the list alone |
| `SongsStore.Store.InitializeWithMockData` | team-35/src/store/useSongsStore.ts:50-55 | the demo songs are installed only when the list is empty |
| `SongsStore.DeleteAbsentSong` | team-35/src/store/useSongsStore.ts:42 | deleting an id no song has leaves the list unchanged |
| `SongsStore.UpdateAbsentSong` | team-35/src/store/useSongsStore.ts:34-36 | updating an id no song has leaves the list unchanged |
| `SongsScreen.JsRem` | team-35/src/components/SongsScreen.tsx:65 | JavaScript `%`: equal to the mathematical remainder for a non-negative dividend; strictly between `-b` and `b`; negative only for a negative dividend |
| `SongsScreen.ParseTime` | team-35/src/components/SongsScreen.tsx:63-67 | the reading of an `m:ss` string back into seconds accepts only text with a colon three characters from the end, and never gives a negative number |
| `SongsScreen.FormatTimeShape` | team-35/src/components/SongsScreen.tsx:63-67 | for a non-negative number of seconds, `formatTime` prints the whole minutes, a colon and the remainder padded to two characters, neither part with a sign |
| `SongsScreen.ClockReadsBack` | team-35/src/components/SongsScreen.tsx:64-66 | minutes, a colon and a remainder below 60 padded to two digits are three characters longer than the minutes and read back as `minutes * 60 + remainder` |
| `SongsScreen.FormatTimeRoundTrip` | team-35/src/components/SongsScreen.tsx:63-67 | for a non-negative number of seconds, `formatTime` prints the minutes, a colon and exactly two digits, and reading that back gives the original seconds |
| `SongsScreen.TwoDigitSeconds` | team-35/src/components/SongsScreen.tsx:65-66 | a remainder below 60 is padded to exactly two digits that read back as the remainder |
| `SongsScreen.WordsInSong` | team-35/src/components/SongsScreen.tsx:59-61 | a word is shown with a song iff it is in the list and its id is among the song's word ids |
| `SongsScreen.WordsInSongInOrder` | team-35/src/components/SongsScreen.tsx:60 | those words keep the word list's order |
| `SongsScreen.SongsOfGenre` | team-35/src/components/SongsScreen.tsx:157-159 | a tab holds a song iff it is in the list and of that genre |
| `SongsScreen.GenrePartition` | team-35/src/components/SongsScreen.tsx:157-159 | the three genre tabs together hold every song exactly once |
| `SongsScreen.TotalMinutes` | team-35/src/components/SongsScreen.tsx:212 | the figure is the whole number of minutes in the summed durations |
| `SongsScreen.Screen.constructor` | team-35/src/components/SongsScreen.tsx:44-46 | mounting seeds the songs store with the demo songs if it has none |
| `SongsScreen.Screen.PlaySong` | team-35/src/components/SongsScreen.tsx:48-57 | the selected song toggles between playing and paused; any other song becomes the selection and starts from 0 |
| `WordsScreen.CategoryList` | team-35/src/components/WordsScreen.tsx:30 | one category per word, position by position |
| `WordsScreen.Categories` | team-35/src/components/WordsScreen.tsx:30 | `'all'` comes first; a category follows it iff some word has it |
| `WordsScreen.CategoriesDistinctInOrder` | team-35/src/components/WordsScreen.tsx:30 | after `'all'` each category appears once, in order of first occurrence |
| `WordsScreen.FilteredWords` | team-35/src/components/WordsScreen.tsx:32-38 | a word is shown iff it is in the list, matches the search and matches the category |
| `WordsScreen.MatchesSearchIff` | team-35/src/components/WordsScreen.tsx:33-35 | the search matches iff the lower-cased term occurs at some position of the lower-cased English or Japanese |
| `WordsScreen.FilteredWordsInOrder` | team-35/src/components/WordsScreen.tsx:32 | the filtered words keep the list's order |
| `Seqs.FilterCounts` | team-35/src/components/WordsScreen.tsx:32-38 | a filter keeps each kept element exactly as often as the list holds it, and drops every other element entirely |
| `WordsScreen.EmptySearchShowsAll` | team-35/src/components/WordsScreen.tsx:32-38 | an empty search with `'all'` shows the whole list |
| `WordsScreen.WordsOfDifficulty` | team-35/src/components/WordsScreen.tsx:40-42 | a tab holds a word iff it was filtered in and has that difficulty |
| `WordsScreen.DifficultyPartition` | team-35/src/components/WordsScreen.tsx:40-42 | the three difficulty tabs together hold every filtered word exactly once |
| `WordsScreen.MasteryColor` | team-35/src/components/WordsScreen.tsx:57-61 | green iff the level is 80 or more, yellow iff it is in 60..79, red iff it is below 60 |
| `WordsScreen.Mastered` | team-35/src/components/WordsScreen.tsx:149 | exactly the words shown in green |
| `WordsScreen.NeedsReview` | team-35/src/components/WordsScreen.tsx:156 | exactly the words shown in red |
| `WordsScreen.MasteredAndNeedsReviewDisjoint` | team-35/src/components/WordsScreen.tsx:149-156 | no word is counted in both figures, so together they are at most the number of words |
| `WordsScreen.RoundedAverage` | team-35/src/components/WordsScreen.tsx:141 | the figure is the mean level rounded half up, i.e. within half a unit of the mean; none for no words |
| `WordsScreen.RoundedAverageInRange` | team-35/src/components/WordsScreen.tsx:141 | with every level in 0..100 the rounded average is in 0..100 |
| `Dashboard.TodayWords` | team-35/src/components/Dashboard.tsx:44-46 | at most five words, all due for review (level below 70 or never reviewed), the first due ones in list order, and as many as there are up to five |
| `Dashboard.TodayWordsInOrder` | team-35/src/components/Dashboard.tsx:44-46 | today's words keep the list's order |
| `Dashboard.AverageMastery` | team-35/src/components/Dashboard.tsx:48 | the average times the number of words is the sum of the levels; none for no words |
| `Dashboard.AverageMasteryInRange` | team-35/src/components/Dashboard.tsx:48 | with every level in 0..100 the average is in 0..100 |
| `Dashboard.BadgeAndTriggerCanDisagree` | team-35/src/components/Dashboard.tsx:32-42 | the badge (demo location) and the auto-play effect (the user's home) can each hold without the other |
| `Dashboard.Screen.constructor` | team-35/src/components/Dashboard.tsx:28 | the screen opens with nothing selected |
| `Dashboard.Screen.AutoPlayEffect` | team-35/src/components/Dashboard.tsx:34-42 | with a home the user is near, the first song is selected (none when there are no songs); otherwise the selection stays |
| `Dashboard.Screen.PlayVocabularySong` | team-35/src/components/Dashboard.tsx:50-53 | selects the song |
| `AddWordScreen.FormErrors` | team-35/src/components/AddWordScreen.tsx:64-73 | an English or Japanese error iff that field is blank, a category error iff none is chosen, each with its message |
| `AddWordScreen.FormValidIff` | team-35/src/components/AddWordScreen.tsx:64-73 | the form passes iff English and Japanese trim to something and a category is chosen |
| `AddWordScreen.NewWord` | team-35/src/components/AddWordScreen.tsx:81-92 | the word has trimmed English and Japanese, the trimmed pronunciation or none if that is empty, mastery 0, no review date, the user's id or `"guest"`, and the clock as id and creation time |
| `AddWordScreen.NotesNotStored` | team-35/src/components/AddWordScreen.tsx:82-92 | the notes field has no effect on the saved word |
| `AddWordScreen.ValidFormMakesCompleteWord` | team-35/src/components/AddWordScreen.tsx:64-92 | a word saved from a valid form has non-empty English and Japanese with no white space at either end, and a category |
| `AddWordScreen.Screen.constructor` | team-35/src/components/AddWordScreen.tsx:31-41 | the form opens blank with beginner difficulty, no errors, not loading |
| `AddWordScreen.Screen.ValidateForm` | team-35/src/components/AddWordScreen.tsx:64-73 | records exactly `FormErrors(form)` and passes iff there are none |
| `AddWordScreen.Screen.HandleSave` | team-35/src/components/AddWordScreen.tsx:75-100 | an invalid form stores nothing and stays on the screen; a valid one stores the new word in front of the stored words (none when the entry is missing or unreadable) and goes to the word list |
| `AuthHook.LoginResult` | team-35/src/hooks/useAuth.ts:15-28 | login succeeds iff email and password are non-empty; the user has id `"1"`, the email, and as name the part of the email before its first `@`, or the whole email when it has none; otherwise "Invalid credentials" |
| `AuthHook.LoginIdsCollide` | team-35/src/hooks/useAuth.ts:19 | every mock login has the same id, even for different emails |
| `AuthHook.RegisterResult` | team-35/src/hooks/useAuth.ts:30-43 | register succeeds iff all three fields are non-empty, with the clock as id and the given email and name; otherwise "Invalid data" |
| `AuthHook.RegisterIds` | team-35/src/hooks/useAuth.ts:34 | two registrations get the same id iff they happen in the same millisecond |
| `AuthHook.Restored` | team-35/src/hooks/useAuth.ts:11 | a parsable stored user is restored; other non-empty text is removed and gives no user; a missing or empty entry changes nothing |
| `AuthHook.RestoreRoundTrip` | team-35/src/hooks/useAuth.ts:11-39 | restoring what login or register stored gives back that user, and restoring twice is restoring once |
| `AuthHook.Hook.constructor` | team-35/src/hooks/useAuth.ts:6-7 | no user, loading |
| `AuthHook.Hook.Restore` | team-35/src/hooks/useAuth.ts:9-13 | the user and the entry become `Restored(...)` of the old ones, and loading ends false in every case |
| `AuthHook.Hook.Login` | team-35/src/hooks/useAuth.ts:15-28 | on success the user is signed in and stored as JSON; on failure neither the user nor the entry changes |
| `AuthHook.Hook.Register` | team-35/src/hooks/useAuth.ts:30-43 | on success the new user is signed in and stored; on failure neither the user nor the entry changes |
| `AuthHook.Hook.Logout` | team-35/src/hooks/useAuth.ts:45-48 | no user and no entry, so a later restore finds nobody |
| `AuthService.AuthErrorMessage` | team-35/src/lib/authService.ts:15-34 | every code gets a non-empty message |
| `AuthService.AuthErrorMessageTable` | team-35/src/lib/authService.ts:15-34 | the seven known codes get distinct messages, none the default; any other code gets the default |
| `AuthService.DisplayName` | team-35/src/lib/authService.ts:45 | the profile's name if non-empty, else the account's display name if non-empty, else the email prefix |
| `AuthService.MapUser` | team-35/src/lib/authService.ts:37-48 | the user's id is the uid, the email is the account's or `""`, the name follows the fallback chain, the home comes from the profile |
| `AuthService.EmailPrefixOfEmail` | team-35/src/lib/authService.ts:45 | the email prefix starts the email, holds no `@`, and ends just before the first `@`, or is the whole email when there is none |
| `AuthService.MapFirebaseUser` | team-35/src/lib/authService.ts:37-48 | mapping succeeds iff reading the profile returns, and then gives `MapUser`; otherwise it throws the read's code |
| `AuthService.RegisterUser` | team-35/src/lib/authService.ts:51-77 | success iff all four steps return, with the user mapped from the renamed account; otherwise the table's message for the first step that threw |
| `AuthService.RegisteredName` | team-35/src/lib/authService.ts:57-68 | a fresh registration whose profile has no other name gets the name it was given |
| `AuthService.StorageErrorsGetDefaultMessage` | team-35/src/lib/authService.ts:60-76 | a document-store error during registration is reported with the default authentication message |
| `AuthService.LoginUser` | team-35/src/lib/authService.ts:80-92 | success iff sign-in and mapping return, with the mapped user; otherwise the table's message for the failing step |
| `AuthService.LogoutUser` | team-35/src/lib/authService.ts:95-106 | success iff sign-out returns; otherwise the table's message |
| `AuthService.AuthStateValue` | team-35/src/lib/authService.ts:109-123 | the callback gets a user iff there is an account and mapping it succeeds, and that user is the mapped one; `null` otherwise |
| `SettingsScreen.DefaultsComplete` | team-35/src/components/SettingsScreen.tsx:36-51 | the defaults give every one of the fourteen keys its default value |
| `SettingsScreen.LoadSettings` | team-35/src/components/SettingsScreen.tsx:55-62 | every key is present; each takes the stored value when the stored object parses and has it, and the default otherwise (always the default when the entry is missing, empty, unparsable or unreadable) |
| `SettingsScreen.LoadStoredRoundTrip` | team-35/src/components/SettingsScreen.tsx:55-69 | complete settings that were stored load back unchanged; an empty stored object loads as the defaults, like a missing one |
| `SettingsScreen.ThemeOf` | team-35/src/components/SettingsScreen.tsx:73-75 | `"dark"` iff dark mode is on, `"light"` otherwise |
| `SettingsScreen.Screen.constructor` | team-35/src/components/SettingsScreen.tsx:55-65 | settings are loaded; no address; not setting home |
| `SettingsScreen.Screen.PersistEffect` | team-35/src/components/SettingsScreen.tsx:67-69 | the stored settings become the current ones unless writing throws; nothing else changes |
| `SettingsScreen.Screen.DarkModeEffect` | team-35/src/components/SettingsScreen.tsx:71-76 | the root has `dark` iff dark mode is on, and no other class changes; the stored theme is `"dark"` or `"light"` to match unless writing throws |
| `SettingsScreen.Screen.HandleSettingChange` | team-35/src/components/SettingsScreen.tsx:67-79 | only the given key changes; completeness and the dark-class sync are kept; the settings are stored; the class and the stored theme change only when `darkMode` changed |
| `SettingsScreen.Screen.SetCurrentLocationAsHome` | team-35/src/components/SettingsScreen.tsx:81-87 | with both coordinates present and non-zero, setting home starts and the address shows both at four decimals; otherwise nothing changes |
| `SettingsScreen.Screen.FinishSettingHome` | team-35/src/components/SettingsScreen.tsx:85 | the timer ends setting home and keeps the address |
| `SettingsScreen.Screen.ExportData` | team-35/src/components/SettingsScreen.tsx:89-93 | the payload holds the current settings and the stored custom words, or no words when the entry is missing, unparsable or unreadable |
| `Theme.ResolveSystemTheme` | team-35/src/lib/theme.ts:3-8 | `'dark'` iff there is a window and the dark-scheme query matches; `'light'` without a window |
| `Theme.EffectiveTheme` | team-35/src/lib/theme.ts:12 | the system theme for `'system'`, the given theme otherwise; dark iff `'dark'` or `'system'` with a dark system |
| `Theme.ThemeClasses` | team-35/src/lib/theme.ts:13-14 | the root has `dark` iff the theme is dark, and every other class is unchanged |
| `Theme.UnrecognisedThemeIsLight` | team-35/src/lib/theme.ts:12-19 | any theme string other than `'dark'` and `'system'` leaves no `dark` class |
| `Theme.StoredTheme` | team-35/src/lib/theme.ts:18-22 | the stored text, or `'system'` when there is none or reading throws |
| `Theme.ApplyTheme` | team-35/src/lib/theme.ts:10-15 | the root's classes become `ThemeClasses` of the effective theme; storage is untouched |
| `Theme.ApplyThemeFromStorage` | team-35/src/lib/theme.ts:17-24 | applies the stored theme, or `'system'` when it is missing or reading throws |
| `Theme.SetTheme` | team-35/src/lib/theme.ts:26-29 | stores the theme unless writing throws, and applies it either way |
| `Theme.SetThemeThenReload` | team-35/src/lib/theme.ts:17-29 | applying the theme from storage after a stored `setTheme` changes nothing more |
| `Text.TrimEmptyIff` | team-35/src/components/AddWordScreen.tsx:66-68 | `s.trim()` is empty iff every character of `s` is white space |
| `Text.IncludesIff` | team-35/src/components/WordsScreen.tsx:34-35 | `s.includes(t)` iff `t` occurs at some position of `s` |
| `Text.ParseNatToString` | team-35/src/store/useSongsStore.ts:24 | the decimal printing of a clock value reads back as that value |

## Left out

- WordsStore.Store.LoadUserWords: each call runs as one atomic step from the call to the settled reply. The state while the backend call is pending (`loading` true, `error` cleared) is not stated, and neither are interleavings with other actions, such as a second action settling first and setting `loading` to false while this one is still pending.
- WordsStore.Store.AddWord: the same holds. The word is prepended to the list as it stands when the reply arrives; with another action settling in between, that list can differ from the one at the call, and the model does not capture this.
- WordsStore.Store.UpdateWord, WordsStore.Store.DeleteWord and WordsStore.Store.UpdateMasteryLevel are likewise single atomic steps; overlapping calls are not modelled.
- AuthService.AuthStateValue: gives the value for one change of the account on its own. The handler is asynchronous, so the callbacks for two quick changes can arrive out of order; that ordering is not modelled.
- AuthService.AuthStateValue: the `try` also wraps the call of the callback, so a callback that throws on a user is called again with `null`. The callback is outside the model, so this second call is not captured.
- Theme.ApplyTheme: assumes a document is present. Without a browser, `document.documentElement` throws (line 11 of `lib/theme.ts`) before any theme is resolved; the model does not capture that throw, and `Environment.hasWindow` only decides how `'system'` resolves.
- Rendering, icons, styling colours for difficulty and genre badges, speech synthesis, audio playback and `Math.random` are not modelled.
- The hosted backend itself is not modelled: initialisation, queries, `onSnapshot` registration and unsubscribing. Each call is an input that returns or throws with a code. The backend's ordering (`orderBy('createdAt', 'desc')`) and filtering by user are taken as given.
- The zustand `persist` middleware that saves the stores is not modelled.
- The 400 ms pause in the add-word save and the 600 ms timer in the settings screen are not modelled as time. The timer's effect is `SettingsScreen.Screen.FinishSettingHome`.
- Geolocation and the distance test behind `isNearHome` are not modelled; `isNearHome` is a parameter. So are `toFixed(4)` and the position's coordinates.
- The file download in `exportData` (`Blob`, object URL, link click) is not modelled; the payload is.
- Numbers are integers; non-integer mastery levels, durations and times are not modelled. The dashboard average is a real quotient.
- Division by zero (`NaN` in the source) is modelled as no value, for the averages of an empty word list.
- `toLowerCase` is modelled for ASCII letters only.
- JSON that parses to a value of the wrong shape (including `null`) is not modelled. The TypeScript casts are unchecked, so a stored entry is either the expected value or text that does not parse.
- `lib/storage.ts` (`getJSON`, `setJSON`) is not part of this model. The add-word save takes them to read with a fallback and to write JSON.
- An exception from `localStorage` inside `useAuth` is not modelled. The source does not catch it: its `try` only has a `finally`.
- Patches that set a required word or song field to an explicit `undefined` are not modelled. Only `pronunciation` and `lastReviewed` can be explicitly `undefined` in a word patch.
- `Date.now()` and `new Date()` in the same action are read as one clock value.
- `SettingsScreen.Screen.HandleSettingChange` runs the dark-mode effect when the `darkMode` value changes by value equality. React compares with `Object.is`, which differs only for array values under that key.
- `Dashboard.Screen.AutoPlayEffect` models one run of the effect. What sets it off (React's dependency list) is not modelled.
- The duration shown on the dashboard uses the same `m:ss` rule as `SongsScreen.FormatTime` and is not modelled separately.
- The mock data files are not part of this model; the demo lists are parameters.
