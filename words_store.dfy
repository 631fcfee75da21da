/** The client-side store of the signed-in user's words: the list the screens
    show, a loading flag and the last error message. Every action calls the
    service and changes the list only after the service reports success. */
module WordsStore {
  import opened Outcomes
  import opened Types
  import opened Seqs
  import WS = WordsService

  const LoadFailedMessage := "単語の読み込みに失敗しました。"
  const AddFailedMessage := "単語の追加に失敗しました。"
  const UpdateFailedMessage := "単語の更新に失敗しました。"
  const DeleteFailedMessage := "単語の削除に失敗しました。"
  const MasteryFailedMessage := "習得度の更新に失敗しました。"

  /** `result.error || fallback`. */
  function OrDefault(error: string, fallback: string): (msg: string)
    ensures error != "" ==> msg == error
    ensures error == "" ==> msg == fallback
  {
    if error != "" then error else fallback
  }

  /** The message a failed service reply leaves in the store: always the service's
      own message, since the service never reports an empty one. */
  lemma ServiceMessageWins(call: Attempt<()>, fallback: string)
    requires call.Threw?
    ensures OrDefault(WS.Settle(call).error, fallback) == WS.ErrorMessage(call.code)
  {
  }

  /** `{ ...word, ...updates }`. */
  function MergeWord(w: Word, p: WordPatch): Word
  {
    Word(p.id.GetOr(w.id), p.userId.GetOr(w.userId), p.english.GetOr(w.english),
         p.japanese.GetOr(w.japanese), p.pronunciation.GetOr(w.pronunciation),
         p.difficulty.GetOr(w.difficulty), p.category.GetOr(w.category),
         p.createdAt.GetOr(w.createdAt), p.lastReviewed.GetOr(w.lastReviewed),
         p.masteryLevel.GetOr(w.masteryLevel))
  }

  /** The value a word's field holds as a document field (an absent optional
      field is `undefined`). */
  function FieldOf(w: Word, f: WS.WordField): WS.FieldValue
  {
    match f
    case IdField => WS.Text(w.id)
    case UserIdField => WS.Text(w.userId)
    case EnglishField => WS.Text(w.english)
    case JapaneseField => WS.Text(w.japanese)
    case PronunciationField => if w.pronunciation.Some? then WS.Text(w.pronunciation.value) else WS.Undefined
    case DifficultyField => WS.Level(w.difficulty)
    case CategoryField => WS.Text(w.category)
    case CreatedAtField => WS.Date(w.createdAt)
    case LastReviewedField => if w.lastReviewed.Some? then WS.Date(w.lastReviewed.value) else WS.Undefined
    case MasteryLevelField => WS.Number(w.masteryLevel)
  }

  /** The patch with no keys. */
  const NoChanges := WordPatch(None, None, None, None, None, None, None, None, None, None)

  /** Merging the empty patch changes nothing, and a merged word agrees with the
      update written to the backend on every field the backend keeps as sent: a
      field the payload carries gets the payload's value, a field it does not
      carry keeps its old value. */
  lemma MergeAgreesWithPayload(w: Word, p: WordPatch, f: WS.WordField)
    requires f != WS.IdField && f != WS.CreatedAtField && f != WS.LastReviewedField
    ensures MergeWord(w, NoChanges) == w
    ensures f in WS.UpdatePayload(p) ==> FieldOf(MergeWord(w, p), f) == WS.UpdatePayload(p)[f]
    ensures f !in WS.UpdatePayload(p) ==> FieldOf(MergeWord(w, p), f) == FieldOf(w, f)
  {
    assert f in WS.UpdatePayload(p) <==> WS.PatchField(p, f).Some?;
  }

  /** Where the local merge and the backend part ways: the merge takes `id` and
      `createdAt` from the patch, the payload never carries them; the merge keeps
      the patch's `lastReviewed` date, the payload sends the server's time. */
  lemma MergeDivergesFromPayload(w: Word, p: WordPatch)
    ensures p.id.Some? ==> MergeWord(w, p).id == p.id.value && WS.IdField !in WS.UpdatePayload(p)
    ensures p.createdAt.Some? ==> MergeWord(w, p).createdAt == p.createdAt.value && WS.CreatedAtField !in WS.UpdatePayload(p)
    ensures p.lastReviewed.Some? && p.lastReviewed.value.Some? ==>
      MergeWord(w, p).lastReviewed == p.lastReviewed.value && WS.UpdatePayload(p)[WS.LastReviewedField] == WS.ServerTimestamp
  {
  }

  /** `{ ...word, masteryLevel: level, lastReviewed: new Date() }`. */
  function Reviewed(w: Word, level: int, now: Timestamp): Word
  {
    w.(masteryLevel := level, lastReviewed := Some(now))
  }

  /** The store keeps the level it was given while the backend stores it clamped
      to 0..100: the two agree exactly when the level is already in range. */
  lemma LocalMasteryNotClamped(w: Word, level: int, now: Timestamp)
    ensures Reviewed(w, level, now).masteryLevel == WS.MasteryPayload(level)[WS.MasteryLevelField].n
            <==> 0 <= level <= 100
  {
  }

  /** Deleting an id no word has leaves the list as it was. */
  lemma DeleteAbsentWord(words: seq<Word>, id: string)
    requires forall i :: 0 <= i < |words| ==> words[i].id != id
    ensures Filter(words, (w: Word) => w.id != id) == words
  {
    FilterKeepsAll(words, (w: Word) => w.id != id);
  }

  /** `Omit<Word, 'id' | 'userId' | 'createdAt'>`: what the add-word action receives. */
  datatype WordInput = WordInput(
    english: string,
    japanese: string,
    pronunciation: Option<string>,
    difficulty: Difficulty,
    category: string,
    lastReviewed: Option<Timestamp>,
    masteryLevel: int)

  /** `{ ...wordData, userId, createdAt: new Date() }` as the service receives it
      (the service overwrites `createdAt`, so it is not part of the draft). */
  function Draft(userId: string, input: WordInput): (d: WS.WordDraft)
    ensures d.userId == userId && d.english == input.english && d.japanese == input.japanese
    ensures d.lastReviewed == input.lastReviewed && d.masteryLevel == input.masteryLevel
  {
    WS.WordDraft(userId, input.english, input.japanese, input.pronunciation, input.difficulty,
                 input.category, input.lastReviewed, input.masteryLevel)
  }

  class Store {
    var words: seq<Word>
    var loading: bool
    var error: Option<string>

    /** The initial state: no words, not loading, no error. */
    constructor ()
      ensures words == [] && !loading && error == None
    {
      words := [];
      loading := false;
      error := None;
    }

    /** `loadUserWords(userId)`: replaces the list with the user's words, or
        records the error and keeps the list. */
    method LoadUserWords(userId: string, query: Attempt<seq<(string, WS.FirestoreWord)>>, now: Timestamp)
      modifies this
      ensures !loading
      ensures query.Returned? ==> error == None && |words| == |query.value|
      ensures query.Returned? ==> forall i :: 0 <= i < |query.value| ==>
        words[i] == WS.FromFirestore(query.value[i].1, query.value[i].0, now)
      ensures query.Threw? ==> words == old(words) && error == Some(WS.ErrorMessage(query.code))
    {
      loading, error := true, None;
      var result := WS.GetUserWords(userId, query, now);
      if result.Success? {
        words, loading := result.value, false;
      } else {
        error, loading := Some(OrDefault(result.error, LoadFailedMessage)), false;
      }
    }

    /** `addWord(userId, wordData)`: on success the stored word goes to the front
        of the list. */
    method AddWord(userId: string, input: WordInput, added: Attempt<string>,
                   read: Attempt<Option<WS.FirestoreWord>>, now: Timestamp)
      returns (ok: bool, sent: WS.NewWordDoc)
      modifies this
      ensures sent == WS.AddPayload(userId, Draft(userId, input))
      ensures ok <==> WS.AddWord(userId, Draft(userId, input), added, read, now).1.Success?
      ensures !loading
      ensures ok ==> words == [WS.AddWord(userId, Draft(userId, input), added, read, now).1.value] + old(words)
      ensures ok ==> error == None && words[0].id == added.value
      ensures !ok ==> words == old(words)
      ensures !ok ==> error == Some(OrDefault(WS.AddWord(userId, Draft(userId, input), added, read, now).1.error, AddFailedMessage))
    {
      loading, error := true, None;
      var outcome := WS.AddWord(userId, Draft(userId, input), added, read, now);
      var result := outcome.1;
      sent := outcome.0;
      if result.Success? {
        words, loading := [result.value] + words, false;
        ok := true;
      } else {
        error, loading := Some(OrDefault(result.error, AddFailedMessage)), false;
        ok := false;
      }
    }

    /** `updateWord(id, updates)`: on success every word with that id is merged
        with the patch locally; the list keeps its length and order. */
    method UpdateWord(id: string, updates: WordPatch, write: Attempt<()>)
      returns (ok: bool, sent: map<WS.WordField, WS.FieldValue>)
      modifies this
      ensures ok <==> write.Returned?
      ensures sent == WS.UpdatePayload(updates)
      ensures loading == old(loading)
      ensures ok ==> error == None && |words| == |old(words)|
      ensures ok ==> forall i :: 0 <= i < |words| ==>
        words[i] == if old(words)[i].id == id then MergeWord(old(words)[i], updates) else old(words)[i]
      ensures !ok ==> words == old(words) && error == Some(WS.ErrorMessage(write.code))
    {
      var result;
      sent, result := WS.UpdateWord(id, updates, write);
      if result.Success? {
        words, error := MapWhere(words, (w: Word) => w.id == id, (w: Word) => MergeWord(w, updates)), None;
        ok := true;
      } else {
        error := Some(OrDefault(result.error, UpdateFailedMessage));
        ok := false;
      }
    }

    /** `deleteWord(id)`: on success exactly the words with that id leave the
        list; the others stay, in their order. */
    method DeleteWord(id: string, call: Attempt<()>) returns (ok: bool)
      modifies this
      ensures ok <==> call.Returned?
      ensures loading == old(loading)
      ensures ok ==> error == None && words == Filter(old(words), (w: Word) => w.id != id)
      ensures ok ==> forall w :: w in words <==> w in old(words) && w.id != id
      ensures !ok ==> words == old(words) && error == Some(WS.ErrorMessage(call.code))
    {
      var result := WS.DeleteWord(id, call);
      if result.Success? {
        words, error := Filter(words, (w: Word) => w.id != id), None;
        ok := true;
      } else {
        error := Some(OrDefault(result.error, DeleteFailedMessage));
        ok := false;
      }
    }

    /** `updateMasteryLevel(id, level)`: the backend stores the clamped level; the
        list records the level as given, reviewed now. */
    method UpdateMasteryLevel(id: string, level: int, write: Attempt<()>, now: Timestamp)
      returns (ok: bool, sent: map<WS.WordField, WS.FieldValue>)
      modifies this
      ensures ok <==> write.Returned?
      ensures sent == WS.MasteryPayload(level)
      ensures loading == old(loading)
      ensures ok ==> error == None && |words| == |old(words)|
      ensures ok ==> forall i :: 0 <= i < |words| ==>
        words[i] == if old(words)[i].id == id then Reviewed(old(words)[i], level, now) else old(words)[i]
      ensures !ok ==> words == old(words) && error == Some(WS.ErrorMessage(write.code))
    {
      var outcome := WS.UpdateMasteryLevel(id, level, write);
      sent := outcome.0;
      if outcome.1.Success? {
        words, error := MapWhere(words, (w: Word) => w.id == id, (w: Word) => Reviewed(w, level, now)), None;
        ok := true;
      } else {
        error := Some(OrDefault(outcome.1.error, MasteryFailedMessage));
        ok := false;
      }
    }

    /** The listener `subscribeToWords` registers: each snapshot replaces the list
        and clears the error. */
    method ReceiveSnapshot(docs: seq<(string, WS.FirestoreWord)>, now: Timestamp)
      modifies this
      ensures error == None && loading == old(loading) && |words| == |docs|
      ensures forall i :: 0 <= i < |docs| ==> words[i] == WS.FromFirestore(docs[i].1, docs[i].0, now)
    {
      words := WS.MapSnapshot(docs, now);
      error := None;
    }

    /** The error listener `subscribeToWords` registers: records the message and
        keeps the list. */
    method ReceiveSnapshotError(code: string)
      modifies this
      ensures error == Some(WS.ErrorMessage(code)) && words == old(words) && loading == old(loading)
    {
      error := Some(WS.ErrorMessage(code));
    }

    method SetError(e: Option<string>)
      modifies this
      ensures error == e && words == old(words) && loading == old(loading)
    {
      error := e;
    }

    method SetLoading(b: bool)
      modifies this
      ensures loading == b && words == old(words) && error == old(error)
    {
      loading := b;
    }

    /** `initializeWithMockData(mockWords)`: seeds the list only when it is empty. */
    method InitializeWithMockData(mockWords: seq<Word>)
      modifies this
      ensures words == SeedIfEmpty(old(words), mockWords)
      ensures loading == old(loading) && error == old(error)
    {
      if |words| == 0 {
        words := mockWords;
      }
    }
  }
}
