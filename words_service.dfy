/** The service layer over the hosted document store's "words" collection: how a
    stored document becomes a `Word`, what each write sends, the error-code table,
    and the rule that every operation reports failure as a value instead of
    throwing. The backend calls themselves are inputs (`Attempt`s). */
module WordsService {
  import opened Outcomes
  import opened Types

  // ------------------------------------------------------------ error messages

  const PermissionDeniedMessage := "データへのアクセス権限がありません。"
  const NotFoundMessage := "指定された単語が見つかりません。"
  const AlreadyExistsMessage := "この単語は既に存在しています。"
  const ResourceExhaustedMessage := "リクエストの制限に達しました。しばらく時間をおいてから再度お試しください。"
  const DeadlineExceededMessage := "処理がタイムアウトしました。"
  const UnavailableMessage := "サービスが一時的に利用できません。"
  const UnauthenticatedMessage := "認証が必要です。ログインしてください。"
  const DefaultMessage := "データの処理中にエラーが発生しました。"
  /** Reported by `addWord` when the document it just wrote cannot be read back. */
  const AddFailedMessage := "単語の追加に失敗しました。"

  /** The error codes the table knows, in the order of the table. */
  const KnownCodes: seq<string> := [
    "permission-denied", "not-found", "already-exists", "resource-exhausted",
    "deadline-exceeded", "unavailable", "unauthenticated"]

  /** `getFirestoreErrorMessage`: the message shown for an error code. */
  function ErrorMessage(code: string): (msg: string)
    ensures msg != ""
  {
    if code == "permission-denied" then PermissionDeniedMessage
    else if code == "not-found" then NotFoundMessage
    else if code == "already-exists" then AlreadyExistsMessage
    else if code == "resource-exhausted" then ResourceExhaustedMessage
    else if code == "deadline-exceeded" then DeadlineExceededMessage
    else if code == "unavailable" then UnavailableMessage
    else if code == "unauthenticated" then UnauthenticatedMessage
    else DefaultMessage
  }

  /** Each known code has a message of its own, none of them the default one, and
      every other code gets the default message. */
  lemma ErrorMessageTable(code: string)
    ensures forall i, j :: 0 <= i < j < |KnownCodes| ==> ErrorMessage(KnownCodes[i]) != ErrorMessage(KnownCodes[j])
    ensures forall i :: 0 <= i < |KnownCodes| ==> ErrorMessage(KnownCodes[i]) != DefaultMessage
    ensures code !in KnownCodes ==> ErrorMessage(code) == DefaultMessage
  {
  }

  /** `try { await call; return { success: true } } catch (e) { return { success:
      false, error: getFirestoreErrorMessage(e) } }`. */
  function Settle(call: Attempt<()>): (r: Reply<()>)
    ensures r.Success? <==> call.Returned?
    ensures r.Failure? ==> r.error == ErrorMessage(call.code) && r.error != ""
  {
    match call
    case Returned(_) => Success(())
    case Threw(code) => Failure(ErrorMessage(code))
  }

  // ------------------------------------------------------------ reading documents

  /** A stored word document. Timestamps may be missing; `storedId` is an `id`
      field kept inside the document itself, if any. */
  datatype FirestoreWord = FirestoreWord(
    storedId: Option<string>,
    userId: string,
    english: string,
    japanese: string,
    pronunciation: Option<string>,
    difficulty: Difficulty,
    category: string,
    createdAt: Option<Timestamp>,
    lastReviewed: Option<Timestamp>,
    masteryLevel: int)

  /** `mapFirestoreWordToWord(doc.data(), doc.id)`, `now` standing for `new Date()`. */
  function FromFirestore(fw: FirestoreWord, docId: string, now: Timestamp): (w: Word)
    ensures w.id == docId
    ensures w.createdAt == fw.createdAt.GetOr(now) && w.lastReviewed == fw.lastReviewed
  {
    Word(docId, fw.userId, fw.english, fw.japanese, fw.pronunciation, fw.difficulty,
         fw.category, fw.createdAt.GetOr(now), fw.lastReviewed, fw.masteryLevel)
  }

  /** The document id wins over any `id` stored inside the document. */
  lemma DocumentIdOverridesStoredId(fw: FirestoreWord, docId: string, now: Timestamp, other: Option<string>)
    ensures FromFirestore(fw.(storedId := other), docId, now) == FromFirestore(fw, docId, now)
    ensures fw.storedId.Some? ==> FromFirestore(fw, docId, now).id == docId
  {
  }

  /** The `querySnapshot.forEach` loop of `getUserWords` and of the
      `subscribeToUserWords` listener: each document, in the snapshot's order,
      mapped and pushed onto `words`. */
  method MapSnapshot(docs: seq<(string, FirestoreWord)>, now: Timestamp) returns (words: seq<Word>)
    ensures |words| == |docs|
    ensures forall i :: 0 <= i < |docs| ==>
      words[i] == FromFirestore(docs[i].1, docs[i].0, now) && words[i].id == docs[i].0
  {
    words := [];
    var i := 0;
    while i < |docs|
      invariant 0 <= i <= |docs| && |words| == i
      invariant forall k :: 0 <= k < i ==> words[k] == FromFirestore(docs[k].1, docs[k].0, now)
    {
      words := words + [FromFirestore(docs[i].1, docs[i].0, now)];
      i := i + 1;
    }
  }

  /** `getUserWords(userId)`: the query's documents (filtered by user and ordered
      by the backend) mapped one by one, or the error's message. */
  method GetUserWords(userId: string, query: Attempt<seq<(string, FirestoreWord)>>, now: Timestamp)
    returns (r: Reply<seq<Word>>)
    ensures query.Threw? ==> r == Failure(ErrorMessage(query.code))
    ensures query.Returned? ==> r.Success? && |r.value| == |query.value|
    ensures query.Returned? ==> forall i :: 0 <= i < |query.value| ==>
      r.value[i] == FromFirestore(query.value[i].1, query.value[i].0, now)
  {
    match query
    case Threw(code) =>
      r := Failure(ErrorMessage(code));
    case Returned(docs) =>
      var words := MapSnapshot(docs, now);
      r := Success(words);
  }

  // ------------------------------------------------------------ writing documents

  /** The fields of a word document. */
  datatype WordField =
    | IdField | UserIdField | EnglishField | JapaneseField | PronunciationField
    | DifficultyField | CategoryField | CreatedAtField | LastReviewedField | MasteryLevelField

  const AllWordFields: set<WordField> := {
    IdField, UserIdField, EnglishField, JapaneseField, PronunciationField,
    DifficultyField, CategoryField, CreatedAtField, LastReviewedField, MasteryLevelField}

  /** A value in a write: plain data, `undefined`, `null` or the
      `serverTimestamp()` sentinel. */
  datatype FieldValue =
    | Text(s: string) | Number(n: int) | Level(d: Difficulty) | Date(t: Timestamp)
    | Undefined | Null | ServerTimestamp

  /** The value the object `{ ...updates }` holds under `f`, when the key is present. */
  function PatchField(p: WordPatch, f: WordField): Option<FieldValue>
  {
    match f
    case IdField => if p.id.Some? then Some(Text(p.id.value)) else None
    case UserIdField => if p.userId.Some? then Some(Text(p.userId.value)) else None
    case EnglishField => if p.english.Some? then Some(Text(p.english.value)) else None
    case JapaneseField => if p.japanese.Some? then Some(Text(p.japanese.value)) else None
    case PronunciationField =>
      if p.pronunciation.None? then None
      else if p.pronunciation.value.None? then Some(Undefined)
      else Some(Text(p.pronunciation.value.value))
    case DifficultyField => if p.difficulty.Some? then Some(Level(p.difficulty.value)) else None
    case CategoryField => if p.category.Some? then Some(Text(p.category.value)) else None
    case CreatedAtField => if p.createdAt.Some? then Some(Date(p.createdAt.value)) else None
    case LastReviewedField =>
      if p.lastReviewed.None? then None
      else if p.lastReviewed.value.None? then Some(Undefined)
      else Some(Date(p.lastReviewed.value.value))
    case MasteryLevelField => if p.masteryLevel.Some? then Some(Number(p.masteryLevel.value)) else None
  }

  /** `{ ...updates }` as a key-value object. */
  function Spread(p: WordPatch): (m: map<WordField, FieldValue>)
    ensures forall f :: f in m <==> PatchField(p, f).Some?
    ensures forall f :: f in m ==> m[f] == PatchField(p, f).value
  {
    map f | f in AllWordFields && PatchField(p, f).Some? :: PatchField(p, f).value
  }

  /** What `updateWord` sends: never an `id`, never a `createdAt`; a `lastReviewed`
      date becomes the server timestamp; every other key passes through as given. */
  function UpdatePayload(p: WordPatch): (m: map<WordField, FieldValue>)
    ensures IdField !in m && CreatedAtField !in m
    ensures LastReviewedField in m <==> p.lastReviewed.Some?
    ensures p.lastReviewed.Some? ==>
      m[LastReviewedField] == if p.lastReviewed.value.Some? then ServerTimestamp else Undefined
    ensures forall f :: f != IdField && f != CreatedAtField && f != LastReviewedField ==>
      (f in m <==> f in Spread(p)) && (f in m ==> m[f] == Spread(p)[f])
  {
    var kept := map f | f in Spread(p) && f != IdField && f != CreatedAtField :: Spread(p)[f];
    if p.lastReviewed.Some? && p.lastReviewed.value.Some? then kept[LastReviewedField := ServerTimestamp] else kept
  }

  /** The statements of `updateWord` that build `updateData` from `{ ...updates }`. */
  method SanitizeUpdate(updates: WordPatch) returns (updateData: map<WordField, FieldValue>)
    ensures updateData == UpdatePayload(updates)
  {
    updateData := Spread(updates);
    if updates.lastReviewed.Some? && updates.lastReviewed.value.Some? {
      updateData := updateData[LastReviewedField := ServerTimestamp];
    }
    if updates.createdAt.Some? {
      updateData := updateData - {CreatedAtField};
    }
    updateData := updateData - {IdField};
  }

  /** `updateWord(wordId, updates)`: the payload handed to the backend and the reply. */
  method UpdateWord(wordId: string, updates: WordPatch, write: Attempt<()>)
    returns (updateData: map<WordField, FieldValue>, r: Reply<()>)
    ensures updateData == UpdatePayload(updates)
    ensures r == Settle(write)
  {
    updateData := SanitizeUpdate(updates);
    r := Settle(write);
  }

  /** `deleteWord(wordId)`. */
  function DeleteWord(wordId: string, call: Attempt<()>): (r: Reply<()>)
    ensures r.Success? <==> call.Returned?
    ensures r.Failure? ==> r.error == ErrorMessage(call.code)
  {
    Settle(call)
  }

  /** `Math.max(0, Math.min(100, level))`. */
  function Clamp(level: int): (c: int)
    ensures 0 <= c <= 100
    ensures 0 <= level <= 100 ==> c == level
    ensures level < 0 ==> c == 0
    ensures level > 100 ==> c == 100
  {
    if level < 0 then 0 else if level > 100 then 100 else level
  }

  /** What `updateMasteryLevel` sends: the clamped level and a server timestamp. */
  function MasteryPayload(level: int): (m: map<WordField, FieldValue>)
    ensures m.Keys == {MasteryLevelField, LastReviewedField}
    ensures m[MasteryLevelField].Number? && 0 <= m[MasteryLevelField].n <= 100
    ensures m[LastReviewedField] == ServerTimestamp
  {
    map[MasteryLevelField := Number(Clamp(level)), LastReviewedField := ServerTimestamp]
  }

  /** `updateMasteryLevel(wordId, level)`. */
  function UpdateMasteryLevel(wordId: string, level: int, write: Attempt<()>): (r: (map<WordField, FieldValue>, Reply<()>))
    ensures r.0 == MasteryPayload(level)
    ensures r.1.Success? <==> write.Returned?
    ensures write.Threw? ==> r.1 == Failure(ErrorMessage(write.code)) && r.1.error != ""
  {
    (MasteryPayload(level), Settle(write))
  }

  /** `Omit<Word, 'id' | 'createdAt'>`: the word data `addWord` receives. */
  datatype WordDraft = WordDraft(
    userId: string,
    english: string,
    japanese: string,
    pronunciation: Option<string>,
    difficulty: Difficulty,
    category: string,
    lastReviewed: Option<Timestamp>,
    masteryLevel: int)

  /** The document `addWord` writes. */
  datatype NewWordDoc = NewWordDoc(
    userId: string,
    english: string,
    japanese: string,
    pronunciation: Option<string>,
    difficulty: Difficulty,
    category: string,
    masteryLevel: int,
    createdAt: FieldValue,
    lastReviewed: FieldValue)

  /** The document `addWord` writes: the word data under the given user id, with
      the server's time as its creation time, and as its review time only when
      the data has a review date (null otherwise). */
  function AddPayload(userId: string, data: WordDraft): (doc: NewWordDoc)
    ensures doc.userId == userId
    ensures doc.createdAt == ServerTimestamp
    ensures doc.lastReviewed == if data.lastReviewed.Some? then ServerTimestamp else Null
  {
    NewWordDoc(userId, data.english, data.japanese, data.pronunciation, data.difficulty,
               data.category, data.masteryLevel, ServerTimestamp,
               if data.lastReviewed.Some? then ServerTimestamp else Null)
  }

  /** The `userId` argument overrides whatever `userId` the word data carries, and
      the date in `lastReviewed` is never sent, only whether there is one. */
  lemma AddPayloadOverrides(userId: string, data: WordDraft, otherUser: string, otherDate: Timestamp)
    ensures AddPayload(userId, data.(userId := otherUser)) == AddPayload(userId, data)
    ensures data.lastReviewed.Some? ==>
      AddPayload(userId, data.(lastReviewed := Some(otherDate))) == AddPayload(userId, data)
  {
  }

  /** `addWord(userId, wordData)`: write the document `AddPayload(userId, data)`
      (`added` gives its id), read it back (`read` gives its data, `None` when it
      does not exist) and map it. The result pairs the written document with the
      reply. */
  function AddWord(userId: string, data: WordDraft, added: Attempt<string>,
                   read: Attempt<Option<FirestoreWord>>, now: Timestamp): (r: (NewWordDoc, Reply<Word>))
    ensures r.0 == AddPayload(userId, data) && r.0.userId == userId
    ensures r.1.Success? <==> added.Returned? && read.Returned? && read.value.Some?
    ensures r.1.Success? ==> r.1.value == FromFirestore(read.value.value, added.value, now)
    ensures added.Threw? ==> r.1 == Failure(ErrorMessage(added.code))
    ensures added.Returned? && read.Threw? ==> r.1 == Failure(ErrorMessage(read.code))
    ensures added.Returned? && read == Returned(None) ==> r.1 == Failure(AddFailedMessage)
  {
    var doc := AddPayload(userId, data);
    match added
    case Threw(code) => (doc, Failure(ErrorMessage(code)))
    case Returned(docId) =>
      match read
      case Threw(code) => (doc, Failure(ErrorMessage(code)))
      case Returned(None) => (doc, Failure(AddFailedMessage))
      case Returned(Some(fw)) => (doc, Success(FromFirestore(fw, docId, now)))
  }
}
