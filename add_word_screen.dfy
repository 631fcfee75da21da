/** The add-word form: field validation, the word built from the form, and the
    save that puts it at the front of the `customWords` list kept in local
    storage. The storage helpers the screen calls (`getJSON`, `setJSON`) are
    not part of this model; they are taken to read with a fallback and to write
    JSON. */
module AddWordScreen {
  import opened Outcomes
  import opened Types
  import opened Text
  import opened Browser

  /** The form's fields. */
  datatype FormData = FormData(
    english: string,
    japanese: string,
    pronunciation: string,
    difficulty: Difficulty,
    category: string,
    notes: string)

  /** The keys of the error object. */
  datatype FormField = EnglishField | JapaneseField | CategoryField

  const EnglishRequired := "英単語を入力してください"
  const JapaneseRequired := "日本語の意味を入力してください"
  const CategoryRequired := "カテゴリーを選択してください"

  /** The errors `validateForm` records: English or Japanese that trims to
      nothing (is blank, `Text.TrimEmptyIff`), and an empty category. */
  function FormErrors(form: FormData): (errors: map<FormField, string>)
    ensures EnglishField in errors <==> IsBlank(form.english)
    ensures JapaneseField in errors <==> IsBlank(form.japanese)
    ensures CategoryField in errors <==> form.category == ""
    ensures EnglishField in errors ==> errors[EnglishField] == EnglishRequired
    ensures JapaneseField in errors ==> errors[JapaneseField] == JapaneseRequired
    ensures CategoryField in errors ==> errors[CategoryField] == CategoryRequired
  {
    var e1: map<FormField, string> := if IsBlank(form.english) then map[EnglishField := EnglishRequired] else map[];
    var e2 := if IsBlank(form.japanese) then e1[JapaneseField := JapaneseRequired] else e1;
    if form.category == "" then e2[CategoryField := CategoryRequired] else e2
  }

  /** The form passes when no error is recorded: English and Japanese hold
      something besides white space and a category is chosen. */
  lemma FormValidIff(form: FormData)
    ensures |FormErrors(form)| == 0 <==> Trim(form.english) != "" && Trim(form.japanese) != "" && form.category != ""
  {
    TrimEmptyIff(form.english);
    TrimEmptyIff(form.japanese);
    var errors := FormErrors(form);
    if |errors| == 0 {
      assert EnglishField !in errors && JapaneseField !in errors && CategoryField !in errors;
    } else {
      var f :| f in errors;
      assert f.EnglishField? || f.JapaneseField? || f.CategoryField?;
    }
  }

  /** The word `handleSave` builds: trimmed English and Japanese, the trimmed
      pronunciation or none when that is blank, mastery 0, never reviewed, the
      user's id or `"guest"`. The id and the creation time come from the clock. */
  function NewWord(form: FormData, user: Option<User>, now: nat): (w: Word)
    ensures w.id == NatToString(now) && w.createdAt == now
    ensures w.userId == if user.Some? then user.value.id else "guest"
    ensures w.english == Trim(form.english) && w.japanese == Trim(form.japanese)
    ensures w.pronunciation.None? <==> Trim(form.pronunciation) == ""
    ensures w.pronunciation.Some? ==> w.pronunciation.value == Trim(form.pronunciation)
    ensures w.difficulty == form.difficulty && w.category == form.category
    ensures w.masteryLevel == 0 && w.lastReviewed.None?
  {
    var p := Trim(form.pronunciation);
    Word(NatToString(now), if user.Some? then user.value.id else "guest",
         Trim(form.english), Trim(form.japanese), if p == "" then None else Some(p),
         form.difficulty, form.category, now, None, 0)
  }

  /** The notes field never reaches the saved word. */
  lemma NotesNotStored(form: FormData, user: Option<User>, now: nat, notes: string)
    ensures NewWord(form.(notes := notes), user, now) == NewWord(form, user, now)
  {
  }

  /** A word built from a form that passes validation has non-blank English and
      Japanese with no white space at either end, and a category. */
  lemma ValidFormMakesCompleteWord(form: FormData, user: Option<User>, now: nat)
    requires |FormErrors(form)| == 0
    ensures var w := NewWord(form, user, now);
      && w.english != "" && !IsWhitespace(w.english[0]) && !IsWhitespace(w.english[|w.english| - 1])
      && w.japanese != "" && !IsWhitespace(w.japanese[0]) && !IsWhitespace(w.japanese[|w.japanese| - 1])
      && w.category != ""
  {
    assert EnglishField !in FormErrors(form) && JapaneseField !in FormErrors(form);
    TrimNotBlank(form.english);
    TrimNotBlank(form.japanese);
  }

  class Screen {
    const window: Window
    var form: FormData
    var errors: map<FormField, string>
    var isLoading: bool

    /** The form opens blank, with beginner difficulty and no errors. */
    constructor (window: Window)
      ensures this.window == window && form == FormData("", "", "", Beginner, "", "")
      ensures errors == map[] && !isLoading
    {
      this.window := window;
      form := FormData("", "", "", Beginner, "", "");
      errors := map[];
      isLoading := false;
    }

    /** `validateForm()`: fills a fresh error object field by field, shows it,
        and passes when it stayed empty. */
    method ValidateForm() returns (valid: bool)
      modifies this
      ensures errors == FormErrors(form) && (valid <==> |errors| == 0)
      ensures form == old(form) && isLoading == old(isLoading)
    {
      var newErrors: map<FormField, string> := map[];
      // `!s.trim()` is `IsBlank(s)` (Text.TrimEmptyIff)
      if IsBlank(form.english) {
        newErrors := newErrors[EnglishField := EnglishRequired];
      }
      if IsBlank(form.japanese) {
        newErrors := newErrors[JapaneseField := JapaneseRequired];
      }
      if form.category == "" {
        newErrors := newErrors[CategoryField := CategoryRequired];
      }
      errors := newErrors;
      valid := |newErrors| == 0;
    }

    /** `handleSave()`: an invalid form stores nothing and stays on the screen;
        a valid one puts the new word in front of the stored list, keeping every
        stored word in its order, and moves to the word list. */
    method HandleSave(user: Option<User>, now: nat) returns (navigateTo: Option<Types.Screen>)
      modifies this, window
      ensures errors == FormErrors(form) && form == old(form)
      ensures |errors| > 0 ==> navigateTo == None && window.customWords == old(window.customWords)
      ensures |errors| > 0 ==> isLoading == old(isLoading)
      ensures |errors| == 0 ==> navigateTo == Some(Types.WordsScreen) && !isLoading
      ensures |errors| == 0 ==>
        window.customWords == Some(Json([NewWord(form, user, now)] + StoredOr(old(window.customWords), [])))
      ensures window.savedUser == old(window.savedUser) && window.appSettings == old(window.appSettings)
      ensures window.theme == old(window.theme) && window.rootClasses == old(window.rootClasses)
    {
      var valid := ValidateForm();
      if !valid {
        return None;
      }
      isLoading := true;
      var newWord := NewWord(form, user, now);
      var existing := StoredOr(window.customWords, []);
      existing := [newWord] + existing;
      window.customWords := Some(Json(existing));
      isLoading := false;
      navigateTo := Some(Types.WordsScreen);
    }
  }
}
