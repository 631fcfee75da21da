/** The browser state the app reads and writes: one `localStorage` entry per key
    it uses, and the class list of the document's root element. */
module Browser {
  import opened Outcomes
  import opened Types

  /** The text stored under a `localStorage` key, as the reader sees it: JSON that
      parses to a value of the right shape, or any other text (which
      `JSON.parse` rejects). The empty string is `Raw("")`; JSON text is never
      empty. */
  datatype Stored<T> = Json(value: T) | Raw(text: string)

  /** `if (item)` on the text of an entry: only the empty string is falsy. */
  predicate Truthy<T>(e: Stored<T>)
  {
    e.Json? || e.text != ""
  }

  /** Reading an entry as JSON with a fallback: the parsed value, or `fallback`
      when the entry is missing, empty or not JSON (`JSON.parse(item || "[]")`
      inside a `try` whose `catch` returns `[]` is this with `fallback == []`). */
  function StoredOr<T>(e: Option<Stored<T>>, fallback: T): (r: T)
    ensures e.Some? && e.value.Json? ==> r == e.value.value
    ensures !(e.Some? && e.value.Json?) ==> r == fallback
  {
    if e.Some? && e.value.Json? then e.value.value else fallback
  }

  class Window {
    /** `localStorage["mimicoach_user"]`: the signed-in user of the mock session. */
    var savedUser: Option<Stored<User>>
    /** `localStorage["appSettings"]`. */
    var appSettings: Option<Stored<Settings>>
    /** `localStorage["customWords"]`: words saved from the add-word screen. */
    var customWords: Option<Stored<seq<Word>>>
    /** `localStorage["theme"]`: plain text, not JSON. */
    var theme: Option<string>
    /** `document.documentElement.classList`. */
    var rootClasses: set<string>

    constructor (savedUser: Option<Stored<User>>, appSettings: Option<Stored<Settings>>,
                 customWords: Option<Stored<seq<Word>>>, theme: Option<string>, rootClasses: set<string>)
      ensures this.savedUser == savedUser && this.appSettings == appSettings
      ensures this.customWords == customWords && this.theme == theme
      ensures this.rootClasses == rootClasses
    {
      this.savedUser := savedUser;
      this.appSettings := appSettings;
      this.customWords := customWords;
      this.theme := theme;
      this.rootClasses := rootClasses;
    }
  }
}
