/** The settings screen: settings loaded as the defaults overlaid with the
    stored object, single-key changes, the effects that store the settings and
    keep the `dark` class and the stored theme in step with `darkMode`, the
    "use current location as home" action and the export payload. */
module SettingsScreen {
  import opened Outcomes
  import opened Types
  import opened Browser
  import Theme

  /** The value `defaultSettings` gives each key. */
  function Default(k: SettingKey): SettingValue
  {
    match k
    case AutoPlay => Flag(true)
    case Volume => Amounts([80])
    case MusicGenre => Choice("all")
    case GeofenceNotifications => Flag(true)
    case LearningReminders => Flag(true)
    case DailyGoalReminders => Flag(true)
    case GeofenceEnabled => Flag(true)
    case HomeRadius => Amounts([100])
    case DarkMode => Flag(false)
    case Language => Choice("ja")
    case OfflineMode => Flag(false)
    case DailyWordGoal => Amount(5)
    case DifficultyLevel => Choice("intermediate")
    case ReviewInterval => Choice("daily")
  }

  const AllKeys: set<SettingKey> := {
    AutoPlay, Volume, MusicGenre, GeofenceNotifications, LearningReminders, DailyGoalReminders,
    GeofenceEnabled, HomeRadius, DarkMode, Language, OfflineMode, DailyWordGoal, DifficultyLevel,
    ReviewInterval}

  /** `defaultSettings`. */
  const DefaultSettings: Settings := map k | k in AllKeys :: Default(k)

  /** Every key has a value. */
  ghost predicate Complete(s: Settings)
  {
    forall k: SettingKey :: k in s
  }

  /** The defaults give every key its default value. */
  lemma DefaultsComplete()
    ensures Complete(DefaultSettings)
    ensures forall k :: DefaultSettings[k] == Default(k)
  {
    forall k: SettingKey ensures k in AllKeys {
      match k
      case AutoPlay =>
      case Volume =>
      case MusicGenre =>
      case GeofenceNotifications =>
      case LearningReminders =>
      case DailyGoalReminders =>
      case GeofenceEnabled =>
      case HomeRadius =>
      case DarkMode =>
      case Language =>
      case OfflineMode =>
      case DailyWordGoal =>
      case DifficultyLevel =>
      case ReviewInterval =>
    }
  }

  /** The initial settings: `{ ...defaultSettings, ...JSON.parse(raw) }` when the
      stored text is non-empty and parses; the defaults when it is missing, empty
      or not JSON, or when reading throws. */
  function LoadSettings(stored: Option<Stored<Settings>>, readThrows: bool): (s: Settings)
    ensures Complete(s)
    ensures forall k :: k in s ==>
      s[k] == (if !readThrows && stored.Some? && stored.value.Json? && k in stored.value.value
               then stored.value.value[k] else Default(k))
  {
    DefaultsComplete();
    if !readThrows && stored.Some? && stored.value.Json? then DefaultSettings + stored.value.value
    else DefaultSettings
  }

  /** Settings stored in full load back unchanged, and a stored object with no
      keys, like a missing entry, gives the defaults. */
  lemma LoadStoredRoundTrip(s: Settings)
    requires Complete(s)
    ensures LoadSettings(Some(Json(s)), false) == s
    ensures LoadSettings(Some(Json(map[])), false) == DefaultSettings == LoadSettings(None, false)
  {
    DefaultsComplete();
    var loaded := LoadSettings(Some(Json(s)), false);
    assert loaded.Keys == s.Keys;
    assert LoadSettings(Some(Json(map[])), false).Keys == DefaultSettings.Keys;
  }

  /** `settings.darkMode` as a condition: a missing key is `undefined`, and a
      value of the wrong kind is read with JavaScript truthiness. */
  predicate DarkOn(s: Settings)
  {
    DarkMode in s &&
    match s[DarkMode]
    case Flag(on) => on
    case Amount(n) => n != 0
    case Amounts(_) => true
    case Choice(t) => t != ""
  }

  /** The theme the dark-mode effect stores, and the one it applies. */
  function ThemeOf(s: Settings): (t: string)
    ensures t == Theme.Dark <==> DarkOn(s)
    ensures t == Theme.Dark || t == Theme.Light
  {
    if DarkOn(s) then Theme.Dark else Theme.Light
  }

  /** The exported JSON document. */
  datatype ExportPayload = ExportPayload(settings: Settings, customWords: seq<Word>)

  class Screen {
    const window: Window
    var settings: Settings
    var homeAddress: string
    var isSettingHome: bool

    /** The root has `dark` exactly when dark mode is on. */
    predicate DarkSynced()
      reads this, window
    {
      Theme.Dark in window.rootClasses <==> DarkOn(settings)
    }

    /** Mounting: settings are loaded, no home is being set. */
    constructor (window: Window, readThrows: bool)
      ensures this.window == window && settings == LoadSettings(window.appSettings, readThrows)
      ensures homeAddress == "" && !isSettingHome
    {
      this.window := window;
      settings := LoadSettings(window.appSettings, readThrows);
      homeAddress := "";
      isSettingHome := false;
    }

    /** The effect on `settings`: store them, unless writing throws. */
    method PersistEffect(writeThrows: bool)
      modifies window
      ensures window.appSettings == if writeThrows then old(window.appSettings) else Some(Json(settings))
      ensures window.savedUser == old(window.savedUser) && window.customWords == old(window.customWords)
      ensures window.theme == old(window.theme) && window.rootClasses == old(window.rootClasses)
    {
      if !writeThrows {
        window.appSettings := Some(Json(settings));
      }
    }

    /** The effect on `settings.darkMode`: add or remove `dark` on the root, then
        store `"dark"` or `"light"` unless writing throws. */
    method DarkModeEffect(writeThrows: bool)
      modifies window
      ensures DarkSynced()
      ensures window.rootClasses == Theme.ThemeClasses(old(window.rootClasses), ThemeOf(settings))
      ensures window.theme == if writeThrows then old(window.theme) else Some(ThemeOf(settings))
      ensures window.savedUser == old(window.savedUser) && window.customWords == old(window.customWords)
      ensures window.appSettings == old(window.appSettings)
    {
      if DarkOn(settings) {
        window.rootClasses := window.rootClasses + {Theme.Dark};
      } else {
        window.rootClasses := window.rootClasses - {Theme.Dark};
      }
      if !writeThrows {
        window.theme := Some(if DarkOn(settings) then Theme.Dark else Theme.Light);
      }
    }

    /** `handleSettingChange(key, value)` and the effects it sets off: only `key`
        changes; the settings are stored; when `darkMode` changed the root class
        and the stored theme follow it, and otherwise they are left alone. */
    method HandleSettingChange(key: SettingKey, value: SettingValue, writeThrows: bool)
      modifies this, window
      ensures settings == old(settings)[key := value]
      ensures forall k :: k != key && k in old(settings) ==> k in settings && settings[k] == old(settings)[k]
      ensures old(Complete(settings)) ==> Complete(settings)
      ensures window.appSettings == if writeThrows then old(window.appSettings) else Some(Json(settings))
      ensures old(DarkSynced()) ==> DarkSynced()
      ensures DarkMode in old(settings) && old(settings)[DarkMode] == value ==>
        window.rootClasses == old(window.rootClasses) && window.theme == old(window.theme)
      ensures !(DarkMode in old(settings) && old(settings)[DarkMode] == value) && key == DarkMode ==>
        DarkSynced() && window.theme == if writeThrows then old(window.theme) else Some(ThemeOf(settings))
      ensures key != DarkMode ==> window.rootClasses == old(window.rootClasses) && window.theme == old(window.theme)
      ensures window.savedUser == old(window.savedUser) && window.customWords == old(window.customWords)
      ensures homeAddress == old(homeAddress) && isSettingHome == old(isSettingHome)
    {
      var darkBefore := if DarkMode in settings then Some(settings[DarkMode]) else None;
      settings := settings[key := value];
      PersistEffect(writeThrows);
      var darkAfter := if DarkMode in settings then Some(settings[DarkMode]) else None;
      if darkAfter != darkBefore {
        DarkModeEffect(writeThrows);
      }
    }

    /** `setCurrentLocationAsHome()`: only with both coordinates truthy (present
        and not 0), start setting home and show them as the address; `fixed4` is
        the number format with four decimals. */
    method SetCurrentLocationAsHome(latitude: Option<real>, longitude: Option<real>, fixed4: real -> string)
      modifies this
      ensures latitude.Some? && latitude.value != 0.0 && longitude.Some? && longitude.value != 0.0 ==>
        isSettingHome && homeAddress == "緯度: " + fixed4(latitude.value) + ", 経度: " + fixed4(longitude.value)
      ensures !(latitude.Some? && latitude.value != 0.0 && longitude.Some? && longitude.value != 0.0) ==>
        isSettingHome == old(isSettingHome) && homeAddress == old(homeAddress)
      ensures settings == old(settings)
    {
      if latitude.Some? && latitude.value != 0.0 && longitude.Some? && longitude.value != 0.0 {
        isSettingHome := true;
        homeAddress := "緯度: " + fixed4(latitude.value) + ", 経度: " + fixed4(longitude.value);
      }
    }

    /** The timer set by `setCurrentLocationAsHome` firing. */
    method FinishSettingHome()
      modifies this
      ensures !isSettingHome && homeAddress == old(homeAddress) && settings == old(settings)
    {
      isSettingHome := false;
    }

    /** `exportData()`'s payload: the current settings and the stored custom
        words, or no words when the entry is missing, empty or not JSON, or
        reading throws. */
    method ExportData(readThrows: bool) returns (data: ExportPayload)
      ensures data.settings == settings
      ensures data.customWords == if readThrows then [] else StoredOr(window.customWords, [])
      ensures !readThrows && window.customWords.Some? && window.customWords.value.Json? ==>
        data.customWords == window.customWords.value.value
    {
      var words: seq<Word> := [];
      if !readThrows {
        words := StoredOr(window.customWords, []);
      }
      data := ExportPayload(settings, words);
    }
  }
}
