/**
 * The three persisted slices and how each is loaded at start-up. The browser's storage is a
 * map from key to text; decoding a stored text (`JSON.parse` followed by the program's use of
 * the value as the slice's type) is a parameter that either yields a value or fails.
 */
module Persistence {
  import opened Wrappers
  import opened HistorySidebar
  import opened Templates
  import opened SettingsModal

  const HistoryKey := "gemini-prompt-enhancer-history"
  const TemplatesKey := "gemini-prompt-enhancer-templates"
  const SettingsKey := "gemini-prompt-enhancer-settings"

  type Store = map<string, string>

  /** `localStorage.getItem(key)`: the stored text, or null. */
  function Get(store: Store, key: string): (r: Option<string>)
    ensures r.Some? <==> key in store
    ensures r.Some? ==> r.value == store[key]
  {
    if key in store then Some(store[key]) else None
  }

  /** `localStorage.setItem(key, text)` when it succeeds. */
  function Put(store: Store, key: string, text: string): (r: Store)
    ensures Get(r, key) == Some(text)
    ensures forall k :: k != key ==> Get(r, k) == Get(store, k)
  {
    store[key := text]
  }

  /**
   * The lazy initial state of one slice: a stored text that is present and not empty is
   * decoded; a missing key, an empty text or a text that does not decode gives `default`.
   * Loading never fails.
   */
  function Hydrate<T>(stored: Option<string>, decode: string -> Option<T>, default: T): (r: T)
    ensures stored.None? || stored == Some("") ==> r == default
    ensures stored.Some? && stored.value != "" && decode(stored.value).None? ==> r == default
    ensures stored.Some? && stored.value != "" && decode(stored.value).Some? ==> r == decode(stored.value).value
  {
    match stored
    case Some(text) =>
      if text == "" then default
      else (match decode(text) case Some(v) => v case None => default)
    case None => default
  }

  /** The settings used when none are stored or they do not decode. */
  function DefaultSettings(defaultSystemInstruction: string): (r: AppSettings)
    ensures r.geminiModel.Id() == "gemini-2.5-pro" && r.language.Code() == "it"
    ensures r.systemInstruction == defaultSystemInstruction
  {
    AppSettings(Gemini25Pro, defaultSystemInstruction, It)
  }

  /**
   * Persistence round trip: once a slice has been written under its key with an encoding its
   * decoder inverts, loading that key gives the slice back, whatever else the store holds.
   * (An encoding never yields the empty text for the JSON arrays and objects written here.)
   */
  lemma PersistThenHydrate<T>(store: Store, key: string, value: T, default: T,
                              encode: T -> string, decode: string -> Option<T>)
    requires encode(value) != "" && decode(encode(value)) == Some(value)
    ensures Hydrate(Get(Put(store, key, encode(value)), key), decode, default) == value
  {
  }

  /** Each slice has its own key: writing one slice leaves the loading of another untouched. */
  lemma WritesAreIsolated<T>(store: Store, key: string, text: string, other: string,
                             decode: string -> Option<T>, default: T)
    requires other != key
    ensures Hydrate(Get(Put(store, key, text), other), decode, default)
         == Hydrate(Get(store, other), decode, default)
  {
  }

  /** The three keys are distinct, so the three slices never share storage. */
  lemma KeysAreDistinct()
    ensures HistoryKey != TemplatesKey && HistoryKey != SettingsKey && TemplatesKey != SettingsKey
  {
  }
}
