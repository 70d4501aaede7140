/**
 * The `AppSettings` record with its two enumerations, and the settings dialog, which edits
 * a draft copy of the saved settings and hands the whole draft back on save.
 */
module SettingsModal {
  import opened Wrappers

  /** `'gemini-2.5-pro' | 'gemini-2.5-flash'`. */
  datatype GeminiModel = Gemini25Pro | Gemini25Flash {
    /** The identifier the backend is called with. */
    function Id(): (r: string)
      ensures r == "gemini-2.5-pro" || r == "gemini-2.5-flash"
      ensures Gemini25Pro? <==> r == "gemini-2.5-pro"
    {
      match this
      case Gemini25Pro => "gemini-2.5-pro"
      case Gemini25Flash => "gemini-2.5-flash"
    }
  }

  /** `'it' | 'en'`. */
  datatype Language = It | En {
    function Code(): (r: string)
      ensures r == "it" || r == "en"
      ensures It? <==> r == "it"
    {
      match this
      case It => "it"
      case En => "en"
    }
  }

  datatype AppSettings = AppSettings(geminiModel: GeminiModel, systemInstruction: string, language: Language)

  /** Reading a model radio button's value as a model. The two buttons carry exactly the two
      model identifiers, and the TypeScript cast in their `onChange` makes no run-time check;
      `None` stands for a value no button carries, which the dialog never produces. */
  function ParseModel(value: string): (r: Option<GeminiModel>)
    ensures r.Some? <==> value == "gemini-2.5-pro" || value == "gemini-2.5-flash"
    ensures r.Some? ==> r.value.Id() == value
  {
    if value == "gemini-2.5-pro" then Some(Gemini25Pro)
    else if value == "gemini-2.5-flash" then Some(Gemini25Flash)
    else None
  }

  /** Reading a language radio button's value as a language; the two buttons carry exactly
      `it` and `en`, and `None` stands for a value no button carries. */
  function ParseLanguage(value: string): (r: Option<Language>)
    ensures r.Some? <==> value == "it" || value == "en"
    ensures r.Some? ==> r.value.Code() == value
  {
    if value == "it" then Some(It) else if value == "en" then Some(En) else None
  }

  /** Reading back a model's identifier gives the model: identifiers name models one to one. */
  lemma ModelIdRoundTrip(m: GeminiModel)
    ensures ParseModel(m.Id()) == Some(m)
  {
  }

  lemma LanguageCodeRoundTrip(l: Language)
    ensures ParseLanguage(l.Code()) == Some(l)
  {
  }

  /**
   * The dialog's state: the draft `currentSettings`, and the default system instruction it
   * is given as a property.
   */
  class SettingsEditor {
    const defaultSystemInstruction: string
    var currentSettings: AppSettings

    /** `useState(settings)` on first render. */
    constructor (settings: AppSettings, defaultSystemInstruction: string)
      ensures currentSettings == settings
      ensures this.defaultSystemInstruction == defaultSystemInstruction
    {
      this.defaultSystemInstruction := defaultSystemInstruction;
      currentSettings := settings;
    }

    /** The effect that runs while the dialog is open: the draft becomes the saved settings. */
    method Open(settings: AppSettings)
      modifies this
      ensures currentSettings == settings
    {
      currentSettings := settings;
    }

    /** `handleSave`: the whole draft is handed to the parent, which replaces its settings
        with it; there is no path that saves only some fields. */
    method Save() returns (saved: AppSettings)
      ensures saved == currentSettings
    {
      saved := currentSettings;
    }

    /** `handleRestoreDefault`: only the system instruction changes, to the default text. */
    method RestoreDefault()
      modifies this
      ensures currentSettings.systemInstruction == defaultSystemInstruction
      ensures currentSettings.geminiModel == old(currentSettings.geminiModel)
      ensures currentSettings.language == old(currentSettings.language)
    {
      currentSettings := currentSettings.(systemInstruction := defaultSystemInstruction);
    }

    /** Either language radio button: only the language changes. */
    method SetLanguage(language: Language)
      modifies this
      ensures currentSettings.language == language
      ensures currentSettings.geminiModel == old(currentSettings.geminiModel)
      ensures currentSettings.systemInstruction == old(currentSettings.systemInstruction)
    {
      currentSettings := currentSettings.(language := language);
    }

    /** Either model radio button: only the model changes. */
    method SetModel(model: GeminiModel)
      modifies this
      ensures currentSettings.geminiModel == model
      ensures currentSettings.language == old(currentSettings.language)
      ensures currentSettings.systemInstruction == old(currentSettings.systemInstruction)
    {
      currentSettings := currentSettings.(geminiModel := model);
    }

    /** The instruction text area: only the system instruction changes, to the text typed. */
    method SetSystemInstruction(text: string)
      modifies this
      ensures currentSettings.systemInstruction == text
      ensures currentSettings.geminiModel == old(currentSettings.geminiModel)
      ensures currentSettings.language == old(currentSettings.language)
    {
      currentSettings := currentSettings.(systemInstruction := text);
    }
  }
}
