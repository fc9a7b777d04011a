/**
 * The translation system of js/i18n.js: one table of English strings and an
 * `I18n` object that looks keys up in the table of its current language.
 */
module Localization {

  import opened Wrappers

  /** The English strings, keyed as the page and the application use them. */
  const English: map<string, string> := map[
    "pageTitle" := "PollGen",
    "pageDescription" := "Create high-quality images with AI",
    "apiKeyLabel" := "API Key",
    "apiKeyPlaceholder" := "Enter your Pollinations API key",
    "apiKeyHint" := "Get your free API key from",
    "apiKeyStored" := "API key saved",
    "apiKeyMissing" := "Please enter your API key",
    "promptLabel" := "Prompt",
    "promptPlaceholder" := "Describe the image you want to generate",
    "modelLabel" := "Model",
    "aspectRatioLabel" := "Aspect Ratio",
    "visualIntensityLabel" := "Visual Intensity",
    "compositionLabel" := "Composition",
    "stylesLabel" := "Styles",
    "generateBtn" := "Generate Image",
    "addBtn" := "Add Image",
    "searchGallery" := "Search in gallery",
    "statusPromptMissing" := "Please enter a prompt",
    "statusModelMissing" := "Please select a model",
    "statusGenerating" := "Generating image...",
    "statusSuccess" := "Image generated successfully",
    "statusError" := "An error occurred",
    "modelLoading" := "Loading models...",
    "modelLoadError" := "Failed to load models.",
    "modelPlaceholder" := "Select a model...",
    "balanceRemaining" := "pollen remaining."
  ]

  /** The table of all languages: only English exists. */
  const Translations: map<string, map<string, string>> := map["en" := English]

  /** The `translations` table: one language, English, and no empty entry in it. */
  lemma TranslationTable()
    ensures Translations.Keys == {"en"} && Translations["en"] == English
    ensures forall v :: v in English.Values ==> v != ""
  {
  }

  /**
   * An `I18n` object. Nothing ever assigns its fields after construction, so it
   * is a value: looking a key up cannot change the language or the table.
   */
  datatype I18n = I18n(currentLanguage: string, translations: map<string, map<string, string>>)
  {
    /** The current language's entry for `key`, when one exists and is not empty. */
    function Entry(key: string): Option<string>
    {
      if currentLanguage in translations && key in translations[currentLanguage]
         && translations[currentLanguage][key] != ""
      then Some(translations[currentLanguage][key])
      else None
    }

    /**
     * `t(key)`: the translation, or `key` itself when the language has no table,
     * the table has no entry or the entry is empty (all of which JavaScript finds falsy).
     * A result other than the key is always a non-empty string of the current table.
     */
    function T(key: string): (r: string)
      ensures r == key || (currentLanguage in translations && r != "" && r in translations[currentLanguage].Values)
      ensures key != "" ==> r != ""
    {
      match Entry(key)
      case Some(text) => text
      case None => key
    }

    /** `getCurrentLanguage()`: the language whose table `t` reads. */
    function GetCurrentLanguage(): (lang: string)
      ensures forall key ::
        (T(key) == key || (lang in translations && key in translations[lang] && T(key) == translations[lang][key]))
    {
      currentLanguage
    }
  }

  /** `new I18n()`: English, over the one translation table. */
  function CreateI18n(): (i: I18n)
    ensures i.GetCurrentLanguage() == "en"
    ensures i.translations == Translations
  {
    I18n("en", Translations)
  }

  /** The application's single `i18n` instance. */
  const Default: I18n := CreateI18n()

  /** A non-empty entry of the current language is what `t` returns. */
  lemma TranslationFound(i: I18n, key: string)
    requires i.currentLanguage in i.translations
    requires key in i.translations[i.currentLanguage]
    requires i.translations[i.currentLanguage][key] != ""
    ensures i.T(key) == i.translations[i.currentLanguage][key]
  {
  }

  /** A missing or empty entry makes `t` return the key. */
  lemma TranslationFallsBack(i: I18n, key: string)
    requires i.currentLanguage in i.translations
    requires key !in i.translations[i.currentLanguage] || i.translations[i.currentLanguage][key] == ""
    ensures i.T(key) == key
  {
  }

  /** A language without a table makes `t` return every key unchanged. */
  lemma UnknownLanguageFallsBack(i: I18n, key: string)
    requires i.currentLanguage !in i.translations
    ensures i.T(key) == key
  {
  }

  /** The English table has no empty entry, so `t` falls back exactly on missing keys. */
  lemma {:induction false} DefaultFallsBackIffMissing(key: string)
    ensures Default.T(key) == key || key in English
    ensures key in English ==> Default.T(key) == English[key]
  {
    assert Default == I18n("en", Translations);
    assert Translations["en"] == English;
    if key in English {
      assert English[key] in English.Values;
      TranslationTable();
    }
  }

  /** The message shown when no API key is available. */
  lemma ApiKeyMissingMessage()
    ensures Default.T("apiKeyMissing") == "Please enter your API key"
  {
    DefaultFallsBackIffMissing("apiKeyMissing");
  }

  /** The message shown for a missing prompt. */
  lemma PromptMissingMessage()
    ensures Default.T("statusPromptMissing") == "Please enter a prompt"
  {
    DefaultFallsBackIffMissing("statusPromptMissing");
  }

  /** The message shown for a missing model. */
  lemma ModelMissingMessage()
    ensures Default.T("statusModelMissing") == "Please select a model"
  {
    DefaultFallsBackIffMissing("statusModelMissing");
  }

  /**
   * The table has no entry for missing dimensions, so the status line shows the
   * key itself.
   */
  lemma DimensionsMissingMessage()
    ensures Default.T("statusDimensionsMissing") == "statusDimensionsMissing"
  {
    assert "statusDimensionsMissing" !in English;
    DefaultFallsBackIffMissing("statusDimensionsMissing");
  }
}
