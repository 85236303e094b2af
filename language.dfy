/**
 * LanguageHelper: the application language (fr, en or ar), chosen either
 * from the system locale (auto-detect) or from the saved preference, and
 * the per-language tables (display names, Opus voices, text direction).
 *
 * The system locale's language is an input: None stands for the lookup
 * throwing, which the source answers with "en".
 */
module Language {
  import opened Prefs

  datatype Option<T> = None | Some(value: T)

  const PrefLanguage: string := "pref_language"
  const PrefAutoDetect: string := "pref_auto_detect"

  /** getSupportedLanguages. */
  const SupportedLanguages: seq<string> := ["fr", "en", "ar"]

  /** getSystemLanguage: the locale's language when the app supports it, English otherwise. */
  function SystemLanguage(localeLanguage: Option<string>): (r: string)
    ensures r in SupportedLanguages
    ensures localeLanguage.Some? && localeLanguage.value in SupportedLanguages ==> r == localeLanguage.value
    ensures localeLanguage.None? || localeLanguage.value !in SupportedLanguages ==> r == "en"
  {
    match localeLanguage
    case None => "en"
    case Some(language) =>
      if language == "fr" || language == "ar" || language == "en" then language else "en"
  }

  /**
   * getCurrentLanguage: the system language under auto-detect (on by
   * default), otherwise the saved language, which defaults to the system
   * language when none is saved.
   */
  function CurrentLanguage(p: Prefs, system: string): (r: string)
    ensures GetBool(p, PrefAutoDetect, true) ==> r == system
    ensures !GetBool(p, PrefAutoDetect, true) && PrefLanguage in p.strings ==> r == p.strings[PrefLanguage]
    ensures PrefLanguage !in p.strings ==> r == system
  {
    if GetBool(p, PrefAutoDetect, true) then system else GetString(p, PrefLanguage, system)
  }

  /**
   * hasLanguageChanged: the current language against the target
   * (the system language under auto-detect, the saved one otherwise). Both
   * follow the same rule, so the answer is always no.
   */
  function HasLanguageChanged(p: Prefs, system: string): (r: bool)
    ensures !r
  {
    var autoDetect := GetBool(p, PrefAutoDetect, true);
    var savedLanguage := GetString(p, PrefLanguage, system);
    var currentLanguage := CurrentLanguage(p, system);
    var targetLanguage := if autoDetect then system else savedLanguage;
    currentLanguage != targetLanguage
  }

  /** The preferences after setAppLanguage(code, autoDetect). */
  function WithLanguage(p: Prefs, code: string, autoDetect: bool): Prefs
  {
    PutBool(PutString(p, PrefLanguage, code), PrefAutoDetect, autoDetect)
  }

  /** After setAppLanguage, the current language is the system one under auto-detect, else the code. */
  lemma CurrentLanguageAfterSet(p: Prefs, code: string, autoDetect: bool, system: string)
    ensures CurrentLanguage(WithLanguage(p, code, autoDetect), system) == if autoDetect then system else code
  {
  }

  /** The preferences after resetToSystemLanguage's commit: no saved language, auto-detect on. */
  function ResetLanguage(p: Prefs): Prefs
  {
    PutBool(Remove(p, PrefLanguage), PrefAutoDetect, true)
  }

  /**
   * After resetToSystemLanguage, whether or not the commit reported
   * success (and so whether applySystemLanguage stored the system language
   * again), the current language is the system language.
   */
  lemma CurrentLanguageAfterReset(p: Prefs, system: string)
    ensures CurrentLanguage(ResetLanguage(p), system) == system
    ensures CurrentLanguage(WithLanguage(ResetLanguage(p), system, true), system) == system
  {
  }

  /** getLanguageName: the three native names, the locale's display name for other codes. */
  function LanguageName(code: string, displayName: string -> string): (r: string)
    ensures code !in SupportedLanguages ==> r == displayName(code)
  {
    match code
    case "fr" => "Français"
    case "en" => "English"
    case "ar" => "العربية"
    case _ => displayName(code)
  }

  /** getSupportedLanguageName: "Unknown" exactly for unsupported codes. */
  function SupportedLanguageName(code: string): (r: string)
    ensures r == "Unknown" <==> code !in SupportedLanguages
  {
    match code
    case "fr" => "Français"
    case "en" => "English"
    case "ar" => "العربية"
    case _ => "Unknown"
  }

  /** The two name tables agree on every supported code. */
  lemma LanguageNamesAgree(code: string, displayName: string -> string)
    requires code in SupportedLanguages
    ensures LanguageName(code, displayName) == SupportedLanguageName(code)
  {
  }

  const DefaultOpusVoice: string := "en-US-Standard-B"

  /** getOpusVoiceForLanguage: total, the English voice for every other code. */
  function OpusVoiceForLanguage(code: string): (r: string)
    ensures r in {"fr-FR-Standard-A", DefaultOpusVoice, "ar-XA-Standard-A"}
    ensures code !in SupportedLanguages ==> r == DefaultOpusVoice
  {
    match code
    case "fr" => "fr-FR-Standard-A"
    case "en" => DefaultOpusVoice
    case "ar" => "ar-XA-Standard-A"
    case _ => DefaultOpusVoice
  }

  /** The three supported languages have three distinct voices. */
  lemma OpusVoicesDistinct(a: string, b: string)
    requires a in SupportedLanguages && b in SupportedLanguages && a != b
    ensures OpusVoiceForLanguage(a) != OpusVoiceForLanguage(b)
  {
  }

  /** isRTL: only a supported language can be right-to-left. */
  predicate IsRTL(code: string)
    ensures IsRTL(code) ==> code in SupportedLanguages
  {
    "ar" == code
  }

  /** Arabic is the only right-to-left language, and it is supported. */
  lemma RightToLeftIsArabic(code: string)
    ensures IsRTL(code) <==> SupportedLanguageName(code) == "العربية"
  {
  }

  /** isLanguageSupported: a scan of getSupportedLanguages with an early return. */
  method IsLanguageSupported(code: string) returns (r: bool)
    ensures r <==> code in SupportedLanguages
    ensures r <==> SupportedLanguageName(code) != "Unknown"
  {
    var supported := SupportedLanguages;
    var i := 0;
    while i < |supported|
      invariant 0 <= i <= |supported|
      invariant code !in supported[..i]
    {
      if supported[i] == code {
        return true;
      }
      i := i + 1;
    }
    assert supported[..i] == supported;
    return false;
  }

  /** setAppLanguage: both preferences are stored (the locale update is not modelled). */
  method SetAppLanguage(store: PrefStore, code: string, autoDetect: bool)
    modifies store
    ensures store.contents == WithLanguage(old(store.contents), code, autoDetect)
  {
    store.PutStringEntry(PrefLanguage, code);
    store.PutBoolEntry(PrefAutoDetect, autoDetect);
  }

  /**
   * resetToSystemLanguage: remove the saved language and turn auto-detect
   * on; when the commit reports success, applySystemLanguage stores the
   * system language with auto-detect on.
   */
  method ResetToSystemLanguage(store: PrefStore, system: string, commitSucceeds: bool)
    modifies store
    ensures commitSucceeds ==> store.contents == WithLanguage(ResetLanguage(old(store.contents)), system, true)
    ensures !commitSucceeds ==> store.contents == ResetLanguage(old(store.contents))
  {
    store.RemoveEntry(PrefLanguage);
    store.PutBoolEntry(PrefAutoDetect, true);
    if commitSucceeds {
      SetAppLanguage(store, system, true);
    }
  }

  /**
   * applySavedLanguage: stores back the language getCurrentLanguage
   * reports, with the same auto-detect flag; the current language does not
   * change.
   */
  method ApplySavedLanguage(store: PrefStore, system: string)
    modifies store
    ensures store.contents == WithLanguage(old(store.contents), CurrentLanguage(old(store.contents), system),
                                           GetBool(old(store.contents), PrefAutoDetect, true))
    ensures CurrentLanguage(store.contents, system) == CurrentLanguage(old(store.contents), system)
  {
    var autoDetect := GetBool(store.contents, PrefAutoDetect, true);
    var savedLanguage := GetString(store.contents, PrefLanguage, system);
    var languageToApply := if autoDetect then system else savedLanguage;
    SetAppLanguage(store, languageToApply, autoDetect);
    CurrentLanguageAfterSet(old(store.contents), languageToApply, autoDetect, system);
  }

  /**
   * checkAndApplyLanguageChange: the activity is restarted only when the
   * language changed, which never happens; the preferences stay as they are.
   */
  method CheckAndApplyLanguageChange(store: PrefStore, system: string) returns (restarted: bool)
    ensures !restarted
  {
    // applyLanguageImmediately (with its restart) runs exactly when the language changed
    restarted := HasLanguageChanged(store.contents, system);
  }
}
