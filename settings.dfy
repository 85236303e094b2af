/**
 * SettingsActivity: the language spinner and calculation-method radio
 * mappings, and the preference writes of saveSettings and the values
 * loadCurrentSettings shows.
 *
 * Double.parseDouble is an input (`parse`, None for a NumberFormatException)
 * and the coordinates are stored as the parsed reals.
 */
module Settings {
  import opened Prefs
  import Language

  datatype Option<T> = None | Some(value: T)

  /** getLanguagePosition: fr, en, ar at 0, 1, 2; anything else at 0. */
  function LanguagePosition(code: string): (r: int)
    ensures 0 <= r <= 2
    ensures code !in Language.SupportedLanguages ==> r == 0
  {
    match code
    case "fr" => 0
    case "en" => 1
    case "ar" => 2
    case _ => 0
  }

  /** getSelectedLanguage for a spinner position: 0, 1, 2 give fr, en, ar; anything else fr. */
  function SelectedLanguage(position: int): (r: string)
    ensures r in Language.SupportedLanguages
    ensures !(0 <= position <= 2) ==> r == "fr"
  {
    match position
    case 0 => "fr"
    case 1 => "en"
    case 2 => "ar"
    case _ => "fr"
  }

  /** Every supported language survives the spinner and back. */
  lemma LanguageRoundTrip(code: string)
    requires code in Language.SupportedLanguages
    ensures SelectedLanguage(LanguagePosition(code)) == code
  {
  }

  /** Every spinner position survives the language and back. */
  lemma PositionRoundTrip(position: int)
    requires 0 <= position <= 2
    ensures LanguagePosition(SelectedLanguage(position)) == position
  {
  }

  /** The four calculation-method radio buttons. */
  datatype MethodRadio = RadioMWL | RadioISNA | RadioEgypt | RadioMakkah

  /** setCalculationMethod: the radio checked for a stored method name, MWL by default. */
  function RadioFor(name: string): (r: MethodRadio)
    ensures name !in {"MWL", "ISNA", "Egypt", "Makkah"} ==> r == RadioMWL
  {
    match name
    case "MWL" => RadioMWL
    case "ISNA" => RadioISNA
    case "Egypt" => RadioEgypt
    case "Makkah" => RadioMakkah
    case _ => RadioMWL
  }

  /** getSelectedCalculationMethod: the checked radio's name; "MWL" when none is checked. */
  function SelectedMethod(checked: Option<MethodRadio>): (r: string)
    ensures r in {"MWL", "ISNA", "Egypt", "Makkah"}
    ensures checked.None? ==> r == "MWL"
  {
    match checked
    case None => "MWL"
    case Some(RadioMWL) => "MWL"
    case Some(RadioISNA) => "ISNA"
    case Some(RadioEgypt) => "Egypt"
    case Some(RadioMakkah) => "Makkah"
  }

  /** The method names round-trip through the radio group, and so do the radios. */
  lemma MethodRoundTrip(name: string, radio: MethodRadio)
    ensures name in {"MWL", "ISNA", "Egypt", "Makkah"} ==> SelectedMethod(Some(RadioFor(name))) == name
    ensures RadioFor(SelectedMethod(Some(radio))) == radio
  {
  }

  /** What the settings screen holds when Save is pressed. */
  datatype SettingsForm = SettingsForm(
    autoDetect: bool, languagePosition: int, notifications: bool, darkMode: bool,
    checkedMethod: Option<MethodRadio>, latitudeText: string, longitudeText: string)

  /** What loadCurrentSettings puts on the screen. */
  datatype SettingsView = SettingsView(
    autoDetect: bool, spinnerEnabled: bool, languagePosition: int, notifications: bool, darkMode: bool,
    methodRadio: MethodRadio, coordinates: Option<(real, real)>)

  /**
   * The preferences after saveSettings: setAppLanguage stores the selected
   * language and the flag first, then the editor commits the flag, the
   * language when auto-detect is off, the two switches, the method and,
   * when both parse, the coordinates.
   */
  function SavedPrefs(p: Prefs, form: SettingsForm, parse: string -> Option<real>): Prefs
  {
    var selectedLanguage := SelectedLanguage(form.languagePosition);
    var p1 := Language.WithLanguage(p, selectedLanguage, form.autoDetect);
    var p2 := PutBool(p1, Language.PrefAutoDetect, form.autoDetect);
    var p3 := if !form.autoDetect then PutString(p2, Language.PrefLanguage, selectedLanguage) else p2;
    var p4 := PutBool(PutBool(p3, "pref_notifications", form.notifications), "pref_dark_mode", form.darkMode);
    var p5 := PutString(p4, "pref_calculation_method", SelectedMethod(form.checkedMethod));
    var lat, lng := parse(form.latitudeText), parse(form.longitudeText);
    if lat.Some? && lng.Some? then PutFloat(PutFloat(p5, "pref_latitude", lat.value), "pref_longitude", lng.value)
    else p5
  }

  /** loadCurrentSettings: coordinates are shown only when both are non-zero. */
  function LoadedView(p: Prefs): (v: SettingsView)
    ensures v.spinnerEnabled == !v.autoDetect
    ensures 0 <= v.languagePosition <= 2
    ensures v.coordinates.Some? <==> GetFloat(p, "pref_latitude", 0.0) != 0.0 && GetFloat(p, "pref_longitude", 0.0) != 0.0
  {
    var autoDetect := GetBool(p, Language.PrefAutoDetect, true);
    var lat, lng := GetFloat(p, "pref_latitude", 0.0), GetFloat(p, "pref_longitude", 0.0);
    SettingsView(
      autoDetect, !autoDetect,
      LanguagePosition(GetString(p, Language.PrefLanguage, "fr")),
      GetBool(p, "pref_notifications", true), GetBool(p, "pref_dark_mode", false),
      RadioFor(GetString(p, "pref_calculation_method", "MWL")),
      if lat != 0.0 && lng != 0.0 then Some((lat, lng)) else None)
  }

  /** The entries saveSettings leaves behind, read with loadCurrentSettings' defaults. */
  lemma SavedEntries(p: Prefs, form: SettingsForm, parse: string -> Option<real>)
    ensures var q := SavedPrefs(p, form, parse);
      && GetBool(q, Language.PrefAutoDetect, true) == form.autoDetect
      && GetString(q, Language.PrefLanguage, "fr") == SelectedLanguage(form.languagePosition)
      && GetBool(q, "pref_notifications", true) == form.notifications
      && GetBool(q, "pref_dark_mode", false) == form.darkMode
      && GetString(q, "pref_calculation_method", "MWL") == SelectedMethod(form.checkedMethod)
      && (parse(form.latitudeText).Some? && parse(form.longitudeText).Some? ==>
            GetFloat(q, "pref_latitude", 0.0) == parse(form.latitudeText).value &&
            GetFloat(q, "pref_longitude", 0.0) == parse(form.longitudeText).value)
  {
    var selectedLanguage := SelectedLanguage(form.languagePosition);
    var p1 := Language.WithLanguage(p, selectedLanguage, form.autoDetect);
    var p2 := PutBool(p1, Language.PrefAutoDetect, form.autoDetect);
    var p3 := if !form.autoDetect then PutString(p2, Language.PrefLanguage, selectedLanguage) else p2;
    assert GetString(p3, Language.PrefLanguage, "fr") == selectedLanguage;
    assert GetBool(p3, Language.PrefAutoDetect, true) == form.autoDetect;
    var p4 := PutBool(PutBool(p3, "pref_notifications", form.notifications), "pref_dark_mode", form.darkMode);
    var p5 := PutString(p4, "pref_calculation_method", SelectedMethod(form.checkedMethod));
    assert GetString(p5, Language.PrefLanguage, "fr") == selectedLanguage;
    assert GetBool(p5, Language.PrefAutoDetect, true) == form.autoDetect;
    assert GetBool(p5, "pref_notifications", true) == form.notifications;
  }

  /**
   * Saving and then loading shows what was saved: the flag, the spinner
   * position (position 0 for one out of range), both switches, the checked
   * method (MWL when none was checked) and, when both parse to non-zero
   * values, the coordinates.
   */
  lemma SaveThenLoad(p: Prefs, form: SettingsForm, parse: string -> Option<real>)
    ensures var v := LoadedView(SavedPrefs(p, form, parse));
      && v.autoDetect == form.autoDetect
      && v.languagePosition == (if 0 <= form.languagePosition <= 2 then form.languagePosition else 0)
      && v.notifications == form.notifications && v.darkMode == form.darkMode
      && v.methodRadio == (if form.checkedMethod.Some? then form.checkedMethod.value else RadioMWL)
      && (parse(form.latitudeText).Some? && parse(form.longitudeText).Some? &&
          parse(form.latitudeText).value != 0.0 && parse(form.longitudeText).value != 0.0 ==>
            v.coordinates == Some((parse(form.latitudeText).value, parse(form.longitudeText).value)))
  {
    SavedEntries(p, form, parse);
    if 0 <= form.languagePosition <= 2 {
      PositionRoundTrip(form.languagePosition);
    }
    if form.checkedMethod.Some? {
      MethodRoundTrip("MWL", form.checkedMethod.value);
    }
  }

  /**
   * The spinner's language is stored even under auto-detect: the guarded
   * put is preceded by setAppLanguage, which stores it unconditionally.
   */
  lemma SavedLanguageIgnoresGuard(p: Prefs, form: SettingsForm, parse: string -> Option<real>)
    ensures GetString(SavedPrefs(p, form, parse), Language.PrefLanguage, "") == SelectedLanguage(form.languagePosition)
  {
  }

  /** A coordinate that does not parse leaves both stored coordinates as they were. */
  lemma CoordinatesKeptUnlessBothParse(p: Prefs, form: SettingsForm, parse: string -> Option<real>)
    requires parse(form.latitudeText).None? || parse(form.longitudeText).None?
    ensures GetFloat(SavedPrefs(p, form, parse), "pref_latitude", 0.0) == GetFloat(p, "pref_latitude", 0.0)
    ensures GetFloat(SavedPrefs(p, form, parse), "pref_longitude", 0.0) == GetFloat(p, "pref_longitude", 0.0)
  {
  }

  /** saveSettings on the preference file. */
  method SaveSettings(store: PrefStore, form: SettingsForm, parse: string -> Option<real>)
    modifies store
    ensures store.contents == SavedPrefs(old(store.contents), form, parse)
  {
    var selectedLanguage := SelectedLanguage(form.languagePosition);
    Language.SetAppLanguage(store, selectedLanguage, form.autoDetect);
    store.PutBoolEntry(Language.PrefAutoDetect, form.autoDetect);
    if !form.autoDetect {
      store.PutStringEntry(Language.PrefLanguage, selectedLanguage);
    }
    store.PutBoolEntry("pref_notifications", form.notifications);
    store.PutBoolEntry("pref_dark_mode", form.darkMode);
    store.PutStringEntry("pref_calculation_method", SelectedMethod(form.checkedMethod));
    var lat := parse(form.latitudeText);
    if lat.Some? {
      var lng := parse(form.longitudeText);
      if lng.Some? {
        store.PutFloatEntry("pref_latitude", lat.value);
        store.PutFloatEntry("pref_longitude", lng.value);
      }
    }
  }
}
