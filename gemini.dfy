/**
 * GeminiBasicClient: the API-key check, the JSON string escaper, and the
 * choice of a working Gemini model among a fixed list, cached in
 * `workingModel`.
 *
 * The HTTP exchanges are inputs: `callWithModel(prompt, model)` is the text
 * callWithModel returns (an error text holds "❌"), `testModel(model)` whether
 * the probe answered 200. Math.random's choice of a demo answer is the
 * boolean `pick`. Resource strings take the default values written in the
 * client.
 */
module Gemini {
  import opened Text
  import Config

  datatype Option<T> = None | Some(value: T)

  /** GEMINI_MODELS, in the order they are tried. */
  const GeminiModels: seq<string> :=
    ["gemini-2.0-flash-exp", "gemini-2.0-flash", "gemini-2.0-flash-lite", "gemini-1.5-flash", "gemini-1.5-pro"]

  // ---------------------------------------------------------------------
  // API key
  // ---------------------------------------------------------------------

  /**
   * isApiKeyValid. On a trimmed key the client's check is stricter than
   * ConfigReader.hasValidGeminiKey: every key it accepts is accepted there.
   */
  predicate KeyValid(apiKey: Option<string>)
    ensures KeyValid(apiKey) ==> apiKey.Some? && Config.ValidGeminiKey(apiKey.value)
  {
    match apiKey
    case None => false
    case Some(key) =>
      Trim(key) != [] &&
      !Contains(key, "your_actual_") && !Contains(key, "example") && !Contains(key, "placeholder") &&
      Utf16Length(key) >= 30 && StartsWith(key, "AIza")
  }

  /**
   * The converse fails: a key of 21 to 29 characters that starts with
   * "AIza" and has no 'y' (so no "your_actual_") satisfies ConfigReader and
   * is still refused by the client, which then answers from its demo texts.
   */
  lemma ConfigKeyNotClientKey(key: string)
    requires 20 < Utf16Length(key) < 30 && StartsWith(key, "AIza") && 'y' !in key
    ensures Config.ValidGeminiKey(key) && !KeyValid(Some(key))
  {
    if Contains(key, Config.PlaceholderMarker) {
      ContainsHead(key, Config.PlaceholderMarker);
    }
  }

  // ---------------------------------------------------------------------
  // JSON string escaping
  // ---------------------------------------------------------------------

  /** escapeJson: backslash first, then quote, LF, CR and TAB. */
  function EscapeJson(text: string): (r: string)
    ensures '\n' !in r && '\r' !in r && '\t' !in r
  {
    var a := ReplaceChar(text, '\\', "\\\\");
    var b := ReplaceChar(a, '"', "\\\"");
    var c := ReplaceChar(b, '\n', "\\n");
    var d := ReplaceChar(c, '\r', "\\r");
    ReplaceChar(d, '\t', "\\t")
  }

  /** The escape of a single character. */
  function EscapeChar(c: char): string
  {
    match c
    case '\\' => "\\\\"
    case '"' => "\\\""
    case '\n' => "\\n"
    case '\r' => "\\r"
    case '\t' => "\\t"
    case _ => [c]
  }

  /** The chain of replacements escapes a string part by part. */
  lemma EscapeJsonAppend(s: string, t: string)
    ensures EscapeJson(s + t) == EscapeJson(s) + EscapeJson(t)
  {
    var a1, a2 := ReplaceChar(s, '\\', "\\\\"), ReplaceChar(t, '\\', "\\\\");
    ReplaceCharAppend(s, t, '\\', "\\\\");
    var b1, b2 := ReplaceChar(a1, '"', "\\\""), ReplaceChar(a2, '"', "\\\"");
    ReplaceCharAppend(a1, a2, '"', "\\\"");
    var c1, c2 := ReplaceChar(b1, '\n', "\\n"), ReplaceChar(b2, '\n', "\\n");
    ReplaceCharAppend(b1, b2, '\n', "\\n");
    var d1, d2 := ReplaceChar(c1, '\r', "\\r"), ReplaceChar(c2, '\r', "\\r");
    ReplaceCharAppend(c1, c2, '\r', "\\r");
    ReplaceCharAppend(d1, d2, '\t', "\\t");
  }

  /** The chain of replacements escapes each character on its own. */
  lemma EscapeJsonChar(c: char)
    ensures EscapeJson([c]) == EscapeChar(c)
  {
    ReplaceCharSingle(c, '\\', "\\\\");
    var a := if c == '\\' then "\\\\" else [c];
    if c == '\\' {
      ReplaceCharAbsent(a, '"', "\\\"");
    } else {
      ReplaceCharSingle(c, '"', "\\\"");
    }
    var b := if c == '"' then "\\\"" else a;
    if c in "\\\"" {
      ReplaceCharAbsent(b, '\n', "\\n");
    } else {
      ReplaceCharSingle(c, '\n', "\\n");
    }
    var d := if c == '\n' then "\\n" else b;
    if c in "\\\"\n" {
      ReplaceCharAbsent(d, '\r', "\\r");
    } else {
      ReplaceCharSingle(c, '\r', "\\r");
    }
    var e := if c == '\r' then "\\r" else d;
    if c in "\\\"\n\r" {
      ReplaceCharAbsent(e, '\t', "\\t");
    } else {
      ReplaceCharSingle(c, '\t', "\\t");
    }
  }

  /** Decoding the five escapes escapeJson produces; any other character is kept. */
  function Unescape(s: string): string
    decreases |s|
  {
    if |s| >= 2 && s[0] == '\\' && s[1] in "\\\"nrt" then
      [match s[1] case 'n' => '\n' case 'r' => '\r' case 't' => '\t' case other => other] + Unescape(s[2..])
    else if s == [] then []
    else [s[0]] + Unescape(s[1..])
  }

  /** Decoding one escaped character. */
  lemma UnescapeEscapeChar(c: char, rest: string)
    ensures Unescape(EscapeChar(c) + rest) == [c] + Unescape(rest)
  {
    var e := EscapeChar(c) + rest;
    if c in "\\\"\n\r\t" {
      assert e[0] == '\\' && e[2..] == rest;
    } else {
      assert e[0] == c && e[1..] == rest;
    }
  }

  /** Decoding the escapes recovers the prompt: escapeJson loses nothing. */
  lemma {:induction false} UnescapeEscapeJson(s: string)
    ensures Unescape(EscapeJson(s)) == s
    decreases |s|
  {
    if s != [] {
      var c, rest := s[0], s[1..];
      assert s == [c] + rest;
      EscapeJsonAppend([c], rest);
      EscapeJsonChar(c);
      UnescapeEscapeChar(c, EscapeJson(rest));
      UnescapeEscapeJson(rest);
    } else {
      assert EscapeJson(s) == [];
    }
  }

  /**
   * The other control characters pass through unescaped, which section 7
   * of RFC 8259 does not allow inside a JSON string.
   */
  lemma EscapeJsonKeepsOtherControls(s: string, i: nat)
    requires i < |s| && s[i] < ' ' && s[i] !in "\n\r\t"
    ensures s[i] in EscapeJson(s)
  {
    var c := s[i];
    assert s == s[..i] + ([c] + s[i + 1..]);
    EscapeJsonAppend(s[..i], [c] + s[i + 1..]);
    EscapeJsonAppend([c], s[i + 1..]);
    EscapeJsonChar(c);
    var r := EscapeJson(s[..i]) + ([c] + EscapeJson(s[i + 1..]));
    assert r[|EscapeJson(s[..i])|] == c;
  }

  // ---------------------------------------------------------------------
  // Demo answers
  // ---------------------------------------------------------------------

  // The answer texts are written as short pieces so that the absence of a
  // character can be checked piece by piece.

  const HelpTitle: string := "🔧 **Pour activer Gemini AI:**\n"
  const HelpStep1: string := "1. Obtenez une clé GRATUITE sur " + "https://aistudio.google.com/\n"
  const HelpStep2: string := "2. Ajoutez-la dans " + "assets/keys.properties\n"
  const HelpStep3: string := "3. Format: " + "GEMINI_API_KEY=votre_clé_ici\n"
  const HelpStep4: string := "4. Redémarrez l'application"
  const ConfigHelpText: string := HelpTitle + HelpStep1 + HelpStep2 + HelpStep3 + HelpStep4

  /** getConfigurationHelp. */
  function ConfigurationHelp(): string
  {
    "\n\n" + ConfigHelpText
  }

  const PrayerDemo1: string :=
    "🕌 **Conseil sur la Prière**\n\n" + "La prière (Salah) est le deuxième " + "pilier de l'Islam..."
  const PrayerDemo2: string :=
    "📖 **Importance de la Prière**\n\n" + "«La prière préserve de la " + "turpitude et du blâmable.»..."
  const DefaultDemo1: string :=
    "🕌 **BIPrayer AI - Assistant " + "Spirituel**\n\n" + "Je suis là pour vous accompagner..."
  const DefaultDemo2: string :=
    "🌙 **Guidance Islamique**\n\n" + "Que souhaitez-vous savoir sur..."

  /**
   * getEnhancedDemoResponse: a prayer answer when the prompt mentions
   * "prière", a default answer otherwise, then the configuration help.
   * No demo answer looks like a failure.
   */
  function DemoResponse(prompt: string, pick: bool): (r: string)
    ensures !Failed(r)
  {
    var answer :=
      if Contains(ToLower(prompt), "prière") then (if pick then PrayerDemo2 else PrayerDemo1)
      else (if pick then DefaultDemo2 else DefaultDemo1);
    ContainsChar(answer + ConfigurationHelp(), '❌');
    NoCrossInPrayerDemo1();
    NoCrossInPrayerDemo2();
    NoCrossInDefaultDemo1();
    NoCrossInDefaultDemo2();
    NoCrossInHelpHead();
    NoCrossInHelpSteps();
    answer + ConfigurationHelp()
  }

  /** A call result that callGemini treats as a failure. */
  predicate Failed(result: string)
  {
    Contains(result, "❌")
  }

  lemma NoCrossInPrayerDemo1()
    ensures '❌' !in PrayerDemo1
  {
  }

  lemma NoCrossInPrayerDemo2()
    ensures '❌' !in PrayerDemo2
  {
  }

  lemma NoCrossInDefaultDemo1()
    ensures '❌' !in DefaultDemo1
  {
  }

  lemma NoCrossInDefaultDemo2()
    ensures '❌' !in DefaultDemo2
  {
  }

  lemma NoCrossInHelpHead()
    ensures '❌' !in HelpTitle && '❌' !in HelpStep1
  {
  }

  lemma NoCrossInHelpSteps()
    ensures '❌' !in HelpStep2 && '❌' !in HelpStep3 && '❌' !in HelpStep4
  {
  }

  // ---------------------------------------------------------------------
  // Model selection
  // ---------------------------------------------------------------------

  /** The first index whose outcome is a success, if any. */
  function FirstSuccess(outcomes: seq<bool>): (r: Option<nat>)
    ensures r.Some? ==> r.value < |outcomes| && outcomes[r.value] && forall j :: 0 <= j < r.value ==> !outcomes[j]
    ensures r.None? ==> forall j :: 0 <= j < |outcomes| ==> !outcomes[j]
  {
    if outcomes == [] then None
    else if outcomes[0] then Some(0)
    else match FirstSuccess(outcomes[1..])
      case None => None
      case Some(i) => Some(i + 1)
  }

  /**
   * Which models answer the prompt without "❌", in GEMINI_MODELS order.
   * The ensures only unfold the definition, for the callers' proofs.
   */
  function CallOutcomes(prompt: string, callWithModel: (string, string) -> string): (r: seq<bool>)
    ensures |r| == |GeminiModels|
    ensures forall i :: 0 <= i < |r| ==> (r[i] <==> !Failed(callWithModel(prompt, GeminiModels[i])))
  {
    seq(|GeminiModels|, i requires 0 <= i < |GeminiModels| => !Failed(callWithModel(prompt, GeminiModels[i])))
  }

  /**
   * Which models pass testModel, in GEMINI_MODELS order. The ensures only
   * unfold the definition, for the callers' proofs.
   */
  function ProbeOutcomes(testModel: string -> bool): (r: seq<bool>)
    ensures |r| == |GeminiModels|
    ensures forall i :: 0 <= i < |r| ==> r[i] == testModel(GeminiModels[i])
  {
    seq(|GeminiModels|, i requires 0 <= i < |GeminiModels| => testModel(GeminiModels[i]))
  }

  const TestPrompt: string := "Test de connexion - réponse courte"
  const InvalidKeyText: string := "❌ Clé API manquante ou invalide"
  const ConnectedPrefix: string := "✅ Connecté avec modèle: "
  const FailedPrefix: string := "❌ Échec de connexion: "
  const OperationalText: string := "✅ Gemini API: Opérationnel"

  class GeminiBasicClient {
    const apiKey: Option<string>
    var workingModel: Option<string>

    /** The constructor; the model probe it submits to its executor is TestAllModels. */
    constructor (apiKey: Option<string>)
      ensures this.apiKey == apiKey && workingModel == None
    {
      this.apiKey := apiKey;
      workingModel := None;
    }

    /**
     * testAllModels (the background task, run to completion): with a valid
     * key, the first model whose probe succeeds is cached; when none does,
     * the cache keeps its previous value.
     */
    method TestAllModels(testModel: string -> bool)
      modifies this
      ensures !KeyValid(apiKey) ==> workingModel == old(workingModel)
      ensures KeyValid(apiKey) ==>
        workingModel == match FirstSuccess(ProbeOutcomes(testModel))
                        case None => old(workingModel)
                        case Some(i) => Some(GeminiModels[i])
    {
      if !KeyValid(apiKey) {
        return;
      }
      var outcomes := ProbeOutcomes(testModel);
      var i := 0;
      while i < |GeminiModels|
        invariant 0 <= i <= |GeminiModels|
        invariant forall j :: 0 <= j < i ==> !outcomes[j]
        invariant workingModel == old(workingModel)
      {
        if testModel(GeminiModels[i]) {
          workingModel := Some(GeminiModels[i]);
          assert FirstSuccess(outcomes) == Some(i) by {
            FirstSuccessIs(outcomes, i);
          }
          return;
        }
        i := i + 1;
      }
      assert FirstSuccess(outcomes) == None by {
        FirstSuccessNone(outcomes);
      }
    }

    /**
     * callGemini. With an invalid key: the demo answer, nothing called.
     * Otherwise the cached model is tried first and kept when it answers;
     * when it fails it is dropped, then the models are tried in order: the
     * first answer without "❌" is returned and its model cached; when all
     * fail, the demo answer is returned and nothing is cached. `attempts`
     * lists the models called, in order.
     */
    method CallGemini(prompt: string, callWithModel: (string, string) -> string, pick: bool)
      returns (r: string, ghost attempts: seq<string>)
      modifies this
      ensures !KeyValid(apiKey) ==> r == DemoResponse(prompt, pick) && attempts == [] && workingModel == old(workingModel)
      ensures KeyValid(apiKey) && old(workingModel).Some? && !Failed(callWithModel(prompt, old(workingModel).value)) ==>
        r == callWithModel(prompt, old(workingModel).value) && attempts == [old(workingModel).value] &&
        workingModel == old(workingModel)
      ensures KeyValid(apiKey) && (old(workingModel).None? || Failed(callWithModel(prompt, old(workingModel).value))) ==>
        var cached := if old(workingModel).Some? then [old(workingModel).value] else [];
        match FirstSuccess(CallOutcomes(prompt, callWithModel))
        case Some(i) =>
          r == callWithModel(prompt, GeminiModels[i]) && workingModel == Some(GeminiModels[i]) &&
          attempts == cached + GeminiModels[..i + 1]
        case None =>
          r == DemoResponse(prompt, pick) && workingModel == None && attempts == cached + GeminiModels
    {
      attempts := [];
      if !KeyValid(apiKey) {
        return DemoResponse(prompt, pick), attempts;
      }
      if workingModel.Some? {
        var result := callWithModel(prompt, workingModel.value);
        attempts := [workingModel.value];
        if !Failed(result) {
          return result, attempts;
        }
        workingModel := None;
      }
      ghost var tried;
      r, tried := TryEachModel(prompt, callWithModel, pick);
      attempts := attempts + tried;
    }

    /**
     * The fallback loop of callGemini: each model in GEMINI_MODELS order,
     * caching the first that answers without "❌"; the demo answer when none
     * does. `tried` lists the models called.
     */
    method TryEachModel(prompt: string, callWithModel: (string, string) -> string, pick: bool)
      returns (r: string, ghost tried: seq<string>)
      requires workingModel == None
      modifies this
      ensures match FirstSuccess(CallOutcomes(prompt, callWithModel))
        case Some(i) =>
          r == callWithModel(prompt, GeminiModels[i]) && workingModel == Some(GeminiModels[i]) &&
          tried == GeminiModels[..i + 1]
        case None =>
          r == DemoResponse(prompt, pick) && workingModel == None && tried == GeminiModels
    {
      tried := [];
      var outcomes := CallOutcomes(prompt, callWithModel);
      var models := GeminiModels;
      var i := 0;
      while i < |models|
        invariant 0 <= i <= |models|
        invariant forall j :: 0 <= j < i ==> !outcomes[j]
        invariant tried == models[..i]
        invariant workingModel == None
      {
        var result := callWithModel(prompt, models[i]);
        tried := tried + [models[i]];
        assert models[..i + 1] == models[..i] + [models[i]];
        if !Failed(result) {
          workingModel := Some(models[i]);
          FirstSuccessIs(outcomes, i);
          return result, tried;
        }
        i := i + 1;
      }
      FirstSuccessNone(outcomes);
      assert models[..i] == models;
      return DemoResponse(prompt, pick), tried;
    }

    /**
     * testConnection as written. With a valid key and no cached model it
     * asks callGemini and reports failure only when the answer holds "❌";
     * the demo answer never does, so when every model fails it still
     * reports the API as operational.
     */
    method TestConnection(callWithModel: (string, string) -> string, pick: bool)
      returns (r: string, ghost attempts: seq<string>)
      modifies this
      ensures !KeyValid(apiKey) ==>
        r == InvalidKeyText + "\n\n" + ConfigurationHelp() && workingModel == old(workingModel) && attempts == []
      ensures KeyValid(apiKey) && old(workingModel).Some? ==>
        r == ConnectedPrefix + old(workingModel).value && workingModel == old(workingModel) && attempts == []
      ensures KeyValid(apiKey) && old(workingModel).None? ==>
        match FirstSuccess(CallOutcomes(TestPrompt, callWithModel))
        case Some(i) =>
          r == OperationalText + (" (Modèle: " + GeminiModels[i] + ")") && workingModel == Some(GeminiModels[i]) &&
          attempts == GeminiModels[..i + 1]
        case None =>
          r == OperationalText && workingModel == None && attempts == GeminiModels
    {
      attempts := [];
      if !KeyValid(apiKey) {
        return InvalidKeyText + "\n\n" + ConfigurationHelp(), attempts;
      }
      if workingModel.Some? {
        return ConnectedPrefix + workingModel.value, attempts;
      }
      var result;
      result, attempts := CallGemini(TestPrompt, callWithModel, pick);
      ghost var first := FirstSuccess(CallOutcomes(TestPrompt, callWithModel));
      assert first.Some? ==> result == callWithModel(TestPrompt, GeminiModels[first.value]) && !Failed(result);
      assert first.None? ==> result == DemoResponse(TestPrompt, pick) && !Failed(result);
      if Failed(result) {
        r := FailedPrefix + result + "\n\n" + ConfigurationHelp();
      } else {
        r := OperationalText + (if workingModel.Some? then " (Modèle: " + workingModel.value + ")" else "");
      }
    }

    /**
     * testConnection corrected: a call that fell back to the demo answer
     * (no model cached afterwards) is reported as a failure, so a report
     * starting with "✅" always means some model answered.
     */
    method TestConnectionChecked(callWithModel: (string, string) -> string, pick: bool) returns (r: string)
      modifies this
      ensures |r| > 0
      ensures r[0] == '✅' ==> KeyValid(apiKey) && workingModel.Some?
      ensures KeyValid(apiKey) && old(workingModel).None? && FirstSuccess(CallOutcomes(TestPrompt, callWithModel)).None? ==>
        r[0] == '❌' && workingModel == None
      ensures KeyValid(apiKey) && old(workingModel).None? && FirstSuccess(CallOutcomes(TestPrompt, callWithModel)).Some? ==>
        var i := FirstSuccess(CallOutcomes(TestPrompt, callWithModel)).value;
        r == OperationalText + (" (Modèle: " + GeminiModels[i] + ")") && workingModel == Some(GeminiModels[i])
    {
      if !KeyValid(apiKey) {
        assert InvalidKeyText[0] == '❌';
        r := InvalidKeyText + ("\n\n" + ConfigurationHelp());
        return;
      }
      if workingModel.Some? {
        assert ConnectedPrefix[0] == '✅';
        r := ConnectedPrefix + workingModel.value;
        return;
      }
      var result, attempts := CallGemini(TestPrompt, callWithModel, pick);
      if Failed(result) || workingModel.None? {
        assert FailedPrefix[0] == '❌';
        r := FailedPrefix + (result + "\n\n" + ConfigurationHelp());
      } else {
        assert OperationalText[0] == '✅';
        r := OperationalText + (" (Modèle: " + workingModel.value + ")");
      }
    }

    /** resetModelSelection: the cache is dropped, then the models are probed again. */
    method ResetModelSelection(testModel: string -> bool)
      modifies this
      ensures KeyValid(apiKey) ==>
        workingModel == match FirstSuccess(ProbeOutcomes(testModel))
                        case None => None
                        case Some(i) => Some(GeminiModels[i])
      ensures !KeyValid(apiKey) ==> workingModel == None
    {
      workingModel := None;
      TestAllModels(testModel);
    }
  }

  /** FirstSuccess finds index i when the outcome at i is the first success. */
  lemma {:induction false} FirstSuccessIs(outcomes: seq<bool>, i: nat)
    requires i < |outcomes| && outcomes[i] && forall j :: 0 <= j < i ==> !outcomes[j]
    ensures FirstSuccess(outcomes) == Some(i)
    decreases i
  {
    if i > 0 {
      FirstSuccessIs(outcomes[1..], i - 1);
    }
  }

  /** FirstSuccess finds nothing when every outcome is a failure. */
  lemma {:induction false} FirstSuccessNone(outcomes: seq<bool>)
    requires forall j :: 0 <= j < |outcomes| ==> !outcomes[j]
    ensures FirstSuccess(outcomes) == None
    decreases |outcomes|
  {
    if outcomes != [] {
      FirstSuccessNone(outcomes[1..]);
    }
  }
}
