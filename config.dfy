/**
 * ConfigReader: the static API-key configuration read once from
 * assets/keys.properties, its trimmed getters and the key validators.
 *
 * The static fields are the fields of one ConfigReader object. The asset
 * listing and the properties file are inputs: None stands for the call
 * throwing.
 */
module Config {
  import opened Text

  datatype Option<T> = None | Some(value: T)

  type Properties = map<string, string>

  const KeysFile: string := "keys.properties"
  const DefaultQdrantUrl: string := "https://cloud.qdrant.io"
  const PlaceholderMarker: string := "your_actual_"

  /** getProperty(name, default).trim() on a loaded Properties, "" while it is null. */
  function Setting(properties: Option<Properties>, name: string, default: string): (r: string)
    ensures Trim(r) == r
    ensures properties.None? ==> r == ""
    ensures properties.Some? && name in properties.value ==> r == Trim(properties.value[name])
    ensures properties.Some? && name !in properties.value ==> r == Trim(default)
  {
    match properties
    case None => ""
    case Some(p) =>
      TrimIdempotent(if name in p then p[name] else default);
      Trim(if name in p then p[name] else default)
  }

  /** The properties initialize leaves behind, for a given asset listing and file load. */
  function LoadedProperties(files: Option<seq<string>>, loaded: Option<Properties>): Properties
  {
    if files.Some? && KeysFile in files.value && loaded.Some? then loaded.value else map[]
  }

  /** hasValidGeminiKey on the trimmed key. */
  predicate ValidGeminiKey(key: string)
    ensures StartsWith(key, PlaceholderMarker) ==> !ValidGeminiKey(key)
    ensures ValidGeminiKey(key) ==> Utf16Length(key) >= 21
  {
    |key| > 0 && !Contains(key, PlaceholderMarker) && Utf16Length(key) > 20 && StartsWith(key, "AIza")
  }

  /** hasValidOpusKey and hasValidQdrantKey on the trimmed key. */
  predicate ValidServiceKey(key: string)
    ensures StartsWith(key, PlaceholderMarker) ==> !ValidServiceKey(key)
    ensures ValidServiceKey(key) ==> Utf16Length(key) >= 11
  {
    |key| > 0 && !Contains(key, PlaceholderMarker) && Utf16Length(key) > 10
  }

  /**
   * Key lengths are Java's UTF-16 lengths: six characters outside the Basic
   * Multilingual Plane make a key of twelve code units, long enough for the
   * Opus and Qdrant checks.
   */
  lemma SupplementaryKeyLength()
    ensures |"🔑🔑🔑🔑🔑🔑"| == 6 && ValidServiceKey("🔑🔑🔑🔑🔑🔑")
  {
    var key := "🔑🔑🔑🔑🔑🔑";
    assert Utf16Length(key) == 12;
    if Contains(key, PlaceholderMarker) {
      ContainsHead(key, PlaceholderMarker);
    }
  }

  /** A valid Gemini key is a valid key for the other two services as well. */
  lemma GeminiKeyIsServiceKey(key: string)
    ensures ValidGeminiKey(key) ==> ValidServiceKey(key)
  {
  }

  const AllConfiguredLine: string := "\n✅ **Tous les services sont configurés!**"
  const SomeMissingLine: string := "\n⚠️ **Certains services nécessitent une configuration**"

  function Mark(valid: bool): string
  {
    if valid then "✅" else "❌"
  }

  /** The service lines of getApiStatusSummary, before the verdict. */
  function StatusHead(geminiValid: bool, opusValid: bool, qdrantValid: bool): string
  {
    "**Statut des Services AI**\n\n" +
    "🤖 Gemini: " + Mark(geminiValid) + "\n" +
    "🎵 Opus: " + Mark(opusValid) + "\n" +
    "🔍 Qdrant: " + Mark(qdrantValid) + "\n"
  }

  predicate EndsWith(s: string, suffix: string)
  {
    |suffix| <= |s| && s[|s| - |suffix|..] == suffix
  }

  /** A suffix of the second part is a suffix of the whole, and conversely when it fits. */
  lemma EndsWithAppend(head: string, tail: string, suffix: string)
    requires |suffix| <= |tail|
    ensures EndsWith(head + tail, suffix) <==> EndsWith(tail, suffix)
  {
    assert (head + tail)[|head + tail| - |suffix|..] == tail[|tail| - |suffix|..];
  }

  /** The summary for three validator verdicts: the service lines, then the verdict line. */
  function StatusSummary(geminiValid: bool, opusValid: bool, qdrantValid: bool): (r: string)
    ensures EndsWith(r, AllConfiguredLine) <==> geminiValid && opusValid && qdrantValid
  {
    var head := StatusHead(geminiValid, opusValid, qdrantValid);
    var verdict := if geminiValid && opusValid && qdrantValid then AllConfiguredLine else SomeMissingLine;
    VerdictLinesDiffer();
    EndsWithAppend(head, verdict, AllConfiguredLine);
    head + verdict
  }

  /** The "some missing" verdict does not end like the "all configured" one. */
  lemma VerdictLinesDiffer()
    ensures EndsWith(AllConfiguredLine, AllConfiguredLine)
    ensures |AllConfiguredLine| <= |SomeMissingLine| && !EndsWith(SomeMissingLine, AllConfiguredLine)
  {
    var n, m := |AllConfiguredLine|, |SomeMissingLine|;
    assert AllConfiguredLine[n - 3] == '!';
    assert SomeMissingLine[m - 3] == 'n';
    assert SomeMissingLine[m - n..][n - 3] == SomeMissingLine[m - 3];
  }

  class ConfigReader {
    var properties: Option<Properties>
    var initialized: bool

    /** The class as loaded: no properties, not initialized. */
    constructor ()
      ensures properties == None && !initialized
    {
      properties := None;
      initialized := false;
    }

    /**
     * initialize: once initialized, nothing changes. Otherwise the asset
     * listing is scanned for keys.properties; a missing file, a listing or
     * load that throws, all leave empty properties; every path ends
     * initialized.
     */
    method Initialize(files: Option<seq<string>>, loaded: Option<Properties>)
      modifies this
      ensures initialized
      ensures old(initialized) ==> properties == old(properties)
      ensures !old(initialized) ==> properties == Some(LoadedProperties(files, loaded))
    {
      if initialized {
        return;
      }
      properties := Some(map[]);
      if files.None? {
        properties := Some(map[]);
        initialized := true;
        return;
      }
      var listing := files.value;
      var keysFileExists := false;
      var i := 0;
      // the scan stops at the first match
      while i < |listing| && !keysFileExists
        invariant 0 <= i <= |listing|
        invariant keysFileExists <==> KeysFile in listing[..i]
      {
        assert listing[..i + 1] == listing[..i] + [listing[i]];
        if listing[i] == KeysFile {
          keysFileExists := true;
        }
        i := i + 1;
      }
      if !keysFileExists {
        assert listing[..i] == listing;
        properties := Some(map[]);
        initialized := true;
        return;
      }
      assert KeysFile in listing by {
        var j :| 0 <= j < i && listing[..i][j] == KeysFile;
        assert listing[j] == KeysFile;
      }
      if loaded.None? {
        properties := Some(map[]);
        initialized := true;
        return;
      }
      properties := loaded;
      initialized := true;
    }

    /** getGeminiApiKey: "" before loading, otherwise the trimmed setting, "" when it is missing. */
    function GeminiApiKey(): (r: string)
      reads this
      ensures Trim(r) == r
      ensures properties.None? ==> r == ""
      ensures properties.Some? && "GEMINI_API_KEY" in properties.value ==> r == Trim(properties.value["GEMINI_API_KEY"])
      ensures properties.Some? && "GEMINI_API_KEY" !in properties.value ==> r == ""
    {
      Setting(properties, "GEMINI_API_KEY", "")
    }

    /** getOpusApiKey: "" before loading, otherwise the trimmed setting, "" when it is missing. */
    function OpusApiKey(): (r: string)
      reads this
      ensures Trim(r) == r
      ensures properties.None? ==> r == ""
      ensures properties.Some? && "OPUS_API_KEY" in properties.value ==> r == Trim(properties.value["OPUS_API_KEY"])
      ensures properties.Some? && "OPUS_API_KEY" !in properties.value ==> r == ""
    {
      Setting(properties, "OPUS_API_KEY", "")
    }

    /** getQdrantApiKey: "" before loading, otherwise the trimmed setting, "" when it is missing. */
    function QdrantApiKey(): (r: string)
      reads this
      ensures Trim(r) == r
      ensures properties.None? ==> r == ""
      ensures properties.Some? && "QDRANT_API_KEY" in properties.value ==> r == Trim(properties.value["QDRANT_API_KEY"])
      ensures properties.Some? && "QDRANT_API_KEY" !in properties.value ==> r == ""
    {
      Setting(properties, "QDRANT_API_KEY", "")
    }

    /** getQdrantBaseUrl: "" before loading, otherwise the trimmed setting, the Qdrant cloud URL when it is missing. */
    function QdrantBaseUrl(): (r: string)
      reads this
      ensures Trim(r) == r
      ensures properties.None? ==> r == ""
      ensures properties.Some? && "QDRANT_BASE_URL" in properties.value ==> r == Trim(properties.value["QDRANT_BASE_URL"])
      ensures properties.Some? && "QDRANT_BASE_URL" !in properties.value ==> r == DefaultQdrantUrl
    {
      assert Trim(DefaultQdrantUrl) == DefaultQdrantUrl by {
        assert !IsTrimmable(DefaultQdrantUrl[0]) && !IsTrimmable(DefaultQdrantUrl[|DefaultQdrantUrl| - 1]);
      }
      Setting(properties, "QDRANT_BASE_URL", DefaultQdrantUrl)
    }

    /** Each validator holds only for a non-empty key, so never before initialize has loaded one. */
    lemma NoValidKeyWithoutProperties()
      requires properties.None?
      ensures !ValidGeminiKey(GeminiApiKey()) && !ValidServiceKey(OpusApiKey()) && !ValidServiceKey(QdrantApiKey())
    {
      assert GeminiApiKey() == "" && OpusApiKey() == "" && QdrantApiKey() == "";
    }

    /** getApiStatusSummary: the three marks, then the verdict line. */
    function ApiStatusSummary(): (r: string)
      reads this
      ensures EndsWith(r, AllConfiguredLine) <==>
        ValidGeminiKey(GeminiApiKey()) && ValidServiceKey(OpusApiKey()) && ValidServiceKey(QdrantApiKey())
    {
      StatusSummary(ValidGeminiKey(GeminiApiKey()), ValidServiceKey(OpusApiKey()), ValidServiceKey(QdrantApiKey()))
    }
  }
}
