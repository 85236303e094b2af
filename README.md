# BIPrayer in Dafny

A model of the logic behind BIPrayer, an Android companion for Muslim prayer.
It covers:

- **Prayer times** (`PrayerTimesService`): the six daily times shifted by a
  latitude correction and a seasonal correction, the next prayer after the
  current time, the countdown to it, the notification text and the Qibla
  direction.
- **The Qibla compass** (`PrayerTimesActivity`): two three-slot sensor
  buffers overwritten in place, the visibility of the Qibla panel, and which
  sensors the activity listens to.
- **The verse store** (`QuranService`): fourteen verses under six theme keys,
  the theme and keyword searches, the verse of the day, the tafsir lookup and
  the formatted verse.
- **The AI clients**:
  - `GeminiBasicClient`: the key check, JSON escaping, the demo answers and
    the choice of a working model among five;
  - `OpusClient`: the speech-synthesis guards and status dispatch, the error
    table and the voice table;
  - `QuranKnowledgeService`: Qdrant search with fallback passages.
- **Configuration** (`ConfigReader`): the API keys read from
  `keys.properties`, their validators and the status summary.
- **Language and settings** (`LanguageHelper`, `SettingsActivity`): the
  application language (auto-detected or saved), its tables, and the
  preference writes of the settings screen with what it shows afterwards.

The files:

- `text.dfy`: the Java `String` operations the code relies on.
- `prefs.dfy`: the `app_prefs` SharedPreferences file.
- One file per Java class: `prayer_times.dfy`, `compass.dfy`, `quran.dfy`,
  `gemini.dfy`, `opus.dfy`, `knowledge.dfy`, `config.dfy`, `language.dfy`,
  `settings.dfy`.

How the model handles the parts it does not compute:

- **Outside inputs become parameters.** The network, the clock, the system
  locale, `Math.random`, Android sensors, `Double.parseDouble` and the
  floating-point formulas are all parameters of the operations that use
  them.
- **Objects whose fields change are classes.** `ConfigReader`,
  `GeminiBasicClient`, `QuranKnowledgeService`, `QuranService`,
  `PrayerTimesService`, the Qibla screen and the preference file are Dafny
  classes, and their methods state the new state.
- **Loops keep their shape.** Loops in the source are `while` loops with
  invariants, proved against specification functions.

## Model

All source paths are under `app/src/main/java/com/besmainfo/biprayer/`; the table writes them in full.

| member | source | states |
|---|---|---|
| PrayerTimes.Clock | app/src/main/java/com/besmainfo/biprayer/services/PrayerTimesService.java:62 | the "HH:MM" text of a time of day has five characters with ':' in the middle |
| PrayerTimes.FormatClock | app/src/main/java/com/besmainfo/biprayer/services/PrayerTimesService.java:62 | "%02d:%02d" gives two digits, a colon and two digits |
| PrayerTimes.FormatClockParses | app/src/main/java/com/besmainfo/biprayer/services/PrayerTimesService.java:62 | an hour and minute of a day format to a text that parses back to them |
| PrayerTimes.FormatClockIsClock | app/src/main/java/com/besmainfo/biprayer/services/PrayerTimesService.java:59-62 | "%02d:%02d" of a time's hour and minute is its clock text |
| PrayerTimes.ParseClockInverse | app/src/main/java/com/besmainfo/biprayer/services/PrayerTimesService.java:82-84 | parsing "HH:mm" of a formatted time gives the time back |
| PrayerTimes.ParseClock | app/src/main/java/com/besmainfo/biprayer/services/PrayerTimesService.java:82-84 | a text that parses is the clock text of the time it parses to |
| PrayerTimes.ClockOrder | app/src/main/java/com/besmainfo/biprayer/services/PrayerTimesService.java:70-71 | two zero-padded clock texts compare with compareTo exactly as their minutes compare |
| PrayerTimes.MosqueEmojiIff | app/src/main/java/com/besmainfo/biprayer/services/PrayerTimesService.java:157-167 | getPrayerEmoji answers the mosque emoji exactly for names outside the six prayers |
| PrayerTimes.CalculatePrayerTime | app/src/main/java/com/besmainfo/biprayer/services/PrayerTimesService.java:52-64 | the entry keeps the prayer's name and carries that name's emoji |
| PrayerTimes.PrayerTimeText | app/src/main/java/com/besmainfo/biprayer/services/PrayerTimesService.java:58-62 | for a non-negative total, Java's truncating hour-modulo-24 and minute give the clock text of the total modulo one day |
| PrayerTimes.ShiftedTotals | app/src/main/java/com/besmainfo/biprayer/services/PrayerTimesService.java:37-42 | with corrections within ±30 and ±20 minutes, every shifted total stays between 04:40 and 20:35 |
| PrayerTimes.Schedule | app/src/main/java/com/besmainfo/biprayer/services/PrayerTimesService.java:37-42 | the computed schedule has six entries |
| PrayerTimes.ScheduleIsSchedule | app/src/main/java/com/besmainfo/biprayer/services/PrayerTimesService.java:37-42 | a computed schedule names Fajr..Isha in order, and its times are the clock texts of strictly ascending totals |
| PrayerTimes.ScheduleEntry | app/src/main/java/com/besmainfo/biprayer/services/PrayerTimesService.java:37-42 | the i-th put holds the i-th prayer name and the clock text of its shifted total |
| PrayerTimes.ScheduleEntries | app/src/main/java/com/besmainfo/biprayer/services/PrayerTimesService.java:37-42 | the schedule is the six calculatePrayerTime puts, Fajr to Isha, with their base times |
| PrayerTimes.ShiftedTotalsAscend | app/src/main/java/com/besmainfo/biprayer/services/PrayerTimesService.java:37-42 | one shift applied to all six base times keeps their order |
| PrayerTimes.ScheduleTimesAscend | app/src/main/java/com/besmainfo/biprayer/services/PrayerTimesService.java:70-74 | a schedule's times parse back to their totals and ascend strictly as strings |
| PrayerTimes.UncorrectedTotals | app/src/main/java/com/besmainfo/biprayer/services/PrayerTimesService.java:37-42 | without corrections the totals are the six base times in minutes |
| PrayerTimes.BaseClocks | app/src/main/java/com/besmainfo/biprayer/services/PrayerTimesService.java:146-155 | the demo table's six texts are the clock texts of the six base times |
| PrayerTimes.DemoIsSchedule | app/src/main/java/com/besmainfo/biprayer/services/PrayerTimesService.java:146-155 | the demo table is a schedule over the uncorrected totals |
| PrayerTimes.UncorrectedEmojis | app/src/main/java/com/besmainfo/biprayer/services/PrayerTimesService.java:157-167 | the uncorrected schedule's emojis are the demo table's |
| PrayerTimes.DemoIsUncorrectedSchedule | app/src/main/java/com/besmainfo/biprayer/services/PrayerTimesService.java:146-155 | the demo table equals the computed schedule with both corrections zero |
| PrayerTimes.ScheduleForIsSchedule | app/src/main/java/com/besmainfo/biprayer/services/PrayerTimesService.java:25-50 | both paths of calculatePrayerTimes (demo, computed) give a schedule |
| PrayerTimes.FirstLater | app/src/main/java/com/besmainfo/biprayer/services/PrayerTimesService.java:70-74 | the index found is later than now and every earlier entry is not; none found means no entry is later |
| PrayerTimes.Get | app/src/main/java/com/besmainfo/biprayer/services/PrayerTimesService.java:76 | a lookup by name finds an entry with that name, or there is none |
| PrayerTimes.NextPrayer | app/src/main/java/com/besmainfo/biprayer/services/PrayerTimesService.java:66-77 | an answer is an entry of the map that is later than now or named Fajr; no answer exactly when no entry is later and none is named Fajr |
| PrayerTimes.NextPrayerOfSchedule | app/src/main/java/com/besmainfo/biprayer/services/PrayerTimesService.java:66-77 | on a schedule the next prayer exists: the first strictly later than now, else Fajr |
| PrayerTimes.ForwardMinutes | app/src/main/java/com/besmainfo/biprayer/services/PrayerTimesService.java:86-87 | the distance is under one day and reaches the target modulo one day |
| PrayerTimes.Countdown | app/src/main/java/com/besmainfo/biprayer/services/PrayerTimesService.java:79-97 | "00:00" when the target does not parse; otherwise a text that parses to the forward distance from now |
| PrayerTimes.CountdownToNextIsPositive | app/src/main/java/com/besmainfo/biprayer/services/PrayerTimesService.java:79-97 | the countdown to the next prayer of a schedule is strictly positive and under a day |
| PrayerTimes.AppendPrayerLines | app/src/main/java/com/besmainfo/biprayer/services/PrayerTimesService.java:107-112 | the loop appends one line per entry, in map order |
| PrayerTimes.NamesDistinct | app/src/main/java/com/besmainfo/biprayer/services/PrayerTimesService.java:37-42 | the six prayer names are pairwise distinct |
| PrayerTimes.ExactlyOneMarkedLine | app/src/main/java/com/besmainfo/biprayer/services/PrayerTimesService.java:107-108 | exactly one entry of a schedule shares the next prayer's name, so one line is marked "(Prochaine)" |
| PrayerTimes.PrayerTimesService.constructor | app/src/main/java/com/besmainfo/biprayer/services/PrayerTimesService.java:15-18 | a new service has no location |
| PrayerTimes.PrayerTimesService.SetLocation | app/src/main/java/com/besmainfo/biprayer/services/PrayerTimesService.java:20-23 | the location is stored |
| PrayerTimes.PrayerTimesService.GetDemoPrayerTimes | app/src/main/java/com/besmainfo/biprayer/services/PrayerTimesService.java:146-155 | the six puts build the demo table |
| PrayerTimes.PrayerTimesService.CalculatePrayerTimes | app/src/main/java/com/besmainfo/biprayer/services/PrayerTimesService.java:25-50 | the demo table without a location, else the six computed entries |
| PrayerTimes.PrayerTimesService.GetNextPrayer | app/src/main/java/com/besmainfo/biprayer/services/PrayerTimesService.java:66-77 | the loop's answer is the specified next prayer, an entry of the schedule |
| PrayerTimes.PrayerTimesService.GetTimeUntilNextPrayer | app/src/main/java/com/besmainfo/biprayer/services/PrayerTimesService.java:79-97 | the countdown to the next prayer, and it parses to between 1 minute and 23:59 |
| PrayerTimes.PrayerTimesService.GetPrayerNotifications | app/src/main/java/com/besmainfo/biprayer/services/PrayerTimesService.java:99-126 | header, one line per prayer with the next one marked, the next prayer with its countdown, the location line |
| PrayerTimes.PrayerTimesService.CalculateQiblaDirection | app/src/main/java/com/besmainfo/biprayer/services/PrayerTimesService.java:128-144 | 0.0 without a location, else the bearing from the location's coordinates |
| Compass.Overwritten | app/src/main/java/com/besmainfo/biprayer/activities/PrayerTimesActivity.java:224-228 | the copy keeps the buffer's length; the first slots take the sample and the rest keep their values |
| Compass.OverwrittenFull | app/src/main/java/com/besmainfo/biprayer/activities/PrayerTimesActivity.java:225 | a full-length sample replaces the whole buffer |
| Compass.OverwrittenIdempotent | app/src/main/java/com/besmainfo/biprayer/activities/PrayerTimesActivity.java:225 | copying the same sample twice is copying it once |
| Compass.CopyInto | app/src/main/java/com/besmainfo/biprayer/activities/PrayerTimesActivity.java:225 | the in-place copy loop leaves the array holding the overwritten contents |
| Compass.Present | app/src/main/java/com/besmainfo/biprayer/activities/PrayerTimesActivity.java:188-197 | exactly the present sensors are registered, never another kind |
| Compass.QiblaScreen.constructor | app/src/main/java/com/besmainfo/biprayer/activities/PrayerTimesActivity.java:32-38 | zeroed distinct buffers, the panel hidden, no sensor registered, the presence flags set |
| Compass.QiblaScreen.StartSensors | app/src/main/java/com/besmainfo/biprayer/activities/PrayerTimesActivity.java:188-197 | the present sensors are added to the registrations; nothing else changes |
| Compass.QiblaScreen.StopSensors | app/src/main/java/com/besmainfo/biprayer/activities/PrayerTimesActivity.java:199-202 | no sensor stays registered; nothing else changes |
| Compass.QiblaScreen.ShowQiblaMode | app/src/main/java/com/besmainfo/biprayer/activities/PrayerTimesActivity.java:163-177 | the panel is visible and the present sensors are registered; the screen invariant holds |
| Compass.QiblaScreen.HideQiblaMode | app/src/main/java/com/besmainfo/biprayer/activities/PrayerTimesActivity.java:179-186 | the panel is hidden and no sensor is registered |
| Compass.QiblaScreen.ToggleQiblaMode | app/src/main/java/com/besmainfo/biprayer/activities/PrayerTimesActivity.java:153-161 | visibility flips; when visible exactly the present sensors listen, when hidden none |
| Compass.QiblaScreen.OnResume | app/src/main/java/com/besmainfo/biprayer/activities/PrayerTimesActivity.java:62-76 | sensors restart only when the panel is visible |
| Compass.QiblaScreen.OnPause | app/src/main/java/com/besmainfo/biprayer/activities/PrayerTimesActivity.java:268-272 | every sensor is stopped and the panel is left as it is |
| Compass.QiblaScreen.OnSensorChanged | app/src/main/java/com/besmainfo/biprayer/activities/PrayerTimesActivity.java:220-255 | nothing changes while hidden or when the copy throws; otherwise only the event's own buffer is overwritten, and the rotation is recomputed from both buffers exactly when both sensors are present and the rotation succeeds |
| Quran.TextMatchesIff | app/src/main/java/com/besmainfo/biprayer/services/QuranService.java:78-85 | a verse is a text match exactly when it is stored and its lower-cased text or theme holds the query |
| Quran.KeywordMatchesIff | app/src/main/java/com/besmainfo/biprayer/services/QuranService.java:91-102 | a verse is a keyword match exactly when it is stored and its lower-cased text holds the keyword |
| Quran.ThemeMatchesIff | app/src/main/java/com/besmainfo/biprayer/services/QuranService.java:72-76 | a verse is a theme match exactly when it is listed under a key that the query contains |
| Quran.ThemeMatchesEmpty | app/src/main/java/com/besmainfo/biprayer/services/QuranService.java:72-78 | no theme match exactly when the query contains no key (the stored lists are non-empty) |
| Quran.StoredTable | app/src/main/java/com/besmainfo/biprayer/services/QuranService.java:17-66 | fourteen verses under six non-empty keys; every listed verse is stored and carries its key as theme |
| Quran.StoredThemesNonEmpty | app/src/main/java/com/besmainfo/biprayer/services/QuranService.java:17-66 | every stored verse's theme begins with a lower-case letter |
| Quran.ThemeSearchFromTable | app/src/main/java/com/besmainfo/biprayer/services/QuranService.java:69-89 | on the stored table, a theme search answer is a stored verse matching the query by key, or by text or theme |
| Quran.VerseOfTheDay | app/src/main/java/com/besmainfo/biprayer/services/QuranService.java:104-107 | the verse of the day is a stored verse |
| Quran.AllVersesCount | app/src/main/java/com/besmainfo/biprayer/services/QuranService.java:17-66 | the store holds fourteen verses |
| Quran.EveryVerseHasADay | app/src/main/java/com/besmainfo/biprayer/services/QuranService.java:104-107 | every stored verse is the verse of some day of the year |
| Quran.Tafsir | app/src/main/java/com/besmainfo/biprayer/services/QuranService.java:114-123 | the stored exegesis for the four known references, the fixed default otherwise |
| Quran.TafsirReferencesStored | app/src/main/java/com/besmainfo/biprayer/services/QuranService.java:114-123 | each reference with an exegesis is a stored verse's reference |
| Quran.Capitalize | app/src/main/java/com/besmainfo/biprayer/services/QuranService.java:158-160 | first character upper-cased and the rest unchanged, same length; a leading "ß" becomes "SS" |
| Quran.CapitalizeIdempotent | app/src/main/java/com/besmainfo/biprayer/services/QuranService.java:158-160 | capitalizing twice is capitalizing once |
| Quran.ToFormattedString | app/src/main/java/com/besmainfo/biprayer/services/QuranService.java:153-156 | the formatted text shows the verse, its reference and its capitalized theme |
| Quran.StoredThemesCapitalized | app/src/main/java/com/besmainfo/biprayer/services/QuranService.java:153-160 | every stored verse is shown with a theme starting with an upper-case letter |
| Quran.QuranService.constructor | app/src/main/java/com/besmainfo/biprayer/services/QuranService.java:12-66 | the puts and addAlls build the stored table and list |
| Quran.QuranService.SearchByTheme | app/src/main/java/com/besmainfo/biprayer/services/QuranService.java:69-89 | the key matches in map order, else the text or theme matches; at most three |
| Quran.QuranService.SearchByKeyword | app/src/main/java/com/besmainfo/biprayer/services/QuranService.java:91-102 | the first five keyword matches in stored order; each is stored and matches |
| Quran.QuranService.GetVerseOfTheDay | app/src/main/java/com/besmainfo/biprayer/services/QuranService.java:104-107 | the stored verse at the day of the year modulo fourteen |
| Gemini.KeyValid | app/src/main/java/com/besmainfo/biprayer/ai/GeminiBasicClient.java:44-67 | a key the client accepts is accepted by ConfigReader.hasValidGeminiKey |
| Gemini.ConfigKeyNotClientKey | app/src/main/java/com/besmainfo/biprayer/ai/GeminiBasicClient.java:44-67 | keys of 21 to 29 UTF-16 code units pass ConfigReader but not the client |
| Gemini.EscapeJson | app/src/main/java/com/besmainfo/biprayer/ai/GeminiBasicClient.java:248-254 | the escaped text has no raw line feed, carriage return or tab |
| Gemini.EscapeJsonAppend | app/src/main/java/com/besmainfo/biprayer/ai/GeminiBasicClient.java:248-254 | escaping works character by character: it distributes over concatenation |
| Gemini.EscapeJsonChar | app/src/main/java/com/besmainfo/biprayer/ai/GeminiBasicClient.java:248-254 | the chain of replacements escapes one character exactly once, backslash first |
| Gemini.UnescapeEscapeChar | app/src/main/java/com/besmainfo/biprayer/ai/GeminiBasicClient.java:248-254 | decoding an escaped character gives it back |
| Gemini.UnescapeEscapeJson | app/src/main/java/com/besmainfo/biprayer/ai/GeminiBasicClient.java:248-254 | decoding the escaped prompt recovers it: escaping loses nothing |
| Gemini.EscapeJsonKeepsOtherControls | app/src/main/java/com/besmainfo/biprayer/ai/GeminiBasicClient.java:248-254 | control characters other than LF, CR and TAB pass through unescaped |
| Gemini.DemoResponse | app/src/main/java/com/besmainfo/biprayer/ai/GeminiBasicClient.java:272-307 | no demo answer, for any prompt or random pick, contains "❌" |
| Gemini.FirstSuccess | app/src/main/java/com/besmainfo/biprayer/ai/GeminiBasicClient.java:151-165 | the index found is a success preceded only by failures; none found means every outcome failed |
| Gemini.FirstSuccessIs | app/src/main/java/com/besmainfo/biprayer/ai/GeminiBasicClient.java:151-165 | a success preceded only by failures is the one found |
| Gemini.FirstSuccessNone | app/src/main/java/com/besmainfo/biprayer/ai/GeminiBasicClient.java:168-169 | when every outcome fails nothing is found |
| Gemini.GeminiBasicClient.constructor | app/src/main/java/com/besmainfo/biprayer/ai/GeminiBasicClient.java:34-39 | the key is stored and no model is cached |
| Gemini.GeminiBasicClient.TestAllModels | app/src/main/java/com/besmainfo/biprayer/ai/GeminiBasicClient.java:72-91 | with a valid key the first model whose probe succeeds is cached, else the cache is kept |
| Gemini.GeminiBasicClient.CallGemini | app/src/main/java/com/besmainfo/biprayer/ai/GeminiBasicClient.java:131-170 | demo answer with an invalid key; the cached model's answer when it succeeds; else the first succeeding model's answer, with that model cached, or the demo answer with nothing cached; and which models were called, in order |
| Gemini.GeminiBasicClient.TryEachModel | app/src/main/java/com/besmainfo/biprayer/ai/GeminiBasicClient.java:151-169 | the first model answering without "❌" is cached and its answer returned; the demo answer when none does |
| Gemini.GeminiBasicClient.TestConnection | app/src/main/java/com/besmainfo/biprayer/ai/GeminiBasicClient.java:309-329 | as written: invalid-key text or the cached model, calling no model; otherwise the first model that answers is cached and reported, and when every model fails (all five called) it still reports "operational" |
| Gemini.GeminiBasicClient.TestConnectionChecked | app/src/main/java/com/besmainfo/biprayer/ai/GeminiBasicClient.java:309-329 | corrected: a report starting with "✅" means a valid key and a working model; every model failing is reported as a failure; a first answering model is cached and reported as before |
| Gemini.GeminiBasicClient.ResetModelSelection | app/src/main/java/com/besmainfo/biprayer/ai/GeminiBasicClient.java:335-338 | the cache is dropped, then refilled by a new probe of the models |
| Opus.IsConfigured | app/src/main/java/com/besmainfo/biprayer/ai/OpusClient.java:234-236 | a key ConfigReader.hasValidOpusKey accepts configures the client |
| Opus.ShortKeyConfiguresOnlyClient | app/src/main/java/com/besmainfo/biprayer/ai/OpusClient.java:234-236 | a non-empty key of at most 10 UTF-16 code units configures the client but fails ConfigReader's check |
| Opus.OpusErrorMessage | app/src/main/java/com/besmainfo/biprayer/ai/OpusClient.java:221-232 | the unknown-error text exactly for codes outside the seven known ones |
| Opus.ErrorMessageRoundTrip | app/src/main/java/com/besmainfo/biprayer/ai/OpusClient.java:221-232 | each known code has its own text, and each known text describes exactly its code |
| Opus.Dispatch | app/src/main/java/com/besmainfo/biprayer/ai/OpusClient.java:82-121 | 200 synthesized with the body read, 401 unauthorized, 400 bad request; any other status an API error with its code and detail iff the connection has an error stream, otherwise (no error stream, as for 202) or on an exception a connection error carrying the exception's message ("null" for the missing stream); each iff |
| Opus.AcceptedIsConnectionError | app/src/main/java/com/besmainfo/biprayer/ai/OpusClient.java:102-121 | a 202 reply, which has no error stream, is reported as a connection error and not as an API error |
| Opus.SynthesizeSpeech | app/src/main/java/com/besmainfo/biprayer/ai/OpusClient.java:28-127 | not configured first, then missing or blank text, only then the request is sent and its reply dispatched (so a status without an error stream ends in the connection error); an API error never carries the 400 or 401 text |
| Opus.GuardsSendNothing | app/src/main/java/com/besmainfo/biprayer/ai/OpusClient.java:29-36 | when a guard answers, the reply cannot change the result |
| Opus.RecommendedVoice | app/src/main/java/com/besmainfo/biprayer/ai/OpusClient.java:241-250 | one of the five voices; the English voice for any other language |
| Opus.RecommendedVoiceIgnoresCase | app/src/main/java/com/besmainfo/biprayer/ai/OpusClient.java:241-250 | the voice does not depend on the language's letter case |
| Opus.RecommendedVoiceAgrees | app/src/main/java/com/besmainfo/biprayer/ai/OpusClient.java:241-250 | on fr, en and ar the client picks LanguageHelper's voice |
| Opus.SynthesizeSpeechDefault | app/src/main/java/com/besmainfo/biprayer/ai/OpusClient.java:132-134 | the one-argument overload is synthesis in English with the English voice |
| Knowledge.FallbackVerses | app/src/main/java/com/besmainfo/biprayer/ai/QuranKnowledgeService.java:62-82 | never empty, every passage marked "📖 "; prayer words first, then patience, then guidance, else the defaults |
| Knowledge.BookPrefix | app/src/main/java/com/besmainfo/biprayer/ai/QuranKnowledgeService.java:66-79 | each fallback passage begins with the book mark |
| Knowledge.ConfidentTexts | app/src/main/java/com/besmainfo/biprayer/ai/QuranKnowledgeService.java:48-52 | the filter never yields more passages than results |
| Knowledge.ConfidentTextsIff | app/src/main/java/com/besmainfo/biprayer/ai/QuranKnowledgeService.java:48-52 | a passage is kept exactly when some result scoring above 0.3f carries it |
| Knowledge.ConfidentTextsEmpty | app/src/main/java/com/besmainfo/biprayer/ai/QuranKnowledgeService.java:48-52 | nothing is kept exactly when no result scores above 0.3f |
| Knowledge.WisdomAnswerEmpty | app/src/main/java/com/besmainfo/biprayer/ai/QuranKnowledgeService.java:31-60 | the answer is empty exactly when a trusted search (first score at least 0.1f) has no score above 0.3f |
| Knowledge.WisdomAnswerMarked | app/src/main/java/com/besmainfo/biprayer/ai/QuranKnowledgeService.java:31-60 | every passage of the answer begins with the book mark |
| Knowledge.QuranKnowledgeService.constructor | app/src/main/java/com/besmainfo/biprayer/ai/QuranKnowledgeService.java:11-14 | a new service is not initialized |
| Knowledge.QuranKnowledgeService.InitializeKnowledgeBase | app/src/main/java/com/besmainfo/biprayer/ai/QuranKnowledgeService.java:16-29 | on a configured client, initialized once createCollection returns, whatever it reports, unless the block throws; ready exactly when configured and initialized |
| Knowledge.QuranKnowledgeService.IsReady | app/src/main/java/com/besmainfo/biprayer/ai/QuranKnowledgeService.java:117-119 | never ready without a configured Qdrant client, nor before initialization succeeded |
| Knowledge.QuranKnowledgeService.SearchQuranWisdom | app/src/main/java/com/besmainfo/biprayer/ai/QuranKnowledgeService.java:31-60 | the filter loop computes the specified answer: fallback passages, or the marked confident results in order |
| Config.Setting | app/src/main/java/com/besmainfo/biprayer/utils/ConfigReader.java:87-129 | a getter's value is trimmed: empty before loading, the trimmed stored value when the name is present, the trimmed default when it is missing |
| Config.ValidGeminiKey | app/src/main/java/com/besmainfo/biprayer/utils/ConfigReader.java:131-143 | a key starting with the "your_actual_" placeholder is refused; an accepted key has at least 21 UTF-16 code units |
| Config.ValidServiceKey | app/src/main/java/com/besmainfo/biprayer/utils/ConfigReader.java:145-169 | a key starting with the "your_actual_" placeholder is refused; an accepted key has at least 11 UTF-16 code units |
| Config.SupplementaryKeyLength | app/src/main/java/com/besmainfo/biprayer/utils/ConfigReader.java:145-156 | key lengths are UTF-16 lengths, as `length()` counts them: a key of six characters outside the Basic Multilingual Plane is long enough for hasValidOpusKey |
| Config.GeminiKeyIsServiceKey | app/src/main/java/com/besmainfo/biprayer/utils/ConfigReader.java:131-156 | a valid Gemini key is also valid for Opus |
| Config.ConfigReader.constructor | app/src/main/java/com/besmainfo/biprayer/utils/ConfigReader.java:11-12 | no properties and not initialized at class load |
| Config.ConfigReader.Initialize | app/src/main/java/com/besmainfo/biprayer/utils/ConfigReader.java:14-54 | runs once; properties are those loaded when keys.properties is listed and loads, else empty; always initialized after |
| Config.ConfigReader.GeminiApiKey | app/src/main/java/com/besmainfo/biprayer/utils/ConfigReader.java:87-99 | "" before loading; otherwise the trimmed GEMINI_API_KEY, "" when it is missing |
| Config.ConfigReader.QdrantApiKey | app/src/main/java/com/besmainfo/biprayer/utils/ConfigReader.java:101-109 | "" before loading; otherwise the trimmed QDRANT_API_KEY, "" when it is missing |
| Config.ConfigReader.OpusApiKey | app/src/main/java/com/besmainfo/biprayer/utils/ConfigReader.java:111-119 | "" before loading; otherwise the trimmed OPUS_API_KEY, "" when it is missing |
| Config.ConfigReader.QdrantBaseUrl | app/src/main/java/com/besmainfo/biprayer/utils/ConfigReader.java:121-129 | "" before loading; otherwise the trimmed QDRANT_BASE_URL, the Qdrant cloud URL when it is missing |
| Config.ConfigReader.NoValidKeyWithoutProperties | app/src/main/java/com/besmainfo/biprayer/utils/ConfigReader.java:131-169 | before loading, no key is valid |
| Config.ConfigReader.ApiStatusSummary | app/src/main/java/com/besmainfo/biprayer/utils/ConfigReader.java:208-227 | the summary ends with "all configured" exactly when all three keys are valid |
| Language.SystemLanguage | app/src/main/java/com/besmainfo/biprayer/utils/LanguageHelper.java:35-60 | always a supported language: the locale's when supported, English otherwise or on error |
| Language.CurrentLanguage | app/src/main/java/com/besmainfo/biprayer/utils/LanguageHelper.java:135-155 | the system language under auto-detect (on by default), else the saved one, the system language when none is saved |
| Language.HasLanguageChanged | app/src/main/java/com/besmainfo/biprayer/utils/LanguageHelper.java:244-258 | the current and target languages follow the same rule, so it always answers no |
| Language.CurrentLanguageAfterSet | app/src/main/java/com/besmainfo/biprayer/utils/LanguageHelper.java:62-95 | after setAppLanguage the current language is the system one under auto-detect, else the code set |
| Language.CurrentLanguageAfterReset | app/src/main/java/com/besmainfo/biprayer/utils/LanguageHelper.java:336-354 | after a reset, whichever way the commit went, the current language is the system one |
| Language.LanguageName | app/src/main/java/com/besmainfo/biprayer/utils/LanguageHelper.java:260-267 | the locale's display name for every unsupported code |
| Language.SupportedLanguageName | app/src/main/java/com/besmainfo/biprayer/utils/LanguageHelper.java:318-325 | "Unknown" exactly for unsupported codes |
| Language.LanguageNamesAgree | app/src/main/java/com/besmainfo/biprayer/utils/LanguageHelper.java:260-325 | the two name tables agree on the supported codes |
| Language.OpusVoiceForLanguage | app/src/main/java/com/besmainfo/biprayer/utils/LanguageHelper.java:279-286 | one of three voices; English for every other code |
| Language.OpusVoicesDistinct | app/src/main/java/com/besmainfo/biprayer/utils/LanguageHelper.java:279-286 | the three supported languages have distinct voices |
| Language.IsRTL | app/src/main/java/com/besmainfo/biprayer/utils/LanguageHelper.java:288-290 | only a supported language is right-to-left |
| Language.RightToLeftIsArabic | app/src/main/java/com/besmainfo/biprayer/utils/LanguageHelper.java:288-290 | right-to-left exactly for the code named "العربية" |
| Language.IsLanguageSupported | app/src/main/java/com/besmainfo/biprayer/utils/LanguageHelper.java:327-334 | the scan answers yes exactly for fr, en and ar, which is where the name table knows the code |
| Language.SetAppLanguage | app/src/main/java/com/besmainfo/biprayer/utils/LanguageHelper.java:62-71 | both preferences are stored |
| Language.ResetToSystemLanguage | app/src/main/java/com/besmainfo/biprayer/utils/LanguageHelper.java:336-354 | the saved language is removed and auto-detect turned on; after a successful commit the system language is stored |
| Language.ApplySavedLanguage | app/src/main/java/com/besmainfo/biprayer/utils/LanguageHelper.java:157-183 | stores back the reported language and flag; the current language does not change |
| Language.CheckAndApplyLanguageChange | app/src/main/java/com/besmainfo/biprayer/utils/LanguageHelper.java:222-239 | the activity is never restarted |
| Settings.LanguagePosition | app/src/main/java/com/besmainfo/biprayer/activities/SettingsActivity.java:306-313 | a position from 0 to 2; 0 for an unsupported code |
| Settings.SelectedLanguage | app/src/main/java/com/besmainfo/biprayer/activities/SettingsActivity.java:315-323 | always a supported language; fr for a position out of range |
| Settings.LanguageRoundTrip | app/src/main/java/com/besmainfo/biprayer/activities/SettingsActivity.java:306-323 | every supported language survives the spinner and back |
| Settings.PositionRoundTrip | app/src/main/java/com/besmainfo/biprayer/activities/SettingsActivity.java:306-323 | every spinner position survives the language and back |
| Settings.RadioFor | app/src/main/java/com/besmainfo/biprayer/activities/SettingsActivity.java:325-336 | MWL for an unknown method name |
| Settings.SelectedMethod | app/src/main/java/com/besmainfo/biprayer/activities/SettingsActivity.java:338-347 | always one of the four names; MWL when no radio is checked |
| Settings.MethodRoundTrip | app/src/main/java/com/besmainfo/biprayer/activities/SettingsActivity.java:325-347 | method names and radios round-trip through each other |
| Settings.LoadedView | app/src/main/java/com/besmainfo/biprayer/activities/SettingsActivity.java:104-137 | the spinner is enabled exactly without auto-detect; coordinates are shown exactly when both are non-zero |
| Settings.SavedEntries | app/src/main/java/com/besmainfo/biprayer/activities/SettingsActivity.java:211-259 | each saved entry reads back as the form's value |
| Settings.SaveThenLoad | app/src/main/java/com/besmainfo/biprayer/activities/SettingsActivity.java:104-259 | saving then loading shows what was saved: flag, position, switches, method and non-zero coordinates |
| Settings.SavedLanguageIgnoresGuard | app/src/main/java/com/besmainfo/biprayer/activities/SettingsActivity.java:219-225 | the spinner's language is stored even under auto-detect |
| Settings.CoordinatesKeptUnlessBothParse | app/src/main/java/com/besmainfo/biprayer/activities/SettingsActivity.java:236-243 | a coordinate that does not parse leaves both stored coordinates unchanged |
| Settings.SaveSettings | app/src/main/java/com/besmainfo/biprayer/activities/SettingsActivity.java:211-259 | the preference file after saving holds the specified entries |

## Left out

- Floating point: the two schedule corrections, `(int)(sin(lat)·30)` and `(int)(sin(day/58.09)·20)`, are inputs bounded by what truncation allows.
- Floating point: the great-circle Qibla bearing, the compass azimuth arithmetic, `getRotationMatrix`'s success and the "%.2f, %.2f" coordinates text are inputs; the displayed rotation is the pair of buffers it was computed from.
- Floating point: saved coordinates are the parsed reals, not narrowed to `float`.
- Clock: the time of day and the day of the year are parameters; getNextPrayer and getTimeUntilNextPrayer each read the clock, the model reads it once for both.
- Randomness: `getRandomVerse` (`Random.nextInt`) is not modelled; the demo answer's `Math.random` choice is the parameter `pick`.
- Randomness: `generateEmbeddingFromQuery` (random vectors) and `addSampleQuranData` (which only computes embeddings and catches its own exceptions) are not modelled; the boolean that `createCollection` returns is ignored by the source and is not modelled either. Knowledge.QuranKnowledgeService.InitializeKnowledgeBase keeps a parameter for the try block throwing; with the shipped QdrantClient, which catches every exception and reports failure by returning false, that outcome does not arise, so a configured service is always marked initialized, even when no collection was created.
- Network: the HTTP and JSON work of `callWithModel`, `testModel`, `extractTextFromResponse`, `parseOpusResponse` and the Opus `testConnection` is not modelled; its outcomes are inputs.
- Opus `getCurrentMode` returns a resource string and is not modelled.
- Opus.Dispatch: the error body read from the error stream is only logged, so the model keeps just whether the stream exists; the exception for a missing stream is taken to have no message (the `Reader` constructor throws a bare NullPointerException), so the text appended is "null".
- Threads: `testAllModels` (executor) and `initializeKnowledgeBase` (thread) are modelled as running to completion; their races with other calls are not modelled.
- Android: resource strings are message kinds (`SpeechResult`) or the defaults written in the code; locale and configuration updates, activity restarts, Toasts and view texts are not modelled.
- Android: a missing `SensorManager` (no sensors at all) is not modelled.
- Preferences: the file holds one map per type, so a type mismatch (`ClassCastException`) and the catch branches of the LanguageHelper getters cannot arise.
- Text: `toLowerCase`/`toUpperCase` cover ASCII and Latin-1 letters only (including 'ÿ' to 'Ÿ', 'µ' to 'Μ' and 'ß' to "SS"); letters of other scripts are left as they are.
- Digits: PrayerTimes.FormatClock, PrayerTimes.Clock, PrayerTimes.ParseClock and PrayerTimes.ClockOrder use ASCII digits, while the source formats and parses with `Locale.getDefault()`; under the Arabic default locale that LanguageHelper can set, Android may write Arabic-Indic digits instead.
- Gemini.GeminiBasicClient.CallGemini: each model answers a given prompt the same way within one call, so a cached model that failed and is tried again by the fallback loop fails again, where a real retry could succeed.
- `getDatabaseStats` and `QuranVerse.toString` are fixed texts and are not modelled.
- The iteration order of QuranService's `HashMap` is a parameter of `SearchByTheme`: any order of the six keys.
- `calculationMethod` in PrayerTimesService is never read and is not modelled.
- PrayerTimes.CalculatePrayerTime: requires a non-negative total, which every schedule meets; Java's text for a negative total is not modelled.
- PrayerTimes.ParseClock: accepts exactly two-digit fields, where `SimpleDateFormat` is lenient.
- Quran.Capitalize: requires a non-empty text; the exception the source throws on an empty theme is not modelled (no stored verse has one).
- QdrantClient, QuranAIService, GeminiMultimodalClient and the other activities are not part of this model.

## Findings

| source | as written | input that shows it | evidently intended | confidence | as-written member | corrected member |
|---|---|---|---|---|---|---|
| app/src/main/java/com/besmainfo/biprayer/ai/GeminiBasicClient.java:309-329 | testConnection reports failure only when callGemini's answer holds "❌", but callGemini falls back to a demo answer that never does | a valid key, no cached model, and every model answering with "❌" (for example, all five return HTTP 404) | report the connection as failed when no model answered | not executed | Gemini.GeminiBasicClient.TestConnection | Gemini.GeminiBasicClient.TestConnectionChecked |
