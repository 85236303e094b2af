/**
 * QuranService: a fixed table of fourteen verses under six theme keys, the
 * theme and keyword searches over it, the verse of the day and the tafsir
 * lookup.
 *
 * The iteration order of the theme HashMap is not specified by Java; it
 * enters searchByTheme as a parameter, any order of the six keys.
 */
module Quran {
  import opened Text

  datatype QuranVerse = QuranVerse(reference: string, verse: string, theme: string)

  const PatienceVerses: seq<QuranVerse> := [
    QuranVerse("2:153", "«Ô croyants! Cherchez secours dans la patience et la prière...»", "patience"),
    QuranVerse("2:155", "«Et Nous les éprouverons par la crainte, la faim...»", "patience"),
    QuranVerse("16:127", "«Et sois patient, car ta patience vient d'Allah...»", "patience")]

  const GratitudeVerses: seq<QuranVerse> := [
    QuranVerse("14:7", "«Et si vous êtes reconnaissants, très certainement J'augmenterai...»", "gratitude"),
    QuranVerse("93:11", "«Et quant aux bienfaits de ton Seigneur, proclame-les»", "gratitude")]

  const HopeVerses: seq<QuranVerse> := [
    QuranVerse("39:53", "«Ne désespérez pas de la miséricorde d'Allah...»", "espoir"),
    QuranVerse("2:286", "«Allah n'impose à aucune âme une charge supérieure à sa capacité...»", "espoir")]

  const PrayerVerses: seq<QuranVerse> := [
    QuranVerse("29:45", "«Récite ce qui t'est révélé du Livre et accomplis la prière...»", "priere"),
    QuranVerse("20:14", "«Et accomplis la prière pour te souvenir de Moi.»", "priere"),
    QuranVerse("2:238", "«Soyez assidus aux prières...»", "priere")]

  const WisdomVerses: seq<QuranVerse> := [
    QuranVerse("58:11", "«Allah élèvera en degrés ceux d'entre vous qui auront cru...»", "sagesse"),
    QuranVerse("20:114", "«Et dis: Seigneur, accroît ma science!»", "sagesse")]

  const ForgivenessVerses: seq<QuranVerse> := [
    QuranVerse("39:53", "«Dis: Ô Mes serviteurs qui avez commis des excès...»", "pardon"),
    QuranVerse("42:30", "«Et quiconque se repent et accomplit de bonnes œuvres...»", "pardon")]

  /** allVerses after initializeQuranDatabase: the six lists, in insertion order. */
  const AllVerses: seq<QuranVerse> :=
    PatienceVerses + GratitudeVerses + HopeVerses + PrayerVerses + WisdomVerses + ForgivenessVerses

  /** thematicVerses after initializeQuranDatabase. */
  const ThemeTable: map<string, seq<QuranVerse>> := map[
    "patience" := PatienceVerses, "gratitude" := GratitudeVerses, "espoir" := HopeVerses,
    "priere" := PrayerVerses, "sagesse" := WisdomVerses, "pardon" := ForgivenessVerses]

  /** The first n elements, or all of them when there are fewer: subList(0, min(n, size)). */
  function Prefix<T>(s: seq<T>, n: nat): (r: seq<T>)
    ensures |r| <= n && |r| <= |s|
    ensures |r| == n || r == s
    ensures forall i :: 0 <= i < |r| ==> r[i] == s[i]
  {
    if |s| <= n then s else s[..n]
  }

  /** A HashMap's entry-set iteration: every key exactly once, in some order. */
  ghost predicate IsKeyOrder(keys: seq<string>, table: map<string, seq<QuranVerse>>)
  {
    (forall k :: k in keys <==> k in table) &&
    (forall i, j :: 0 <= i < j < |keys| ==> keys[i] != keys[j])
  }

  /** The lists of the keys, in the given order, that occur in `lowerTheme`. */
  function ThemeMatches(lowerTheme: string, table: map<string, seq<QuranVerse>>, keys: seq<string>): seq<QuranVerse>
    requires forall k :: k in keys ==> k in table
  {
    if keys == [] then []
    else
      var last := keys[|keys| - 1];
      ThemeMatches(lowerTheme, table, keys[..|keys| - 1]) + (if Contains(lowerTheme, last) then table[last] else [])
  }

  /** The fallback test of searchByTheme: the lower-cased text or theme holds the query. */
  predicate TextOrThemeMatch(v: QuranVerse, lowerTheme: string)
  {
    Contains(ToLower(v.verse), lowerTheme) || Contains(ToLower(v.theme), lowerTheme)
  }

  /** The fallback scan: the verses passing TextOrThemeMatch, in order. */
  function TextMatches(lowerTheme: string, verses: seq<QuranVerse>): seq<QuranVerse>
  {
    if verses == [] then []
    else
      var last := verses[|verses| - 1];
      TextMatches(lowerTheme, verses[..|verses| - 1]) + (if TextOrThemeMatch(last, lowerTheme) then [last] else [])
  }

  /** The test of searchByKeyword: the lower-cased text holds the lower-cased keyword. */
  predicate KeywordMatch(v: QuranVerse, lowerKeyword: string)
  {
    Contains(ToLower(v.verse), lowerKeyword)
  }

  /** The keyword scan: the verses passing KeywordMatch, in order. */
  function KeywordMatches(lowerKeyword: string, verses: seq<QuranVerse>): seq<QuranVerse>
  {
    if verses == [] then []
    else
      var last := verses[|verses| - 1];
      KeywordMatches(lowerKeyword, verses[..|verses| - 1]) + (if KeywordMatch(last, lowerKeyword) then [last] else [])
  }

  /** All results of searchByTheme before truncation. */
  function ThemeSearchResults(lowerTheme: string, table: map<string, seq<QuranVerse>>, keys: seq<string>,
                              verses: seq<QuranVerse>): seq<QuranVerse>
    requires forall k :: k in keys ==> k in table
  {
    var keyed := ThemeMatches(lowerTheme, table, keys);
    if keyed != [] then keyed else TextMatches(lowerTheme, verses)
  }

  // ---------------------------------------------------------------------
  // Properties of the scans
  // ---------------------------------------------------------------------

  /** A verse is found by the fallback scan exactly when it is stored and matches. */
  lemma {:induction false} TextMatchesIff(lowerTheme: string, verses: seq<QuranVerse>, v: QuranVerse)
    ensures v in TextMatches(lowerTheme, verses) <==> v in verses && TextOrThemeMatch(v, lowerTheme)
    decreases |verses|
  {
    if verses != [] {
      var init := verses[..|verses| - 1];
      TextMatchesIff(lowerTheme, init, v);
      assert verses == init + [verses[|verses| - 1]];
    }
  }

  /** A verse is found by the keyword scan exactly when it is stored and matches. */
  lemma {:induction false} KeywordMatchesIff(lowerKeyword: string, verses: seq<QuranVerse>, v: QuranVerse)
    ensures v in KeywordMatches(lowerKeyword, verses) <==> v in verses && KeywordMatch(v, lowerKeyword)
    decreases |verses|
  {
    if verses != [] {
      var init := verses[..|verses| - 1];
      KeywordMatchesIff(lowerKeyword, init, v);
      assert verses == init + [verses[|verses| - 1]];
    }
  }

  /**
   * A verse is drawn by the keyed pass exactly when it is in the list of a
   * key that occurs in the query.
   */
  lemma {:induction false} ThemeMatchesIff(lowerTheme: string, table: map<string, seq<QuranVerse>>,
                                           keys: seq<string>, v: QuranVerse)
    requires forall k :: k in keys ==> k in table
    ensures v in ThemeMatches(lowerTheme, table, keys) <==>
      exists k :: k in keys && Contains(lowerTheme, k) && v in table[k]
    decreases |keys|
  {
    if keys != [] {
      var init, last := keys[..|keys| - 1], keys[|keys| - 1];
      ThemeMatchesIff(lowerTheme, table, init, v);
      assert keys == init + [last];
      if v in ThemeMatches(lowerTheme, table, keys) && v !in ThemeMatches(lowerTheme, table, init) {
        assert last in keys && Contains(lowerTheme, last) && v in table[last];
      }
    }
  }

  /**
   * With non-empty lists, the keyed pass finds nothing exactly when no key
   * occurs in the query: the fallback scan runs only then.
   */
  lemma {:induction false} ThemeMatchesEmpty(lowerTheme: string, table: map<string, seq<QuranVerse>>, keys: seq<string>)
    requires forall k :: k in keys ==> k in table && table[k] != []
    ensures ThemeMatches(lowerTheme, table, keys) == [] <==> forall k :: k in keys ==> !Contains(lowerTheme, k)
    decreases |keys|
  {
    if keys != [] {
      var init, last := keys[..|keys| - 1], keys[|keys| - 1];
      ThemeMatchesEmpty(lowerTheme, table, init);
      assert keys == init + [last];
      assert forall k :: k in keys <==> k in init || k == last;
      var tail := if Contains(lowerTheme, last) then table[last] else [];
      assert ThemeMatches(lowerTheme, table, keys) == ThemeMatches(lowerTheme, table, init) + tail;
      assert tail == [] <==> !Contains(lowerTheme, last);
    }
  }

  // ---------------------------------------------------------------------
  // Properties of the stored table
  // ---------------------------------------------------------------------

  /** Fourteen verses under the six theme keys, each list non-empty and stored in allVerses. */
  lemma StoredTable()
    ensures |AllVerses| == 14
    ensures ThemeTable.Keys == {"patience", "gratitude", "espoir", "priere", "sagesse", "pardon"}
    ensures forall k :: k in ThemeTable ==> ThemeTable[k] != []
    ensures forall k, v :: k in ThemeTable && v in ThemeTable[k] ==> v in AllVerses && v.theme == k
  {
    assert AllVerses == PatienceVerses + (GratitudeVerses + (HopeVerses + (PrayerVerses + (WisdomVerses + ForgivenessVerses))));
  }

  /**
   * Every stored verse has a theme starting with a lower-case letter, so
   * capitalize never fails on one and shows it with a capital.
   */
  lemma StoredThemesNonEmpty()
    ensures forall v :: v in AllVerses ==> |v.theme| > 0 && 'a' <= v.theme[0] <= 'z'
  {
    ThemedList(PatienceVerses, "patience");
    ThemedList(GratitudeVerses, "gratitude");
    ThemedList(HopeVerses, "espoir");
    ThemedList(PrayerVerses, "priere");
    ThemedList(WisdomVerses, "sagesse");
    ThemedList(ForgivenessVerses, "pardon");
    forall v | v in AllVerses
      ensures |v.theme| > 0 && 'a' <= v.theme[0] <= 'z'
    {
      assert v in PatienceVerses || v in GratitudeVerses || v in HopeVerses ||
             v in PrayerVerses || v in WisdomVerses || v in ForgivenessVerses;
    }
  }

  /** Every verse of a list whose entries all carry one lower-case theme carries it. */
  lemma ThemedList(verses: seq<QuranVerse>, theme: string)
    requires |theme| > 0 && 'a' <= theme[0] <= 'z'
    requires forall i :: 0 <= i < |verses| ==> verses[i].theme == theme
    ensures forall v :: v in verses ==> |v.theme| > 0 && 'a' <= v.theme[0] <= 'z'
  {
  }


  /**
   * Nothing is fabricated: on the stored table, every result of the theme
   * search is a stored verse, drawn from the lists of the keys that occur
   * in the query whenever one does.
   */
  lemma ThemeSearchFromTable(lowerTheme: string, keys: seq<string>, v: QuranVerse)
    requires IsKeyOrder(keys, ThemeTable)
    requires v in ThemeSearchResults(lowerTheme, ThemeTable, keys, AllVerses)
    ensures v in AllVerses
    ensures (exists k :: k in ThemeTable && Contains(lowerTheme, k)) ==>
      exists k :: k in keys && Contains(lowerTheme, k) && v in ThemeTable[k]
    ensures (forall k :: k in ThemeTable ==> !Contains(lowerTheme, k)) ==> TextOrThemeMatch(v, lowerTheme)
  {
    StoredTable();
    ThemeMatchesEmpty(lowerTheme, ThemeTable, keys);
    ThemeMatchesIff(lowerTheme, ThemeTable, keys, v);
    if ThemeMatches(lowerTheme, ThemeTable, keys) == [] {
      TextMatchesIff(lowerTheme, AllVerses, v);
    }
  }

  /** The verse of the day is the stored verse at dayOfYear modulo fourteen. */
  function VerseOfTheDay(verses: seq<QuranVerse>, dayOfYear: nat): (v: QuranVerse)
    requires |verses| > 0
    ensures v in verses
    ensures v == verses[dayOfYear % |verses|]
  {
    verses[dayOfYear % |verses|]
  }

  /** The stored list holds fourteen verses. */
  lemma AllVersesCount()
    ensures |AllVerses| == 14
  {
  }

  /**
   * Every verse of a list of at most 366 is the verse of some day of the
   * year, so over a year getVerseOfTheDay shows each stored verse.
   */
  lemma EveryVerseHasADay(verses: seq<QuranVerse>, v: QuranVerse)
    requires 0 < |verses| <= 366 && v in verses
    ensures exists day :: 1 <= day <= 366 && VerseOfTheDay(verses, day) == v
  {
    var n := |verses|;
    var i :| 0 <= i < n && verses[i] == v;
    var day := DayShowing(i, n);
    assert VerseOfTheDay(verses, day) == verses[i];
  }

  /** A day of the year on which index i of a list of n verses is shown. */
  lemma DayShowing(i: nat, n: nat) returns (day: nat)
    requires i < n <= 366
    ensures 1 <= day <= 366 && day % n == i
  {
    if i == 0 {
      day := n;
    } else {
      day := i;
    }
  }

  // ---------------------------------------------------------------------
  // Tafsir and formatting
  // ---------------------------------------------------------------------

  const TafsirTable: map<string, string> := map[
    "2:153" := "🔍 **Exégèse (Ibn Kathir):**\nLa patience dans les épreuves et la prière sont les clés du succès ici-bas et dans l'au-delà. La patience nous aide à supporter les difficultés, tandis que la prière nous connecte à Allah.",
    "29:45" := "🔍 **Exégèse (At-Tabari):**\nLa prière préserve des péchés et élève spirituellement le croyant. Elle est une protection contre les turpitudes et un moyen de se rapprocher d'Allah.",
    "39:53" := "🔍 **Exégèse (Al-Qurtubi):**\nCe verset apporte un immense espoir aux croyants. Il nous enseigne que la miséricorde d'Allah est infinie et qu'Il accepte le repentir de Ses serviteurs.",
    "20:114" := "🔍 **Exégèse (Ibn Ashur):**\nLa recherche de la connaissance est une obligation en Islam. Ce verset encourage les croyants à constamment augmenter leur savoir et leur compréhension."]

  const DefaultTafsir: string := "💫 **Signification:** Ce verset nous enseigne l'importance de la connexion spirituelle et de la persévérance dans la foi. Méditez sur ses enseignements pour enrichir votre spiritualité."

  /** getTafsir: the stored exegesis of the reference, or the fixed default. */
  function Tafsir(verseReference: string): (r: string)
    ensures verseReference in TafsirTable ==> r == TafsirTable[verseReference]
    ensures verseReference !in TafsirTable ==> r == DefaultTafsir
  {
    if verseReference in TafsirTable then TafsirTable[verseReference] else DefaultTafsir
  }

  /** The four references with a stored exegesis are references of stored verses. */
  lemma TafsirReferencesStored()
    ensures forall r :: r in TafsirTable ==> exists v :: v in AllVerses && v.reference == r
  {
    assert AllVerses[0].reference == "2:153" && AllVerses[5].reference == "39:53";
    assert AllVerses[7].reference == "29:45" && AllVerses[11].reference == "20:114";
  }

  /** capitalize: the first character upper-cased, the rest kept. */
  function Capitalize(text: string): (r: string)
    requires |text| > 0
    ensures text[0] != 'ß' ==> |r| == |text| && r[0] == UpperChar(text[0]) && r[1..] == text[1..]
    ensures text[0] == 'ß' ==> r == "SS" + text[1..]
  {
    ToUpper(text[..1]) + text[1..]
  }

  /** toFormattedString: the verse, its reference and its capitalized theme. */
  function ToFormattedString(v: QuranVerse): (r: string)
    requires |v.theme| > 0
    ensures Contains(r, v.verse)
    ensures Contains(r, v.reference)
    ensures Contains(r, Capitalize(v.theme))
  {
    var head := "📖 **";
    var mid := "**\n\n📍 **Référence:** ";
    var tail := "\n🏷️ **Thème:** ";
    var theme := Capitalize(v.theme);
    ContainsMiddle(head, v.verse, mid + v.reference + tail + theme + "\n");
    assert head + v.verse + (mid + v.reference + tail + theme + "\n") == head + v.verse + mid + v.reference + tail + theme + "\n";
    ContainsMiddle(head + v.verse + mid, v.reference, tail + theme + "\n");
    assert head + v.verse + mid + v.reference + (tail + theme + "\n") == head + v.verse + mid + v.reference + tail + theme + "\n";
    ContainsMiddle(head + v.verse + mid + v.reference + tail, theme, "\n");
    head + v.verse + mid + v.reference + tail + theme + "\n"
  }

  /** Capitalizing twice is capitalizing once. */
  lemma CapitalizeIdempotent(text: string)
    requires |text| > 0
    ensures Capitalize(Capitalize(text)) == Capitalize(text)
  {
    UpperCharIdempotent(text[0]);
  }

  /** Every stored verse is shown with its theme capitalized to an upper-case letter. */
  lemma StoredThemesCapitalized(v: QuranVerse)
    requires v in AllVerses
    ensures |v.theme| > 0 && 'A' <= Capitalize(v.theme)[0] <= 'Z'
  {
    StoredThemesNonEmpty();
  }

  // ---------------------------------------------------------------------
  // The service object
  // ---------------------------------------------------------------------

  class QuranService {
    const thematicVerses: map<string, seq<QuranVerse>>
    const allVerses: seq<QuranVerse>

    /** initializeQuranDatabase: one put and one addAll per theme, in order. */
    constructor ()
      ensures allVerses == AllVerses && thematicVerses == ThemeTable
    {
      var themes: map<string, seq<QuranVerse>> := map[];
      var verses: seq<QuranVerse> := [];
      themes := themes["patience" := PatienceVerses];
      verses := verses + PatienceVerses;
      themes := themes["gratitude" := GratitudeVerses];
      verses := verses + GratitudeVerses;
      themes := themes["espoir" := HopeVerses];
      verses := verses + HopeVerses;
      themes := themes["priere" := PrayerVerses];
      verses := verses + PrayerVerses;
      themes := themes["sagesse" := WisdomVerses];
      verses := verses + WisdomVerses;
      themes := themes["pardon" := ForgivenessVerses];
      verses := verses + ForgivenessVerses;
      thematicVerses := themes;
      allVerses := verses;
    }

    /**
     * searchByTheme: the lists of every key occurring in the lower-cased
     * query, in the map's iteration order; when there are none, the verses
     * whose lower-cased text or theme holds the query; at most three.
     */
    method SearchByTheme(theme: string, keyOrder: seq<string>) returns (r: seq<QuranVerse>)
      requires IsKeyOrder(keyOrder, thematicVerses)
      ensures r == Prefix(ThemeSearchResults(ToLower(theme), thematicVerses, keyOrder, allVerses), 3)
      ensures |r| <= 3
    {
      var lowerTheme := ToLower(theme);
      var results: seq<QuranVerse> := [];
      var i := 0;
      while i < |keyOrder|
        invariant 0 <= i <= |keyOrder|
        invariant results == ThemeMatches(lowerTheme, thematicVerses, keyOrder[..i])
      {
        assert keyOrder[..i + 1][..i] == keyOrder[..i];
        if Contains(lowerTheme, keyOrder[i]) {
          results := results + thematicVerses[keyOrder[i]];
        }
        i := i + 1;
      }
      assert keyOrder[..i] == keyOrder;
      if results == [] {
        var j := 0;
        while j < |allVerses|
          invariant 0 <= j <= |allVerses|
          invariant results == TextMatches(lowerTheme, allVerses[..j])
        {
          assert allVerses[..j + 1][..j] == allVerses[..j];
          var verse := allVerses[j];
          if Contains(ToLower(verse.verse), lowerTheme) || Contains(ToLower(verse.theme), lowerTheme) {
            results := results + [verse];
          }
          j := j + 1;
        }
        assert allVerses[..j] == allVerses;
      }
      r := Prefix(results, 3);
    }

    /**
     * searchByKeyword: the verses whose lower-cased text holds the
     * lower-cased keyword, in stored order; at most five.
     */
    method SearchByKeyword(keyword: string) returns (r: seq<QuranVerse>)
      ensures r == Prefix(KeywordMatches(ToLower(keyword), allVerses), 5)
      ensures |r| <= 5
      ensures forall v :: v in r ==> v in allVerses && KeywordMatch(v, ToLower(keyword))
    {
      var results: seq<QuranVerse> := [];
      var lowerKeyword := ToLower(keyword);
      var j := 0;
      while j < |allVerses|
        invariant 0 <= j <= |allVerses|
        invariant results == KeywordMatches(lowerKeyword, allVerses[..j])
      {
        assert allVerses[..j + 1][..j] == allVerses[..j];
        if Contains(ToLower(allVerses[j].verse), lowerKeyword) {
          results := results + [allVerses[j]];
        }
        j := j + 1;
      }
      assert allVerses[..j] == allVerses;
      r := Prefix(results, 5);
      forall v | v in r ensures v in allVerses && KeywordMatch(v, lowerKeyword) {
        KeywordMatchesIff(lowerKeyword, allVerses, v);
      }
    }

    /** getVerseOfTheDay for the given day of the year. */
    method GetVerseOfTheDay(dayOfYear: nat) returns (v: QuranVerse)
      requires allVerses == AllVerses
      ensures v == AllVerses[dayOfYear % 14]
    {
      AllVersesCount();
      v := VerseOfTheDay(allVerses, dayOfYear);
    }
  }
}
