/**
 * QuranKnowledgeService: answers a question with Quran passages, from a
 * Qdrant similarity search when the client is configured and answers,
 * from fixed fallback passages otherwise.
 *
 * The Qdrant client is reduced to what the service sees: whether it is
 * configured, whether creating the collection throws, and what a search
 * returns. Scores are Java floats, taken here as exact reals; the two
 * thresholds are the exact values of the float literals 0.1f and 0.3f.
 */
module Knowledge {
  import opened Text

  datatype Option<T> = None | Some(value: T)

  /** QdrantClient.SearchResult. */
  datatype SearchResult = SearchResult(text: string, score: real)

  /** What qdrantClient.search does: throw, or return a list that may be null. */
  datatype SearchOutcome = SearchThrows | SearchReturned(results: Option<seq<SearchResult>>)

  /** 0.1f: below this first score the search is not trusted. */
  const MinTopScore: real := 13421773.0 / 134217728.0
  /** 0.3f: only results scoring above this are kept. */
  const KeepScore: real := 10066330.0 / 33554432.0

  const Book: string := "📖 "

  const PrayerVerse1: string := Book + "«Récite ce qui t'est révélé du Livre et accomplis la prière...» (29:45)"
  const PrayerVerse2: string := Book + "«La prière préserve de la turpitude et du blâmable...»"
  const PatienceVerse: string := Book + "«Ô croyants! Cherchez secours dans la patience et la prière...» (2:153)"
  const GuidanceVerse: string := Book + "«Guide-nous dans le droit chemin...» (1:6)"
  const DefaultVerse1: string := Book + "«Et invoque ton Seigneur en toi-même, avec humilité et crainte...» (7:205)"
  const DefaultVerse2: string := Book + "«La récitation du Coran est une lumière...»"

  predicate MentionsPrayer(lowerQuery: string)
  {
    Contains(lowerQuery, "prière") || Contains(lowerQuery, "salah")
  }

  predicate MentionsPatience(lowerQuery: string)
  {
    Contains(lowerQuery, "patience") || Contains(lowerQuery, "sabr")
  }

  predicate MentionsGuidance(lowerQuery: string)
  {
    Contains(lowerQuery, "guidance") || Contains(lowerQuery, "hidaya")
  }

  /**
   * getFallbackVerses: the lower-cased query is tested for prayer, then
   * patience, then guidance words; the first topic found decides, and a
   * query with none of them gets the two default passages.
   */
  function FallbackVerses(query: string): (r: seq<string>)
    ensures |r| > 0
    ensures forall v :: v in r ==> StartsWith(v, Book)
    ensures MentionsPrayer(ToLower(query)) ==> r == [PrayerVerse1, PrayerVerse2]
    ensures !MentionsPrayer(ToLower(query)) && MentionsPatience(ToLower(query)) ==> r == [PatienceVerse]
    ensures !MentionsPrayer(ToLower(query)) && !MentionsPatience(ToLower(query)) && MentionsGuidance(ToLower(query)) ==>
      r == [GuidanceVerse]
    ensures !MentionsPrayer(ToLower(query)) && !MentionsPatience(ToLower(query)) && !MentionsGuidance(ToLower(query)) ==>
      r == [DefaultVerse1, DefaultVerse2]
  {
    BookPrefix();
    var lowerQuery := ToLower(query);
    if MentionsPrayer(lowerQuery) then [PrayerVerse1, PrayerVerse2]
    else if MentionsPatience(lowerQuery) then [PatienceVerse]
    else if MentionsGuidance(lowerQuery) then [GuidanceVerse]
    else [DefaultVerse1, DefaultVerse2]
  }

  /** Each passage carries the book mark. */
  lemma BookPrefix()
    ensures StartsWith(PrayerVerse1, Book) && StartsWith(PrayerVerse2, Book) && StartsWith(PatienceVerse, Book)
    ensures StartsWith(GuidanceVerse, Book) && StartsWith(DefaultVerse1, Book) && StartsWith(DefaultVerse2, Book)
  {
    StartsWithAppend(Book, PrayerVerse1[|Book|..]);
    StartsWithAppend(Book, PrayerVerse2[|Book|..]);
    StartsWithAppend(Book, PatienceVerse[|Book|..]);
    StartsWithAppend(Book, GuidanceVerse[|Book|..]);
    StartsWithAppend(Book, DefaultVerse1[|Book|..]);
    StartsWithAppend(Book, DefaultVerse2[|Book|..]);
  }

  /** The kept results, in order, each marked: the for loop's filter. */
  function ConfidentTexts(results: seq<SearchResult>): (r: seq<string>)
    ensures |r| <= |results|
    decreases |results|
  {
    if results == [] then []
    else
      var last := results[|results| - 1];
      ConfidentTexts(results[..|results| - 1]) + (if last.score > KeepScore then [Book + last.text] else [])
  }

  /** A text is kept exactly when some result scoring above 0.3f carries it. */
  lemma {:induction false} ConfidentTextsIff(results: seq<SearchResult>, t: string)
    ensures t in ConfidentTexts(results) <==>
      exists i :: 0 <= i < |results| && results[i].score > KeepScore && t == Book + results[i].text
    decreases |results|
  {
    if results != [] {
      var init, last := results[..|results| - 1], results[|results| - 1];
      ConfidentTextsIff(init, t);
      if t in ConfidentTexts(results) {
        if t in ConfidentTexts(init) {
          var i :| 0 <= i < |init| && init[i].score > KeepScore && t == Book + init[i].text;
          assert results[i] == init[i];
        } else {
          assert results[|results| - 1] == last;
        }
      } else {
        forall i | 0 <= i < |results|
          ensures !(results[i].score > KeepScore && t == Book + results[i].text)
        {
          if i < |init| {
            assert results[i] == init[i];
          }
        }
      }
    }
  }

  /** Nothing is kept exactly when no result scores above 0.3f. */
  lemma {:induction false} ConfidentTextsEmpty(results: seq<SearchResult>)
    ensures ConfidentTexts(results) == [] <==> forall i :: 0 <= i < |results| ==> results[i].score <= KeepScore
    decreases |results|
  {
    if results != [] {
      var init := results[..|results| - 1];
      ConfidentTextsEmpty(init);
      if forall i :: 0 <= i < |results| ==> results[i].score <= KeepScore {
        assert forall i :: 0 <= i < |init| ==> init[i] == results[i];
      } else if ConfidentTexts(init) == [] {
        assert forall i :: 0 <= i < |init| ==> init[i] == results[i];
      }
    }
  }

  /** searchQuranWisdom's answer. */
  function WisdomAnswer(configured: bool, query: string, outcome: SearchOutcome): seq<string>
  {
    if !configured then FallbackVerses(query)
    else match outcome
      case SearchThrows => FallbackVerses(query)
      case SearchReturned(None) => FallbackVerses(query)
      case SearchReturned(Some(results)) =>
        if results == [] || results[0].score < MinTopScore then FallbackVerses(query)
        else ConfidentTexts(results)
  }

  /**
   * The answer is empty exactly when the search returned results whose
   * first score is at least 0.1f and none of which scores above 0.3f;
   * in every other case it holds at least one passage.
   */
  lemma WisdomAnswerEmpty(configured: bool, query: string, outcome: SearchOutcome)
    ensures WisdomAnswer(configured, query, outcome) == [] <==>
      configured && outcome.SearchReturned? && outcome.results.Some? &&
      var results := outcome.results.value;
      results != [] && results[0].score >= MinTopScore &&
      forall i :: 0 <= i < |results| ==> results[i].score <= KeepScore
  {
    if configured && outcome.SearchReturned? && outcome.results.Some? {
      ConfidentTextsEmpty(outcome.results.value);
    }
  }

  /** Every passage in the answer carries the book mark. */
  lemma WisdomAnswerMarked(configured: bool, query: string, outcome: SearchOutcome, v: string)
    requires v in WisdomAnswer(configured, query, outcome)
    ensures StartsWith(v, Book)
  {
    if configured && outcome.SearchReturned? && outcome.results.Some? && v in ConfidentTexts(outcome.results.value) {
      ConfidentTextsIff(outcome.results.value, v);
      var i :| 0 <= i < |outcome.results.value| && v == Book + outcome.results.value[i].text;
      StartsWithAppend(Book, outcome.results.value[i].text);
    }
  }

  class QuranKnowledgeService {
    const qdrantConfigured: bool
    var isInitialized: bool

    /** The constructor; the knowledge-base thread it starts is InitializeKnowledgeBase. */
    constructor (qdrantConfigured: bool)
      ensures this.qdrantConfigured == qdrantConfigured && !isInitialized
    {
      this.qdrantConfigured := qdrantConfigured;
      isInitialized := false;
    }

    /**
     * initializeKnowledgeBase's thread, run to completion: with a
     * configured client, the service is marked initialized once
     * createCollection returns, whatever it reports, unless the try block
     * throws (`blockThrows`).
     */
    method InitializeKnowledgeBase(blockThrows: bool)
      modifies this
      ensures isInitialized == (old(isInitialized) || (qdrantConfigured && !blockThrows))
      ensures IsReady() <==> qdrantConfigured && (old(isInitialized) || !blockThrows)
    {
      if qdrantConfigured && !blockThrows {
        isInitialized := true;
      }
    }

    /** isReady: never without a configured Qdrant client, never before initialization succeeded. */
    function IsReady(): (r: bool)
      reads this
      ensures !qdrantConfigured ==> !r
      ensures !isInitialized ==> !r
    {
      qdrantConfigured && isInitialized
    }

    /**
     * searchQuranWisdom: the fallback passages without a configured client,
     * when the search throws, returns null or nothing, or when its first
     * score is below 0.1f; otherwise the marked texts of the results
     * scoring above 0.3f, in order.
     */
    method SearchQuranWisdom(query: string, outcome: SearchOutcome) returns (answer: seq<string>)
      ensures answer == WisdomAnswer(qdrantConfigured, query, outcome)
    {
      if !qdrantConfigured {
        return FallbackVerses(query);
      }
      if outcome.SearchThrows? || outcome.results.None? {
        return FallbackVerses(query);
      }
      var results := outcome.results.value;
      if |results| == 0 || results[0].score < MinTopScore {
        return FallbackVerses(query);
      }
      answer := [];
      var i := 0;
      while i < |results|
        invariant 0 <= i <= |results|
        invariant answer == ConfidentTexts(results[..i])
      {
        assert results[..i + 1][..i] == results[..i];
        if results[i].score > KeepScore {
          answer := answer + [Book + results[i].text];
        }
        i := i + 1;
      }
      assert results[..i] == results;
    }
  }
}
