/**
 * The resource resolver: the search sources of a discipline, the search
 * query each source expects, and one list of suggestions per resource need.
 * `encodeURIComponent` is taken as given (`encode`).
 */
module Resources {
  import opened Text
  import opened Registry
  import opened Extract
  import opened Tokens
  import opened Analysis

  /** A source's `format`: `encoded` queries are URI-encoded, all others hyphenated. */
  datatype QueryFormat = Simple | Encoded

  /** One entry of a source list. */
  datatype ResourceSource = ResourceSource(name: string, baseUrl: string, format: QueryFormat)

  /** The two sources offered for every discipline. */
  const CommonSources: seq<ResourceSource> := [
    ResourceSource("Unsplash", "https://unsplash.com/s/photos/", Simple),
    ResourceSource("Wikimedia Commons", "https://commons.wikimedia.org/w/index.php?search=", Encoded)]

  /** The discipline's own sources; only mathematics, literature and science have any. */
  function DisciplinarySources(d: Discipline): (r: seq<ResourceSource>)
    ensures d in {Mathematics, Literature, Science} ==> |r| == 2
    ensures d !in {Mathematics, Literature, Science} ==> r == []
  {
    match d
    case Mathematics => [
      ResourceSource("OpenStax", "https://openstax.org/search?q=", Encoded),
      ResourceSource("GeoGebra Materials", "https://www.geogebra.org/materials/search/query/", Simple)]
    case Literature => [
      ResourceSource("Gallica BnF", "https://gallica.bnf.fr/services/engine/search/sru?query=", Encoded),
      ResourceSource("Project Gutenberg", "https://www.gutenberg.org/ebooks/search/?query=", Encoded)]
    case Science => [
      ResourceSource("NASA Image Gallery", "https://images.nasa.gov/search?q=", Encoded),
      ResourceSource("CERN Document Server", "https://cds.cern.ch/search?p=", Encoded)]
    case _ => []
  }

  /** `getDisciplinaryResourceSources(discipline)`: the common sources, then the discipline's. */
  function ResourceSources(d: Discipline): (r: seq<ResourceSource>)
    ensures |r| == 2 + |DisciplinarySources(d)|
    ensures r[..2] == CommonSources && r[2..] == DisciplinarySources(d)
  {
    CommonSources + DisciplinarySources(d)
  }

  /** `formatSearchQuery(keywords, format)`. */
  function FormatSearchQuery(encode: string -> string, keywords: seq<string>, format: QueryFormat): string {
    var query := Join(keywords, " ");
    if format == Encoded then encode(query) else DashSpaces(query)
  }

  /**
   * A hyphenated query holds no `\s`, and when no keyword is empty or holds
   * `\s` it is the keywords joined by hyphens; an encoded query is the
   * encoding of the keywords joined by spaces.
   */
  lemma FormatSearchQuerySpec(encode: string -> string, keywords: seq<string>, format: QueryFormat)
    ensures format == Encoded ==> FormatSearchQuery(encode, keywords, format) == encode(Join(keywords, " "))
    ensures format == Simple ==> NoSpace(FormatSearchQuery(encode, keywords, format))
    ensures format == Simple && (forall i | 0 <= i < |keywords| :: |keywords[i]| > 0 && NoSpace(keywords[i])) ==>
      FormatSearchQuery(encode, keywords, format) == Join(keywords, "-")
  {
    if format == Simple && forall i | 0 <= i < |keywords| :: |keywords[i]| > 0 && NoSpace(keywords[i]) {
      DashSpacesJoin(keywords);
    }
  }

  /** One entry of a result's `suggestions`. */
  datatype Suggestion = Suggestion(source: string, query: string, url: string, description: string)

  /** One entry of `searchResults`. */
  datatype SearchResult = SearchResult(resource: ResourceNeed, suggestions: seq<Suggestion>)

  /** The suggestion a source makes for a resource need. */
  function SuggestionFor(encode: string -> string, need: ResourceNeed, source: ResourceSource): Suggestion {
    var query := FormatSearchQuery(encode, need.keywords, source.format);
    Suggestion(source.name, query, source.baseUrl + query, need.description + " depuis " + source.name)
  }

  /** `resourceSources.map(...)` for one need. */
  function SuggestionsFor(encode: string -> string, need: ResourceNeed, sources: seq<ResourceSource>): seq<Suggestion> {
    seq(|sources|, i requires 0 <= i < |sources| => SuggestionFor(encode, need, sources[i]))
  }

  /** The search results for the needs of an analysis of discipline `d`. */
  function SearchResults(encode: string -> string, d: Discipline, needs: seq<ResourceNeed>): seq<SearchResult> {
    var sources := ResourceSources(d);
    seq(|needs|, i requires 0 <= i < |needs| => SearchResult(needs[i], SuggestionsFor(encode, needs[i], sources)))
  }

  /** `searchDisciplinaryResources(analysis)`: one result per resource need, pushed in order. */
  method SearchDisciplinaryResources(encode: string -> string, analysis: DocumentAnalysis)
    returns (searchResults: seq<SearchResult>)
    ensures searchResults == SearchResults(encode, analysis.discipline, analysis.resourcesNeeded)
  {
    var sources := ResourceSources(analysis.discipline);
    var needs := analysis.resourcesNeeded;
    searchResults := [];
    for i := 0 to |needs|
      invariant |searchResults| == i
      invariant forall k | 0 <= k < i ::
        searchResults[k] == SearchResult(needs[k], SuggestionsFor(encode, needs[k], sources))
    {
      var suggestions := SuggestionsFor(encode, needs[i], sources);
      searchResults := searchResults + [SearchResult(needs[i], suggestions)];
    }
  }

  /**
   * One result per need, in order; each with one suggestion per source of
   * the discipline, in source order, whose URL is the source's base URL
   * followed by the query that source's format asks for.
   */
  lemma SearchResultsSpec(encode: string -> string, d: Discipline, needs: seq<ResourceNeed>)
    ensures var r := SearchResults(encode, d, needs);
      && |r| == |needs|
      && forall i | 0 <= i < |r| ::
        && r[i].resource == needs[i]
        && |r[i].suggestions| == |ResourceSources(d)|
        && forall k | 0 <= k < |r[i].suggestions| ::
          var s := ResourceSources(d)[k];
          var q := FormatSearchQuery(encode, needs[i].keywords, s.format);
          && r[i].suggestions[k].source == s.name
          && r[i].suggestions[k].query == q
          && r[i].suggestions[k].url == s.baseUrl + q
  {
  }

  /** The suggestion count: four for mathematics, literature and science, two otherwise. */
  lemma SuggestionCount(encode: string -> string, d: Discipline, needs: seq<ResourceNeed>)
    ensures forall i | 0 <= i < |needs| ::
      |SearchResults(encode, d, needs)[i].suggestions| == if d in {Mathematics, Literature, Science} then 4 else 2
  {
  }

  /**
   * The keywords of the main-illustration need are word-character tokens
   * and the discipline key, so its hyphenated query is those keywords joined
   * by hyphens.
   */
  lemma IllustrationQuery(encode: string -> string, d: Discipline, words: seq<string>)
    requires forall i | 0 <= i < |words| :: |words[i]| > 0 && NoSpace(words[i])
    ensures var ks := ResourcesNeeded(d, words)[0].keywords;
      FormatSearchQuery(encode, ks, Simple) == Join(ks, "-")
  {
    var ks := ResourcesNeeded(d, words)[0].keywords;
    ResourcesNeededSpec(d, words);
    KeyIsWord(d);
    forall i | 0 <= i < |ks| ensures |ks[i]| > 0 && NoSpace(ks[i]) {
      if i > 0 {
        assert ks[i] in words;
      }
    }
    FormatSearchQuerySpec(encode, ks, Simple);
  }

  /** A discipline key is a non-empty word without `\s`. */
  lemma KeyIsWord(d: Discipline)
    ensures |Key(d)| > 0 && NoSpace(Key(d))
  {
    match d
    case Mathematics =>
    case Literature =>
    case Science =>
    case History =>
    case Geography =>
    case Languages =>
    case Arts =>
    case Generic =>
  }

  /**
   * For the keywords an analysis derives from a text (the discipline key and
   * `\w{4,}` tokens), a hyphenated query is the keywords joined by hyphens.
   */
  lemma IllustrationQueryOfText(encode: string -> string, d: Discipline, t: string)
    ensures var ks := ResourcesNeeded(d, LongWords(t))[0].keywords;
      FormatSearchQuery(encode, ks, Simple) == Join(ks, "-")
  {
    var words := LongWords(t);
    forall i | 0 <= i < |words| ensures |words[i]| > 0 && NoSpace(words[i]) {
      assert |words[i]| >= 4;
    }
    IllustrationQuery(encode, d, words);
  }
}
