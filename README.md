# Universal Pedagogy model of EduLearning+

EduLearning+ turns the text of a course document into an accessible,
discipline-aware HTML resource. `UniversalPedagogyModel` runs this as a pipeline:

- **Analysis.** The text gets a discipline by keyword scores, a school level from
  level indicators or a complexity score (word lengths measured, as JavaScript's
  `length` does, in UTF-16 code units), and a content type from cue words. The
  analysis also gathers pedagogical objectives, the visual elements the text calls
  for, search keywords ranked by frequency, two resource needs, a specialised
  vocabulary with definitions, pronunciations and difficulty labels, the exercise
  cues present and the transversal skills.
- **Resource search.** Each resource need becomes a search query for every source of
  the discipline.
- **Document generation.** The HTML document is built from six templates: head,
  header, main, aside, footer and script. The templates are driven by the
  discipline's profile, a randomly drawn cognitive-break mini-game and the model's
  accessibility-feature map.
- **PDF export.** A configuration is produced for exporting to PDF.
- **Validation.** The accessibility validator scores a page by five HTML markers.
- **Usage guide and statistics.** The model also produces a usage guide and
  usage statistics.

`UniversalPedagogyController` adds two pieces of logic:
- the grade label for a validation score;
- the handler that switches one accessibility feature of the model and announces
  the change.

The project is organised as follows:
- The tables of the model become their own modules: `Registry` holds the profiles,
  features and mini-game catalogues, and `DisciplineSets` tabulates them over every
  discipline.
- The analysis helpers are in `Classify` and `Extract`; `Analysis` gathers the
  resulting record.
- `Resources`, `Document` (with its facts in `DocumentFacts`), `PdfExport`,
  `Validator` and `UsageGuide` cover the later phases.
- `Model` and `Controller` hold the two classes. Their methods update the feature
  map and the current analysis in place.
- `Text`, `Tokens`, `Seqs` and `Json` give the JavaScript string, regular-expression,
  array and `JSON.stringify` behaviour the pipeline relies on.

Each loop of the source is a method proved against a specification function:
- the keyword scoring and the best-score reduction of discipline detection;
- the level search;
- the frequency count;
- the visual-element and skill detection;
- the validator;
- the resource search.

Lemmas then state what the source promises about those functions.

Three facts are modelled directly from the code:
- **Discipline ties.** The best-score reduction keeps the earlier entry only when it
  is strictly larger, so on a tie the discipline listed later in the keyword table
  wins.
- **Searches.** Every keyword search is a substring search, so `ADN` never counts on
  lower-cased text.
- **Empty document.** An empty document has no sentence, so its complexity score is
  infinite and it is classed `supérieur`.

## Model

| member | source | states |
|---|---|---|
| Registry.FromKey | assets/js/models/UniversalPedagogyModel.js:1389-1518 | reading a key string gives the discipline with that key, or `generic` when no discipline has it |
| Registry.KeyRoundTrip | assets/js/models/UniversalPedagogyModel.js:1389-1518 | the discipline keys are distinct: reading a discipline's key back gives the discipline |
| Registry.AllDisciplinesComplete | assets/js/models/UniversalPedagogyModel.js:1389-1518 | the profile table lists every discipline exactly once, eight in all |
| Registry.DisciplineTools | assets/js/models/UniversalPedagogyModel.js:1389-1518 | every profile lists four tools |
| Registry.DisciplineVisuals | assets/js/models/UniversalPedagogyModel.js:1389-1518 | every profile lists four visual elements |
| Registry.ProfileOf | assets/js/models/UniversalPedagogyModel.js:1389-1518 | a discipline's profile carries its name and visual elements, with four tools and four elements |
| Registry.InitialFeatures | assets/js/models/UniversalPedagogyModel.js:1524-1575 | the feature map holds exactly the eight feature ids, each disabled |
| Registry.CognitiveBreaks | assets/js/models/UniversalPedagogyModel.js:1580-1631 | every discipline's catalogue holds four mini-games, so a draw always finds a game |
| DisciplineSets.Tabulate | assets/js/models/UniversalPedagogyModel.js:1378-1384 | a table built by the constructor has exactly the eight disciplines as keys, each mapped to its entry |
| DisciplineSets.DisciplineSetSize | assets/js/models/UniversalPedagogyModel.js:1365 | there are eight disciplines |
| DisciplineSets.DisciplineSetComplete | assets/js/models/UniversalPedagogyModel.js:1389-1518 | every discipline is a key of the tables |
| Classify.DisciplineKeywords | assets/js/models/UniversalPedagogyModel.js:1682-1718 | only `generic` has no keyword list |
| Classify.KeywordScore | assets/js/models/UniversalPedagogyModel.js:1724-1728 | a discipline scores zero iff none of its keywords occurs in the text |
| Classify.Scores | assets/js/models/UniversalPedagogyModel.js:1720-1729 | one score per scored discipline, in table order, each that discipline's keyword count |
| Classify.BestIndex | assets/js/models/UniversalPedagogyModel.js:1732 | the reduction picks a maximal score, and every later score is strictly smaller (ties go to the later entry) |
| Classify.ScoreDiscipline | assets/js/models/UniversalPedagogyModel.js:1724-1728 | the computed score of a discipline is its specified keyword score |
| Classify.SumMatches | assets/js/models/UniversalPedagogyModel.js:1725-1728 | the `reduce` loop sums the match counts of the keyword list |
| Classify.FindBest | assets/js/models/UniversalPedagogyModel.js:1732 | the reduction loop returns the last position of a maximal score |
| Classify.ScoresAgree | assets/js/models/UniversalPedagogyModel.js:1720-1729 | the scores filled in by the loop are the specified scores |
| Classify.DetectDiscipline | assets/js/models/UniversalPedagogyModel.js:1681-1735 | the detection loop returns the specified discipline |
| Classify.DetectedDisciplineSpec | assets/js/models/UniversalPedagogyModel.js:1731-1734 | `generic` iff every score is zero; otherwise a discipline with a positive, maximal score that no later discipline equals |
| Classify.AdnNeverCounts | assets/js/models/UniversalPedagogyModel.js:1696 | the keyword `ADN` never matches lower-cased text |
| Classify.FirstIndicated | assets/js/models/UniversalPedagogyModel.js:1751-1755 | the search returns the first level, in table order, with an indicator in the text |
| Classify.LevelForScore | assets/js/models/UniversalPedagogyModel.js:1758-1762 | the complexity thresholds 30, 60 and 80 map to primaire, collège, lycée and supérieur, never professionnel |
| Classify.DetectLevel | assets/js/models/UniversalPedagogyModel.js:1740-1763 | the level loop returns the specified level, whose complexity fallback measures words by their `length` in UTF-16 code units |
| Classify.FirstIndicatedSkips | assets/js/models/UniversalPedagogyModel.js:1751-1755 | levels without an indicator are passed over |
| Classify.DetectedLevelSpec | assets/js/models/UniversalPedagogyModel.js:1740-1783 | the first indicated level wins; with none, the complexity thresholds decide on a score built from UTF-16 `length`s; professionnel only when it is indicated |
| Classify.NothingIndicatedInEmpty | assets/js/models/UniversalPedagogyModel.js:1741-1747 | the empty text indicates no level |
| Classify.EmptyDocumentIsSuperieur | assets/js/models/UniversalPedagogyModel.js:1768-1783 | an empty document has an infinite complexity score and is classed supérieur |
| Classify.SingleWordScore | assets/js/models/UniversalPedagogyModel.js:1768-1783 | a text that splits into one word and one sentence scores ten times the word's `length`, plus 2, plus 100 when the `length` is over six |
| Classify.OneWordOneSentence | assets/js/models/UniversalPedagogyModel.js:1772-1782 | with one word and one sentence, the averages are the word's `length` and 1, and the complex share is 1 exactly when the `length` is over six |
| Classify.OneWordScore | assets/js/models/UniversalPedagogyModel.js:1768-1783 | a non-blank text without `\s` or sentence marks scores ten times its `length`, plus 2, plus 100 when the `length` is over six |
| Classify.AstralWordScore | assets/js/models/UniversalPedagogyModel.js:1773-1779 | four emoji count eight UTF-16 units: the score is 182 and the level supérieur |
| Classify.DetectContentType | assets/js/models/UniversalPedagogyModel.js:1788-1802 | exercices iff an exercise cue occurs; évaluation, projet and cours each iff the earlier cues are absent and its own are present (cours when none is) |
| Classify.MentionsThree | assets/js/models/UniversalPedagogyModel.js:1791-1799 | testing three cues with `some` is the disjunction of the three `includes` |
| Analysis.TitleOr | assets/js/models/UniversalPedagogyModel.js:52 | a present, non-empty title is used, otherwise the fallback |
| Analysis.Terms | assets/js/models/UniversalPedagogyModel.js:1145 | the terms of the vocabulary, one per entry, in order |
| Analysis.AnalyzeClassifies | assets/js/models/UniversalPedagogyModel.js:1636-1676 | the record keeps timestamp, content and metadata; `generic` iff no discipline scores; without indicators the level comes from complexity; generic objectives iff no listed discipline |
| Analysis.AnalyzeSelects | assets/js/models/UniversalPedagogyModel.js:1636-1676 | the visuals, exercises and skills are subsequences of their tables; two resource needs, the first keyed by the discipline |
| Analysis.AnalyzeVocabulary | assets/js/models/UniversalPedagogyModel.js:1660 | at most ten distinct capitalised terms of more than four characters |
| Analysis.VocabularyOf | assets/js/models/UniversalPedagogyModel.js:1916-1929 | the same bounds for the vocabulary of any discipline |
| Extract.PedagogicalObjectives | assets/js/models/UniversalPedagogyModel.js:1807-1832 | the generic objectives iff the discipline is not mathematics, literature or science |
| Extract.VisualKeywordsSpec | assets/js/models/UniversalPedagogyModel.js:1857-1868 | a listed element has four cues; any other element is its own and only cue |
| Extract.VisualElementsFor | assets/js/models/UniversalPedagogyModel.js:1837-1852 | an element is detected iff the profile lists it and one of its cues occurs; the detected ones keep profile order |
| Extract.IdentifyVisualElements | assets/js/models/UniversalPedagogyModel.js:1837-1852 | the `forEach` loop pushes exactly the specified elements |
| Seqs.SelectWhere | assets/js/models/UniversalPedagogyModel.js:1844-1849 | a loop pushing the elements that pass a test returns the filter of the list |
| Extract.WordsOf | assets/js/models/UniversalPedagogyModel.js:1908 | the words of the ranked entries, one per entry, in order |
| Extract.WithCount | assets/js/models/UniversalPedagogyModel.js:1905-1906 | the entries of one count are entries of the list with that count |
| Extract.InsertByCount | assets/js/models/UniversalPedagogyModel.js:1906 | an insertion adds the entry and nothing else (multiset) |
| Extract.ConsNonIncreasing | assets/js/models/UniversalPedagogyModel.js:1906 | an entry no smaller than the rest can head a non-increasing list |
| Extract.InsertKeepsOrder | assets/js/models/UniversalPedagogyModel.js:1906 | insertion keeps a list sorted by decreasing count |
| Extract.WithCountCons | assets/js/models/UniversalPedagogyModel.js:1906 | the entries of one count in a list with a new head |
| Extract.InsertWithCount | assets/js/models/UniversalPedagogyModel.js:1906 | the inserted entry goes before the entries of its count: the sort is stable |
| Extract.SortByCount | assets/js/models/UniversalPedagogyModel.js:1905-1906 | the sort is a permutation of the entries |
| Extract.SortByCountSpec | assets/js/models/UniversalPedagogyModel.js:1905-1906 | the sort orders by decreasing count and keeps the order of equal counts (stable) |
| Extract.BumpCounts | assets/js/models/UniversalPedagogyModel.js:1901-1903 | counting one more word keeps the table equal to the occurrence counts |
| Extract.CountWords | assets/js/models/UniversalPedagogyModel.js:1899-1903 | the loop leaves the occurrence count of each word seen, and the keys in first-occurrence order |
| Extract.GenerateSearchKeywords | assets/js/models/UniversalPedagogyModel.js:1896-1911 | the method returns the specified keywords |
| Extract.FrequencyTableSpec | assets/js/models/UniversalPedagogyModel.js:1899-1905 | the entries list each distinct word once, by first occurrence, with its positive count |
| Extract.WithCountFirstOrder | assets/js/models/UniversalPedagogyModel.js:1905-1906 | keeping only one count keeps the first-occurrence order |
| Extract.RankingSpec | assets/js/models/UniversalPedagogyModel.js:1905-1906 | the ranking is a permutation, sorted by decreasing count, with ties in first-occurrence order |
| Extract.SortedTableSpec | assets/js/models/UniversalPedagogyModel.js:1905-1906 | one ranked entry per distinct word, each carrying that word's count |
| Extract.EntryOf | assets/js/models/UniversalPedagogyModel.js:1905-1906 | every word of the text has its entry in the ranking |
| Extract.KeywordPositions | assets/js/models/UniversalPedagogyModel.js:1905-1910 | the discipline key, then the words of the first five ranked entries |
| Extract.SearchKeywordsSpec | assets/js/models/UniversalPedagogyModel.js:1896-1911 | the key first, then up to five words of the text, in non-increasing frequency, and no word left out is more frequent than a word kept |
| Extract.ResourcesNeededSpec | assets/js/models/UniversalPedagogyModel.js:1873-1891 | two needs, the main illustration and the diagram; the illustration's keywords are exactly the text's search keywords (the key, then at most five words of the text by frequency); the diagram's are exactly `diagram`, `schema` and the key |
| Extract.AssessTermDifficulty | assets/js/models/UniversalPedagogyModel.js:1942-1946 | facile under six characters, moyen under ten, difficile otherwise, each iff |
| Extract.PronunciationSpec | assets/js/models/UniversalPedagogyModel.js:1934-1937 | the transcription is bracketed and holds no `qu` and no `ch` |
| Extract.DefinitionMentions | assets/js/models/UniversalPedagogyModel.js:1925 | the definition names the term and the discipline |
| Extract.VocabularyTermsSpec | assets/js/models/UniversalPedagogyModel.js:1920-1922 | at most ten distinct words of more than four characters, by first occurrence; one left out means ten were taken, all occurring earlier |
| Extract.LongCandidates | assets/js/models/UniversalPedagogyModel.js:1920-1921 | the candidates before the cut are all distinct long words, by first occurrence |
| Extract.SpecializedVocabularySpec | assets/js/models/UniversalPedagogyModel.js:1916-1929 | one entry per selected term, carrying the term, with a definition naming the term and the discipline |
| Extract.ExercisePatterns | assets/js/models/UniversalPedagogyModel.js:1952-1959 | disciplines without their own list use question, exercice, activité |
| Extract.IdentifyExercises | assets/js/models/UniversalPedagogyModel.js:1951-1963 | a cue is kept iff it occurs in the text, in list order |
| Extract.TransversalSkills | assets/js/models/UniversalPedagogyModel.js:1968-1987 | a skill is detected iff one of its cues occurs, in table order |
| Extract.IdentifyTransversalSkills | assets/js/models/UniversalPedagogyModel.js:1968-1987 | the `forEach` loop pushes exactly the specified skills |
| Tokens.LongWords | assets/js/models/UniversalPedagogyModel.js:1898 | every token is at least four `\w` characters |
| Tokens.SmallRun | assets/js/models/UniversalPedagogyModel.js:1918 | the greedy run of small letters is maximal |
| Tokens.BackOff | assets/js/models/UniversalPedagogyModel.js:1918 | backtracking stops at the longest prefix ending on a word boundary |
| Tokens.MatchAt | assets/js/models/UniversalPedagogyModel.js:1918 | a match is a capitalised term between two word boundaries |
| Tokens.CapitalizedFrom | assets/js/models/UniversalPedagogyModel.js:1918 | every match of the global search is a capitalised term |
| Tokens.CapitalizedWords | assets/js/models/UniversalPedagogyModel.js:1918 | every vocabulary candidate is a capitalised term |
| Tokens.AccentedEndingIsCut | assets/js/models/UniversalPedagogyModel.js:1918 | `\b` is ASCII-only, so `Café` yields `Caf` |
| Tokens.AccentedCapitalIsSkipped | assets/js/models/UniversalPedagogyModel.js:1918 | `Élève` alone is not matched: no `\b` comes before an accented capital at the start of the text |
| Tokens.NonWordCapitalNeedsWordBefore | assets/js/models/UniversalPedagogyModel.js:1918 | a match starts on an accented capital only right after an ASCII word character, never at the start of the text or after a non-word character |
| Tokens.AccentedCapitalAfterDigit | assets/js/models/UniversalPedagogyModel.js:1918 | after a digit the `\b` holds, so `5Élève` yields `Élève` |
| Text.CountMatches | assets/js/models/UniversalPedagogyModel.js:1726 | the global match count is positive iff the keyword occurs, and the matches do not overlap |
| Text.ReplacePairRemoves | assets/js/models/UniversalPedagogyModel.js:1936 | replacing `qu` by `k` leaves no `qu` |
| Text.ReplacePairKeepsAbsent | assets/js/models/UniversalPedagogyModel.js:1936 | replacing `ch` by `ʃ` creates no `qu` |
| Text.DashSpaces | assets/js/models/UniversalPedagogyModel.js:17 | hyphenation leaves no `\s` and never lengthens the query |
| Text.DashSpacesJoin | assets/js/models/UniversalPedagogyModel.js:16-17 | keywords joined on spaces and hyphenated are the keywords joined on hyphens |
| Text.Split | assets/js/models/UniversalPedagogyModel.js:1769-1770 | `split` on a character class yields at least one piece, none holding the class |
| Text.SplitNoClass | assets/js/models/UniversalPedagogyModel.js:1769-1770 | a text without a character of the class splits into itself alone |
| Text.Utf16Length | assets/js/models/UniversalPedagogyModel.js:1773-1779 | `length` lies between the number of characters and twice it, and equals it iff every character is in the Basic Multilingual Plane |
| Text.JoinContains | assets/js/models/UniversalPedagogyModel.js:1145 | every term of the keywords list occurs in it |
| Resources.DisciplinarySources | assets/js/models/UniversalPedagogyModel.js:2031-2063 | two sources of its own for mathematics, literature and science; none for the others |
| Resources.ResourceSources | assets/js/models/UniversalPedagogyModel.js:1-10 | the two common sources, then the discipline's own |
| Resources.FormatSearchQuerySpec | assets/js/models/UniversalPedagogyModel.js:15-18 | an encoded query is the encoding of the space-joined keywords; a simple query has no `\s` and is the hyphen-joined keywords when they are words |
| Resources.SearchDisciplinaryResources | assets/js/models/UniversalPedagogyModel.js:1992-2011 | the loop pushes the specified results |
| Resources.SearchResultsSpec | assets/js/models/UniversalPedagogyModel.js:1992-2011 | one result per need, in order, with one suggestion per source carrying its name, its query and its base URL before the query |
| Resources.SuggestionCount | assets/js/models/UniversalPedagogyModel.js:1992-2063 | four suggestions per need for mathematics, literature and science, two otherwise |
| Resources.IllustrationQuery | assets/js/models/UniversalPedagogyModel.js:15-18 | the simple query of the main illustration is its keywords joined on hyphens |
| Resources.KeyIsWord | assets/js/models/UniversalPedagogyModel.js:1389-1518 | a discipline key is a non-empty word without `\s` |
| Resources.IllustrationQueryOfText | assets/js/models/UniversalPedagogyModel.js:1873-1911 | for the keywords drawn from any text, the simple query is the hyphen-joined keywords |
| Document.MainFont | assets/js/models/UniversalPedagogyModel.js:86 | the profile's main font when it is non-empty, the default family otherwise |
| DocumentFacts.ToolbarMarkers | assets/js/models/UniversalPedagogyModel.js:477 | the toolbar carries `role=` and `aria-label` |
| DocumentFacts.HeaderMarkers | assets/js/models/UniversalPedagogyModel.js:473-516 | the header carries `role=` and `aria-label` |
| DocumentFacts.CssMarkers | assets/js/models/UniversalPedagogyModel.js:73-468 | the style sheet carries `tabindex` and `@media` |
| DocumentFacts.HeadMarkers | assets/js/models/UniversalPedagogyModel.js:45-68 | the head carries the style sheet's markers |
| DocumentFacts.MathematicsContentMarker | assets/js/models/UniversalPedagogyModel.js:563-638 | the mathematics content holds `role="math"` |
| DocumentFacts.MainMathMarker | assets/js/models/UniversalPedagogyModel.js:521-558 | the main section of a mathematics document carries `role="math"` |
| DocumentFacts.AssembledContains | assets/js/models/UniversalPedagogyModel.js:1103-1117 | a marker of the head, header or main section is in the page |
| DocumentFacts.DocumentHeaderMarkers | assets/js/models/UniversalPedagogyModel.js:23-40 | every generated document carries `role=` and `aria-label` |
| DocumentFacts.DocumentStyleMarkers | assets/js/models/UniversalPedagogyModel.js:23-40 | every generated document carries `tabindex` and `@media` |
| DocumentFacts.DocumentMathMarker | assets/js/models/UniversalPedagogyModel.js:23-40 | a generated mathematics document carries `role="math"` |
| DocumentFacts.DocumentScore | assets/js/models/UniversalPedagogyModel.js:1211-1244 | a generated document scores 80 or 100, and a mathematics document 100 with `wcagAAA` |
| DocumentFacts.HeadLinks | assets/js/models/UniversalPedagogyModel.js:61-62 | the head links KaTeX iff the discipline is mathematics; the dyslexia link is never chosen |
| DocumentFacts.MathematicsLinksKatex | assets/js/models/UniversalPedagogyModel.js:61 | a mathematics document links the KaTeX style sheet |
| DocumentFacts.AsWrittenThrows | assets/js/models/UniversalPedagogyModel.js:61-62 | as written, generation throws a `ReferenceError` when no global `discipline` exists |
| DocumentFacts.AsWrittenAgrees | assets/js/models/UniversalPedagogyModel.js:61-62 | with a global `discipline` equal to the analysis's key, the as-written document is the corrected one |
| DocumentFacts.FeatureMembersOfKeys | assets/js/models/UniversalPedagogyModel.js:894 | the serialised map has one member per key, in order, each the key's feature |
| DocumentFacts.FeatureMembersBound | assets/js/models/UniversalPedagogyModel.js:894 | never more members than keys |
| DocumentFacts.ScriptListsEveryFeature | assets/js/models/UniversalPedagogyModel.js:894 | the script lists all eight features, in table order, with their current state |
| Json.HexRoundTrip | assets/js/models/UniversalPedagogyModel.js:894 | a `\u` escape's hexadecimal digit reads back as its value |
| Json.EscapeChar | assets/js/models/UniversalPedagogyModel.js:894 | a character is escaped iff it is a quote, a backslash or a control character |
| Json.EscapePlain | assets/js/models/UniversalPedagogyModel.js:894 | a string with nothing to escape is written as it is |
| Json.UnescapeChar | assets/js/models/UniversalPedagogyModel.js:894 | decoding one escape gives its character back |
| Json.UnescapeEscape | assets/js/models/UniversalPedagogyModel.js:894 | decoding the serialised string gives the string back |
| PdfExport.DisciplinaryPdfFeatures | assets/js/models/UniversalPedagogyModel.js:1155-1206 | the standard bag of three settings iff the discipline is `generic`; a discipline bag of four settings otherwise |
| PdfExport.PdfExportConfigSpec | assets/js/models/UniversalPedagogyModel.js:1122-1150 | tagged, in French; the subject reads back as the discipline; the title is the metadata title; every term is among the keywords; the bag is the discipline's |
| Validator.CountTrue | assets/js/models/UniversalPedagogyModel.js:1240 | no more true checks than checks |
| Validator.ValidateAccessibility | assets/js/models/UniversalPedagogyModel.js:1211-1244 | the method returns the specified validation |
| Validator.ScoreValidation | assets/js/models/UniversalPedagogyModel.js:1231-1241 | the scoring step returns the specified score and `wcagAAA` flag |
| Validator.CountFive | assets/js/models/UniversalPedagogyModel.js:1232-1240 | the count of the five checks is the sum of their indicators |
| Validator.ValidationSpec | assets/js/models/UniversalPedagogyModel.js:1211-1244 | a multiple of 20 up to 100; `wcagAAA` iff all five checks pass iff the score is 100; a math role implies a role; no errors or warnings |
| Validator.ScoreOfMarkedDocument | assets/js/models/UniversalPedagogyModel.js:1225-1241 | with the four common markers, the score is 100 with `role="math"` and 80 without, and `wcagAAA` iff `role="math"` |
| UsageGuide.DisciplinaryGuidance | assets/js/models/UniversalPedagogyModel.js:1305-1357 | four lines; the general guidance iff the discipline is `generic` |
| UsageGuide.UsageGuideSpec | assets/js/models/UniversalPedagogyModel.js:1249-1300 | five sections; the title names the discipline; the second section is its guidance; the mini-game section names the discipline |
| Model.ActiveFeatures | assets/js/models/UniversalPedagogyModel.js:1366-1367 | a feature is active iff the map holds it enabled |
| Model.InitiallyInactive | assets/js/models/UniversalPedagogyModel.js:1524-1575 | no feature is active after construction |
| Model.PedagogyModel.constructor | assets/js/models/UniversalPedagogyModel.js:1378-1384 | the feature map is the initial table, with no current analysis and an empty data store |
| Model.PedagogyModel.AnalyzeDocument | assets/js/models/UniversalPedagogyModel.js:1636-1676 | returns the specified analysis and stores it as the current analysis, changing nothing else |
| Model.PedagogyModel.GenerateAccessibleDocument | assets/js/models/UniversalPedagogyModel.js:23-40 | the document for the discipline's profile, the drawn game of its catalogue and the current feature map |
| Model.PedagogyModel.GetUsageStatistics | assets/js/models/UniversalPedagogyModel.js:1362-1371 | the stored document count or 0, eight disciplines, the number of enabled features, 95 and 98 |
| Controller.GradeOf | assets/js/controllers/UniversalPedagogyController.js:292-299 | each grade iff the score lies in its band: 95, 85, 75, 65 and 50 from the top |
| Controller.GradeLabelsDistinct | assets/js/controllers/UniversalPedagogyController.js:293-298 | different grades show different labels |
| Controller.GradeMonotone | assets/js/controllers/UniversalPedagogyController.js:292-299 | a higher score never gets a lower grade |
| Controller.GeneratedDocumentGrade | assets/js/controllers/UniversalPedagogyController.js:292-299 | a generated document grades `Bon (AA)` or better, and a mathematics document `Excellent (AAA)` |
| Controller.Toggled | assets/js/controllers/UniversalPedagogyController.js:550-551 | a known feature has its flag negated and nothing else; the other features and the ids are unchanged; an unknown id changes nothing |
| Controller.ToggleNotification | assets/js/controllers/UniversalPedagogyController.js:553-556 | a notification iff the feature is known, naming it and reporting the opposite of its old state |
| Controller.ToggleTwice | assets/js/controllers/UniversalPedagogyController.js:547-558 | switching the same feature twice restores the map |
| Controller.ToggleActiveCount | assets/js/controllers/UniversalPedagogyController.js:551 | switching a known feature moves the active count by one, down if it was on and up if it was off |
| Controller.PedagogyController.constructor | assets/js/controllers/UniversalPedagogyController.js:6-19 | the controller builds its own fresh model, in its initial state |
| Controller.PedagogyController.HandleAccessibilityToggle | assets/js/controllers/UniversalPedagogyController.js:547-558 | the model's feature map becomes the switched map, and the notification is the specified one |

## Left out

- Template text: the HTML templates keep their landmark elements, every interpolated value in order and the markers the validator reads. Prose, inline styles and most CSS rules are abbreviated.
- The embedded script: the body of the script section (lines 782-1098) is one fixed block. Only its interpolations are modelled: the discipline, the level and the serialised feature map.
- Guide content: each guide section is reduced to its bullet lines, without the surrounding indentation of the template literals.
- Randomness and the clock: the mini-game draw `Math.floor(Math.random() * games.length)`, `Date.now()` and `toLocaleDateString()` are parameters of the methods.
- Host string functions: `toLowerCase` and `encodeURIComponent` are parameters. Unicode case mapping and percent-encoding are not modelled.
- Tokenisation: the `\b\w{4,}\b` tokens are a function of the lower-cased text. `Classify.AdnNeverCounts` assumes that lower-casing leaves no ASCII capital.
- Floating point: the complexity score is a real number, with Infinity kept as its own case. The validation score is `20 * k` for `k` passing checks, which is what `k / 5 * 100` evaluates to exactly.
- Text.Capitalize: upper-cases an ASCII first letter only. It is applied only to fixed tool identifiers and to the three objective keys `cognitif`, `méthodologique` and `transversal`, all of which start with an ASCII letter.
- Object key order: the frequency table keeps insertion order. The reordering of integer-like keys by `Object.entries` and keys inherited from `Object.prototype` (such as `constructor` or `toString`) are not modelled.
- Controller.Toggled, Controller.ToggleNotification and Controller.PedagogyController.HandleAccessibilityToggle: an id that names an inherited property of the feature object, such as `constructor`, is not modelled. The map holds only the eight own keys, so for such an id the model changes nothing and announces nothing, where the source would set a flag on the inherited object and announce it.
- Observers and events: `notifyObservers('documentAnalyzed'…)`, `notifyObservers('documentGenerated'…)` and the controller's `eventBus.emit` are not modelled. The notification is returned as a value.
- Asynchrony and errors: `async` and the `try`/`catch` rethrow of `analyzeDocument` are not modelled.
- Data store: `getData('documentsAnalyzed')` of the base model is an optional field. No method of this model writes it.
- Aliasing: the controller mutates the feature object that the model's map shares. The model replaces the map entry instead, with the same observable result on the map.
- Model.PedagogyModel.GenerateAccessibleDocument: reads the profile and the catalogue through `ProfileOf` and `CognitiveBreaks`, which are the entries of the constructor's tables. The `generic` fallback of the catalogue lookup (line 644) is therefore never taken.
- PdfExport.PdfExportConfigSpec: the feature bags are ordered key–value lists. Distinct keys are not claimed.
- `calculateComplexityScore` is a function specified by its definition. The properties claimed for it are those of `Classify.EmptyDocumentIsSuperieur`, `Classify.SingleWordScore` and `Classify.OneWordScore`; the general average over several words is not restated.
- Controller.GradeOf: takes integer scores. Validation scores are always integers, but a fractional score passed by another caller is not modelled.
- The rest of the controller: routing, views, uploads and progress display are not modelled.

## Findings

| source | as written | input that shows it | evidently intended | confidence | as-written member | corrected member |
|---|---|---|---|---|---|---|
| assets/js/models/UniversalPedagogyModel.js:61-62 | the head template tests a variable `discipline` that `generateHTMLHead` never declares, so generating any document throws `ReferenceError: discipline is not defined` unless the page happens to define a global of that name | any analysis, on a page without a global `discipline` | test `analysis.discipline`, linking KaTeX for mathematics | not executed | DocumentFacts.AsWrittenThrows | DocumentFacts.HeadLinks |
