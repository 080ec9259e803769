/**
 * The extractors of the analysis step: pedagogical objectives, visual
 * elements, frequency-ranked search keywords, the two resource needs,
 * specialised vocabulary, exercise cues and transversal skills.
 */
module Extract {
  import opened Text
  import opened Seqs
  import opened Registry

  // ---------------------------------------------------------------- objectives

  /** The three objectives of `extractPedagogicalObjectives`. */
  datatype Objectives = Objectives(cognitif: string, methodologique: string, transversal: string)

  /** The fallback for every discipline the objectives table does not list. */
  const GenericObjectives: Objectives := Objectives(
    "Acquérir les connaissances de base",
    "Développer les compétences méthodologiques",
    "Favoriser l'autonomie et la curiosité")

  /** The objectives of the three disciplines the table lists. */
  const MathematicsObjectives: Objectives := Objectives(
    "Comprendre et appliquer les concepts mathématiques",
    "Développer le raisonnement logique et la résolution de problèmes",
    "Utiliser les mathématiques dans des contextes variés")

  const LiteratureObjectives: Objectives := Objectives(
    "Analyser et interpréter les textes littéraires",
    "Développer l'expression écrite et orale",
    "Cultiver la sensibilité artistique et l'esprit critique")

  const ScienceObjectives: Objectives := Objectives(
    "Comprendre les phénomènes naturels et les lois scientifiques",
    "Maîtriser la démarche scientifique",
    "Développer l'esprit d'observation et d'analyse")

  /** Only mathematics, literature and science have objectives of their own. */
  function PedagogicalObjectives(d: Discipline): (o: Objectives)
    ensures o == GenericObjectives <==> d !in {Mathematics, Literature, Science}
  {
    match d
    case Mathematics => MathematicsObjectives
    case Literature => LiteratureObjectives
    case Science => ScienceObjectives
    case _ => GenericObjectives
  }

  // ---------------------------------------------------------------- visual elements

  /** The elements the visual-keyword table lists. */
  const VisualKeywordElements: set<string> :=
    {"graphiques", "schémas", "formules", "portraits", "cartes", "photos"}

  /** `getVisualKeywords(element)`: the table's four cues, or the element's own name. */
  function VisualKeywords(element: string): seq<string> {
    if element == "graphiques" then ["graphique", "courbe", "diagramme", "histogramme"]
    else if element == "schémas" then ["schéma", "figure", "illustration", "représentation"]
    else if element == "formules" then ["formule", "équation", "calcul", "expression"]
    else if element == "portraits" then ["auteur", "écrivain", "personnage", "portrait"]
    else if element == "cartes" then ["carte", "géographie", "territoire", "région"]
    else if element == "photos" then ["photo", "image", "illustration", "document"]
    else [element]
  }

  /** A listed element has the table's four cues; any other element is its own cue. */
  lemma VisualKeywordsSpec(element: string)
    ensures element in VisualKeywordElements ==> |VisualKeywords(element)| == 4
    ensures element !in VisualKeywordElements ==> VisualKeywords(element) == [element]
  {
  }

  /** Some cue of `element` occurs in the lower-cased text `t`. */
  predicate VisualNeeded(t: string, element: string) {
    MentionsAny(t, VisualKeywords(element))
  }

  /** The test applied to each visual element of the profile. */
  function VisualTest(t: string): string -> bool {
    e => VisualNeeded(t, e)
  }

  /** The visual elements the text calls for, in profile order. */
  function VisualElementsFor(t: string, d: Discipline): (detected: seq<string>)
    ensures forall e :: e in detected <==> e in DisciplineVisuals(d) && VisualNeeded(t, e)
    ensures IsSubseq(detected, DisciplineVisuals(d))
  {
    Filter(DisciplineVisuals(d), VisualTest(t))
  }

  /**
   * `identifyVisualElements(content, discipline)` on the lower-cased content:
   * the profile's visual elements whose cues occur, in profile order.
   */
  method IdentifyVisualElements(t: string, d: Discipline) returns (detected: seq<string>)
    ensures detected == VisualElementsFor(t, d)
  {
    detected := SelectWhere(DisciplineVisuals(d), VisualTest(t));
  }

  // ---------------------------------------------------------------- search keywords

  /** One entry of `Object.entries(frequency)`. */
  datatype WordCount = WordCount(word: string, count: nat)

  /** How often `w` occurs in `words`. */
  function Occurrences(words: seq<string>, w: string): nat {
    multiset(words)[w]
  }

  /** `Object.entries(frequency)`: each distinct word with its count, by first occurrence. */
  function FrequencyTable(words: seq<string>): seq<WordCount> {
    var keys := Dedup(words);
    seq(|keys|, i requires 0 <= i < |keys| => WordCount(keys[i], Occurrences(words, keys[i])))
  }

  /** The words of a list of entries. */
  function WordsOf(s: seq<WordCount>): (r: seq<string>)
    ensures |r| == |s| && forall i | 0 <= i < |s| :: r[i] == s[i].word
  {
    seq(|s|, i requires 0 <= i < |s| => s[i].word)
  }

  /** Counts never increase along `s`. */
  predicate NonIncreasing(s: seq<WordCount>) {
    forall i, j | 0 <= i < j < |s| :: s[i].count >= s[j].count
  }

  /** The entries of count `c`, in order. */
  function WithCount(s: seq<WordCount>, c: nat): (r: seq<WordCount>)
    ensures forall x | x in r :: x in s && x.count == c
  {
    if s == [] then [] else (if s[0].count == c then [s[0]] else []) + WithCount(s[1..], c)
  }

  /** Insertion of `e` before the first entry whose count is not larger. */
  function InsertByCount(e: WordCount, s: seq<WordCount>): (r: seq<WordCount>)
    ensures multiset(r) == multiset(s) + multiset{e}
  {
    if s == [] || s[0].count <= e.count then [e] + s
    else
      assert s == [s[0]] + s[1..];
      [s[0]] + InsertByCount(e, s[1..])
  }

  /** Putting an entry at least as large as every other in front keeps the order. */
  lemma ConsNonIncreasing(h: WordCount, s: seq<WordCount>)
    requires NonIncreasing(s)
    requires forall x | x in s :: x.count <= h.count
    ensures NonIncreasing([h] + s)
  {
    var r := [h] + s;
    forall i, j | 0 <= i < j < |r| ensures r[i].count >= r[j].count {
      if i > 0 {
        assert r[i] == s[i - 1] && r[j] == s[j - 1];
      } else {
        assert r[j] in s;
      }
    }
  }

  /** Insertion into a non-increasing list keeps it non-increasing. */
  lemma {:induction false} InsertKeepsOrder(e: WordCount, s: seq<WordCount>)
    requires NonIncreasing(s)
    ensures NonIncreasing(InsertByCount(e, s))
  {
    if s != [] && s[0].count > e.count {
      var rest := InsertByCount(e, s[1..]);
      assert NonIncreasing(s[1..]);
      InsertKeepsOrder(e, s[1..]);
      forall x | x in rest ensures x.count <= s[0].count {
        assert x in multiset(rest);
        assert x in multiset(s[1..]) || x == e;
      }
      ConsNonIncreasing(s[0], rest);
    }
  }

  /** The entries of one count in a list with one more entry in front. */
  lemma WithCountCons(h: WordCount, s: seq<WordCount>, c: nat)
    ensures WithCount([h] + s, c) == (if h.count == c then [h] else []) + WithCount(s, c)
  {
    assert ([h] + s)[0] == h && ([h] + s)[1..] == s;
  }

  /** Among the entries of one count, the inserted entry comes first. */
  lemma {:induction false} InsertWithCount(e: WordCount, s: seq<WordCount>, c: nat)
    ensures WithCount(InsertByCount(e, s), c) == (if e.count == c then [e] else []) + WithCount(s, c)
  {
    if s == [] || s[0].count <= e.count {
      WithCountCons(e, s, c);
    } else {
      var rest := InsertByCount(e, s[1..]);
      assert InsertByCount(e, s) == [s[0]] + rest;
      InsertWithCount(e, s[1..], c);
      WithCountCons(s[0], rest, c);
      WithCountCons(s[0], s[1..], c);
      assert [s[0]] + s[1..] == s;
      var later := WithCount(s[1..], c);
      if e.count == c {
        assert s[0].count != c;
        assert [] + ([e] + later) == [e] + ([] + later);
      } else {
        assert [] + later == later;
      }
    }
  }

  /** `.sort(([, a], [, b]) => b - a)`: insertion sort, a permutation of `s`. */
  function SortByCount(s: seq<WordCount>): (r: seq<WordCount>)
    ensures multiset(r) == multiset(s)
  {
    if s == [] then []
    else
      assert s == [s[0]] + s[1..];
      InsertByCount(s[0], SortByCount(s[1..]))
  }

  /**
   * The sort is the stable one the comparator asks for: counts in
   * non-increasing order, and the entries of any one count in their
   * original order.
   */
  lemma {:induction false} SortByCountSpec(s: seq<WordCount>)
    ensures NonIncreasing(SortByCount(s))
    ensures forall c: nat :: WithCount(SortByCount(s), c) == WithCount(s, c)
  {
    if s != [] {
      SortByCountSpec(s[1..]);
      InsertKeepsOrder(s[0], SortByCount(s[1..]));
      forall c: nat ensures WithCount(SortByCount(s), c) == WithCount(s, c) {
        InsertWithCount(s[0], SortByCount(s[1..]), c);
      }
    }
  }

  /** `.slice(0, n).map(([word]) => word)`. */
  function TopWords(sorted: seq<WordCount>, n: nat): seq<string> {
    WordsOf(sorted[..if |sorted| < n then |sorted| else n])
  }

  /** `generateSearchKeywords`: the discipline key, then the five most frequent words. */
  function SearchKeywords(key: string, words: seq<string>): seq<string> {
    [key] + TopWords(SortByCount(FrequencyTable(words)), 5)
  }

  /** `frequency[word] = (frequency[word] || 0) + 1`. */
  function Bump(frequency: map<string, nat>, w: string): map<string, nat> {
    if w in frequency then frequency[w := frequency[w] + 1] else frequency[w := 1]
  }

  /** Counting one more word keeps the table equal to the occurrence counts. */
  lemma BumpCounts(pre: seq<string>, w: string, f: map<string, nat>)
    requires forall x | x in f :: f[x] == Occurrences(pre, x)
    requires forall x :: x in f <==> x in pre
    ensures forall x | x in Bump(f, w) :: Bump(f, w)[x] == Occurrences(pre + [w], x)
    ensures forall x :: x in Bump(f, w) <==> x in pre + [w]
  {
    assert multiset(pre + [w]) == multiset(pre) + multiset{w};
  }

  /**
   * The `forEach` that fills the `frequency` object: its keys in insertion
   * order, and the count of each.
   */
  method CountWords(words: seq<string>) returns (frequency: map<string, nat>, order: seq<string>)
    ensures order == Dedup(words)
    ensures forall w :: w in frequency <==> w in words
    ensures forall w | w in frequency :: frequency[w] == Occurrences(words, w)
  {
    frequency := map[];
    order := [];
    for i := 0 to |words|
      invariant order == Dedup(words[..i])
      invariant forall x :: x in frequency <==> x in words[..i]
      invariant forall x :: x in order <==> x in frequency
      invariant forall x | x in frequency :: frequency[x] == Occurrences(words[..i], x)
    {
      var w := words[i];
      assert words[..i + 1] == words[..i] + [w];
      DedupSnoc(words[..i], w);
      BumpCounts(words[..i], w, frequency);
      if w !in frequency {
        order := order + [w];
      }
      frequency := Bump(frequency, w);
    }
    assert words[..|words|] == words;
  }

  /**
   * `generateSearchKeywords(content, discipline)`: `words` are the matches of
   * `\b\w{4,}\b` in the lower-cased content and `key` is the discipline key.
   */
  method GenerateSearchKeywords(key: string, words: seq<string>) returns (r: seq<string>)
    ensures r == SearchKeywords(key, words)
  {
    var frequency, order := CountWords(words);
    DedupSpec(words);
    assert forall k | 0 <= k < |order| :: order[k] in words;
    var entries := seq(|order|, k requires 0 <= k < |order| => WordCount(order[k], frequency[order[k]]));
    assert entries == FrequencyTable(words);
    var sorted := SortByCount(entries);
    r := [key] + TopWords(sorted, 5);
  }

  /** The frequency table lists every distinct word once, with its number of occurrences. */
  lemma FrequencyTableSpec(words: seq<string>)
    ensures WordsOf(FrequencyTable(words)) == Dedup(words)
    ensures forall x | x in FrequencyTable(words) :: x.word in words && x.count == Occurrences(words, x.word) && x.count > 0
    ensures forall w | w in words :: WordCount(w, Occurrences(words, w)) in FrequencyTable(words)
  {
    var table := FrequencyTable(words);
    var keys := Dedup(words);
    DedupSpec(words);
    forall w | w in words ensures WordCount(w, Occurrences(words, w)) in table {
      var k :| 0 <= k < |keys| && keys[k] == w;
      assert table[k] == WordCount(w, Occurrences(words, w));
    }
  }

  /** Keeping only the entries of one count keeps first-occurrence order. */
  lemma {:induction false} WithCountFirstOrder(words: seq<string>, s: seq<WordCount>, c: nat)
    requires FirstOrder(words, WordsOf(s))
    ensures FirstOrder(words, WordsOf(WithCount(s, c)))
    decreases |s|
  {
    if s != [] {
      var ws := WordsOf(s);
      assert WordsOf(s[1..]) == ws[1..];
      FirstOrderTail(words, ws);
      WithCountFirstOrder(words, s[1..], c);
      if s[0].count == c {
        var rest := WordsOf(WithCount(s[1..], c));
        forall y | y in rest ensures Before(words, s[0].word, y) {
          var k :| 0 <= k < |rest| && rest[k] == y;
          assert WithCount(s[1..], c)[k] in s[1..];
          var m :| 0 <= m < |s[1..]| && s[1..][m] == WithCount(s[1..], c)[k];
          assert ws[1..][m] == y;
          FirstBeforeRest(words, ws, y);
        }
        FirstOrderCons(words, s[0].word, rest);
        assert WordsOf(WithCount(s, c)) == [s[0].word] + rest;
      } else {
        assert WithCount(s, c) == WithCount(s[1..], c);
      }
    }
  }

  /**
   * The frequency ranking: counts in non-increasing order, every entry of the
   * table kept, and the words of equal count in the order they first occur
   * (the sort is stable over a table in first-occurrence order).
   */
  lemma RankingSpec(words: seq<string>)
    ensures var sorted := SortByCount(FrequencyTable(words));
      && NonIncreasing(sorted)
      && multiset(sorted) == multiset(FrequencyTable(words))
      && forall c: nat :: FirstOrder(words, WordsOf(WithCount(sorted, c)))
  {
    var table := FrequencyTable(words);
    FrequencyTableSpec(words);
    DedupSpec(words);
    SortByCountSpec(table);
    forall c: nat ensures FirstOrder(words, WordsOf(WithCount(SortByCount(table), c))) {
      WithCountFirstOrder(words, table, c);
    }
  }

  /** The sorted table: one entry per distinct word, carrying that word's count. */
  lemma {:induction false} SortedTableSpec(words: seq<string>)
    ensures var sorted := SortByCount(FrequencyTable(words));
      && |sorted| == |Dedup(words)|
      && NonIncreasing(sorted)
      && forall i | 0 <= i < |sorted| :: sorted[i].word in words && sorted[i].count == Occurrences(words, sorted[i].word)
  {
    var table := FrequencyTable(words);
    var sorted := SortByCount(table);
    FrequencyTableSpec(words);
    SortByCountSpec(table);
    assert |sorted| == |table| by {
      assert |multiset(sorted)| == |multiset(table)|;
    }
    forall i | 0 <= i < |sorted|
      ensures sorted[i].word in words && sorted[i].count == Occurrences(words, sorted[i].word)
    {
      assert sorted[i] in multiset(table);
    }
  }

  /** Where a word of the text sits in the sorted table. */
  lemma EntryOf(words: seq<string>, w: string) returns (p: nat)
    requires w in words
    ensures var sorted := SortByCount(FrequencyTable(words));
      p < |sorted| && sorted[p] == WordCount(w, Occurrences(words, w))
  {
    var table := FrequencyTable(words);
    var sorted := SortByCount(table);
    FrequencyTableSpec(words);
    var e := WordCount(w, Occurrences(words, w));
    assert e in multiset(sorted);
    p :| 0 <= p < |sorted| && sorted[p] == e;
  }

  /** The keywords after the key are the words of the first entries of the sorted table. */
  lemma KeywordPositions(key: string, words: seq<string>)
    ensures var sorted := SortByCount(FrequencyTable(words));
      var r := SearchKeywords(key, words);
      && r[0] == key
      && |r| == 1 + (if |sorted| < 5 then |sorted| else 5)
      && forall i | 1 <= i < |r| :: r[i] == sorted[i - 1].word
  {
    var sorted := SortByCount(FrequencyTable(words));
    var n := if |sorted| < 5 then |sorted| else 5;
    var r := SearchKeywords(key, words);
    forall i | 1 <= i < |r| ensures r[i] == sorted[i - 1].word {
      assert r[i] == WordsOf(sorted[..n])[i - 1];
    }
  }

  /**
   * What `generateSearchKeywords` promises: the discipline key first, then at
   * most five words of the text, no fewer than five when the text has that
   * many distinct ones, by non-increasing frequency, and none of the words
   * left out more frequent than one that was kept.
   */
  lemma {:induction false} SearchKeywordsSpec(key: string, words: seq<string>)
    ensures var r := SearchKeywords(key, words);
      && r[0] == key
      && |r| == 1 + (if |Dedup(words)| < 5 then |Dedup(words)| else 5)
      && (forall i | 1 <= i < |r| :: r[i] in words)
      && (forall i, j | 1 <= i < j < |r| :: Occurrences(words, r[i]) >= Occurrences(words, r[j]))
      && (forall w, i | w in words && w !in r[1..] && 1 <= i < |r| :: Occurrences(words, w) <= Occurrences(words, r[i]))
  {
    var sorted := SortByCount(FrequencyTable(words));
    SortedTableSpec(words);
    KeywordPositions(key, words);
    var r := SearchKeywords(key, words);
    forall w, i | w in words && w !in r[1..] && 1 <= i < |r|
      ensures Occurrences(words, w) <= Occurrences(words, r[i])
    {
      var p := EntryOf(words, w);
      assert p >= |r| - 1 by {
        assert forall q | 0 <= q < |r| - 1 :: r[1..][q] == sorted[q].word;
      }
      assert sorted[i - 1].count >= sorted[p].count;
    }
  }

  // ---------------------------------------------------------------- resources needed

  /** One entry of `identifyResourcesNeeded`. */
  datatype ResourceNeed = ResourceNeed(kind: string, description: string, sources: seq<string>, keywords: seq<string>)

  /** The two resource needs, given the search keywords of the main illustration. */
  function NeedsFor(d: Discipline, keywords: seq<string>): seq<ResourceNeed> {
    [ ResourceNeed("image-principale", "Illustration principale pour " + DisciplineName(d),
        ["Unsplash", "Wikimedia Commons", "Archives éducatives"], keywords),
      ResourceNeed("schéma-explicatif", "Schéma ou diagramme explicatif",
        ["OpenStax", "Ressources éducatives libres"], ["diagram", "schema", Key(d)]) ]
  }

  /** `identifyResourcesNeeded(content, discipline)`; `words` as for the search keywords. */
  function ResourcesNeeded(d: Discipline, words: seq<string>): seq<ResourceNeed> {
    NeedsFor(d, SearchKeywords(Key(d), words))
  }

  /**
   * There are always two needs, a main illustration and an explanatory
   * diagram. The illustration is searched with the text's search keywords:
   * the discipline key, then the most frequent words of the text. The diagram
   * is searched with "diagram", "schema" and the discipline key.
   */
  lemma ResourcesNeededSpec(d: Discipline, words: seq<string>)
    ensures var r := ResourcesNeeded(d, words);
      && |r| == 2
      && r[0].kind == "image-principale" && r[1].kind == "schéma-explicatif"
      && r[0].keywords == SearchKeywords(Key(d), words)
      && |r[0].keywords| <= 6 && r[0].keywords[0] == Key(d)
      && (forall i | 1 <= i < |r[0].keywords| :: r[0].keywords[i] in words)
      && r[1].keywords == ["diagram", "schema", Key(d)]
      && Key(d) in r[1].keywords
  {
    SearchKeywordsSpec(Key(d), words);
  }

  // ---------------------------------------------------------------- vocabulary

  /** The labels of `assessTermDifficulty`. */
  datatype Difficulty = Facile | Moyen | Difficile

  /** The label string. */
  function DifficultyKey(x: Difficulty): string {
    match x
    case Facile => "facile"
    case Moyen => "moyen"
    case Difficile => "difficile"
  }

  /** `assessTermDifficulty(term)`: by length, under 6, under 10, or longer. */
  function AssessTermDifficulty(term: string): (r: Difficulty)
    ensures r == Facile <==> |term| < 6
    ensures r == Moyen <==> 6 <= |term| < 10
    ensures r == Difficile <==> |term| >= 10
  {
    if |term| < 6 then Facile
    else if |term| < 10 then Moyen
    else Difficile
  }

  /**
   * `generatePronunciation(term)`: the lower-cased term (`lower` is
   * `toLowerCase`) with `qu` written `k` and then `ch` written `ʃ`, in brackets.
   */
  function GeneratePronunciation(lower: string -> string, term: string): string {
    "[" + ReplaceAll(ReplaceAll(lower(term), "qu", "k"), "ch", "ʃ") + "]"
  }

  /** The transcription is bracketed and has no `qu` and no `ch` left. */
  lemma PronunciationSpec(lower: string -> string, term: string)
    ensures var p := GeneratePronunciation(lower, term);
      && |p| >= 2 && p[0] == '[' && p[|p| - 1] == ']'
      && !Contains(p[1..|p| - 1], "qu") && !Contains(p[1..|p| - 1], "ch")
  {
    var once := ReplaceAll(lower(term), "qu", "k");
    var twice := ReplaceAll(once, "ch", "ʃ");
    ReplacePairRemoves(lower(term), 'q', 'u', 'k');
    ReplacePairKeepsAbsent(once, 'c', 'h', 'ʃ', 'q', 'u');
    ReplacePairRemoves(once, 'c', 'h', 'ʃ');
    var p := GeneratePronunciation(lower, term);
    assert p[1..|p| - 1] == twice;
  }

  /** One entry of the specialised vocabulary. */
  datatype VocabularyEntry = VocabularyEntry(term: string, definition: string, pronunciation: string, difficulty: Difficulty)

  /** The placeholder definition of `term` in the discipline named `name`. */
  function Definition(term: string, name: string): string {
    "Définition de " + term + " dans le contexte de " + name
  }

  /** The definition mentions both the term and the discipline. */
  lemma DefinitionMentions(term: string, name: string)
    ensures Contains(Definition(term, name), term) && Contains(Definition(term, name), name)
  {
    var a := "Définition de ";
    var b := " dans le contexte de ";
    ContainsSelf(term);
    ContainsInfix(a, term, b + name, term);
    assert a + term + (b + name) == Definition(term, name);
    ContainsSelf(name);
    ContainsInfix(a + term + b, name, "", name);
    assert a + term + b + name + "" == Definition(term, name);
  }

  /** `word.length > 4`. */
  predicate IsLongTerm(w: string) {
    |w| > 4
  }

  /** `[...new Set(words)].filter(word => word.length > 4).slice(0, 10)`. */
  function VocabularyTerms(words: seq<string>): seq<string> {
    var c := Filter(Dedup(words), IsLongTerm);
    c[..if |c| < 10 then |c| else 10]
  }

  /**
   * `extractSpecializedVocabulary(content, discipline)`: `words` are the
   * capitalised words of the content; each term gets a definition naming the
   * discipline, a pronunciation and a difficulty.
   */
  function SpecializedVocabulary(lower: string -> string, words: seq<string>, d: Discipline): seq<VocabularyEntry> {
    var terms := VocabularyTerms(words);
    seq(|terms|, i requires 0 <= i < |terms| =>
      VocabularyEntry(terms[i],
        Definition(terms[i], DisciplineName(d)),
        GeneratePronunciation(lower, terms[i]),
        AssessTermDifficulty(terms[i])))
  }

  /**
   * The vocabulary terms: at most ten distinct words of more than four
   * characters, in first-occurrence order, and they are the first ten such
   * words: one left out can only be one that first occurs after all ten.
   */
  lemma {:induction false} VocabularyTermsSpec(words: seq<string>)
    ensures var terms := VocabularyTerms(words);
      && |terms| <= 10
      && Distinct(terms)
      && (forall i | 0 <= i < |terms| :: terms[i] in words && |terms[i]| > 4)
      && FirstOrder(words, terms)
      && (forall w | w in words && |w| > 4 && w !in terms ::
            |terms| == 10 && forall i | 0 <= i < 10 :: Before(words, terms[i], w))
  {
    var c := Filter(Dedup(words), IsLongTerm);
    LongCandidates(words);
    var n := if |c| < 10 then |c| else 10;
    FirstOrderPrefix(words, c, n);
    assert c[..n] == VocabularyTerms(words);
    forall w | w in words && |w| > 4 && w !in c[..n]
      ensures |c[..n]| == 10
    {
      assert w in c;
    }
  }

  /** The candidates before the cut: the distinct long words, by first occurrence. */
  lemma LongCandidates(words: seq<string>)
    ensures var c := Filter(Dedup(words), IsLongTerm);
      && FirstOrder(words, c)
      && (forall x | x in c :: x in words && |x| > 4)
      && (forall w | w in words && |w| > 4 :: w in c)
  {
    DedupSpec(words);
    FilterFirstOrder(words, Dedup(words), IsLongTerm);
  }

  /** Every entry carries its own term, and its definition names the term and the discipline. */
  lemma SpecializedVocabularySpec(lower: string -> string, words: seq<string>, d: Discipline)
    ensures var v := SpecializedVocabulary(lower, words, d);
      && |v| == |VocabularyTerms(words)|
      && forall i | 0 <= i < |v| ::
           && v[i].term == VocabularyTerms(words)[i]
           && Contains(v[i].definition, v[i].term)
           && Contains(v[i].definition, DisciplineName(d))
  {
    var v := SpecializedVocabulary(lower, words, d);
    forall i | 0 <= i < |v|
      ensures Contains(v[i].definition, v[i].term) && Contains(v[i].definition, DisciplineName(d))
    {
      DefinitionMentions(v[i].term, DisciplineName(d));
    }
  }

  // ---------------------------------------------------------------- exercises

  /** The exercise cues; disciplines without their own list use the generic one. */
  function ExercisePatterns(d: Discipline): (ps: seq<string>)
    ensures d !in {Mathematics, Literature, Science} ==> ps == ["question", "exercice", "activité"]
  {
    match d
    case Mathematics => ["calculer", "résoudre", "démontrer", "construire", "tracer"]
    case Literature => ["analyser", "commenter", "rédiger", "expliquer", "interpréter"]
    case Science => ["observer", "expérimenter", "conclure", "hypothèse", "protocole"]
    case _ => ["question", "exercice", "activité"]
  }

  /**
   * `identifyExercises(content, discipline)` on the lower-cased content: the
   * cues that occur in it, in table order.
   */
  function IdentifyExercises(t: string, d: Discipline): (r: seq<string>)
    ensures forall p :: p in r <==> p in ExercisePatterns(d) && Contains(t, p)
    ensures IsSubseq(r, ExercisePatterns(d))
  {
    Filter(ExercisePatterns(d), p => Contains(t, p))
  }

  // ---------------------------------------------------------------- transversal skills

  /** The skills of the table, in its order. */
  const SkillNames: seq<string> := ["lecture", "raisonnement", "créativité", "communication", "autonomie"]

  /** The cue words of a skill. */
  function SkillKeywords(skill: string): seq<string> {
    if skill == "lecture" then ["lire", "comprendre", "analyser"]
    else if skill == "raisonnement" then ["réfléchir", "déduire", "logique"]
    else if skill == "créativité" then ["créer", "imaginer", "inventer"]
    else if skill == "communication" then ["expliquer", "présenter", "argumenter"]
    else if skill == "autonomie" then ["rechercher", "organiser", "planifier"]
    else []
  }

  /** The test applied to each skill. */
  function SkillTest(t: string): string -> bool {
    s => MentionsAny(t, SkillKeywords(s))
  }

  /** The skills whose cues occur in `t`, in table order. */
  function TransversalSkills(t: string): (skills: seq<string>)
    ensures forall s :: s in skills <==> s in SkillNames && MentionsAny(t, SkillKeywords(s))
    ensures IsSubseq(skills, SkillNames)
  {
    Filter(SkillNames, SkillTest(t))
  }

  /**
   * `identifyTransversalSkills(content)` on the lower-cased content: the skills
   * with a cue in the text, in table order.
   */
  method IdentifyTransversalSkills(t: string) returns (skills: seq<string>)
    ensures skills == TransversalSkills(t)
  {
    skills := SelectWhere(SkillNames, SkillTest(t));
  }
}
