/**
 * Sócrates, the research agent: the rule-based reading of a question, its
 * division into sub-queries, the simulated searches that turn a sub-query
 * into pointers, the selection of the best pointers and the rule-based
 * synthesis, driven through a five-node workflow whose collection node may
 * loop on itself.
 */
module Socrates {
  import opened Common
  import opened Workflow

  // ================================================================ data model

  datatype QueryType = Factual | Exploratoria | Analitica | Comparativa | Procedural | Temporal

  datatype SearchStrategy = VectorPuro | GrafoPuro | GrafoRag | Hibrido | EntidadPrimero

  datatype SubQuery = SubQuery(
    id: string,
    query: string,
    queryType: QueryType,
    strategy: SearchStrategy,
    priority: int,
    dependencies: seq<string>,
    expectedEntities: seq<string>)

  /** A reference to stored knowledge, with a short preview instead of the content. */
  datatype Pointer = Pointer(
    pointerId: string,
    pointerType: string,
    sourceId: string,
    relevanceScore: real,
    accessPath: string,
    metadata: map<string, string>,
    snippet: string)

  datatype SearchResult = SearchResult(subqueryId: string, pointers: seq<Pointer>, strategyUsed: SearchStrategy)

  /** An entry of the answer's source list. */
  datatype Source = Source(id: string, kind: string)

  // ================================================================ reading the question

  const ProceduralWords: seq<string> := ["cómo", "pasos", "proceso", "guía"]
  const ComparativeWords: seq<string> := ["comparar", "diferencia", "versus", "vs"]
  const AnalyticWords: seq<string> := ["por qué", "explica", "análisis"]
  const TemporalWords: seq<string> := ["cuándo", "histórico", "evolución"]
  const Connectors: seq<string> := ["y", "o", "pero", "además", "sin embargo"]

  /** The question's type by keyword, the first matching bucket winning. */
  function HeuristicQueryType(lower: string): (t: QueryType)
    ensures t == Procedural <==> MentionsAny(lower, ProceduralWords)
    ensures t == Comparativa <==> !MentionsAny(lower, ProceduralWords) && MentionsAny(lower, ComparativeWords)
    ensures t == Analitica <==>
      !MentionsAny(lower, ProceduralWords) && !MentionsAny(lower, ComparativeWords) && MentionsAny(lower, AnalyticWords)
    ensures t == Temporal <==>
      !MentionsAny(lower, ProceduralWords) && !MentionsAny(lower, ComparativeWords)
      && !MentionsAny(lower, AnalyticWords) && MentionsAny(lower, TemporalWords)
    ensures t != Exploratoria
  {
    if MentionsAny(lower, ProceduralWords) then Procedural
    else if MentionsAny(lower, ComparativeWords) then Comparativa
    else if MentionsAny(lower, AnalyticWords) then Analitica
    else if MentionsAny(lower, TemporalWords) then Temporal
    else Factual
  }

  /** How many of the connectors occur in the text, as substrings. */
  function ConnectorCount(lower: string): (c: nat)
    ensures c <= |Connectors|
  {
    CountWhere(Connectors, (w: string) => Contains(lower, w))
  }

  /** `words / 20 + connectors * 0.1`, before the cap at 1. */
  function RawComplexity(words: nat, connectors: nat): real
  {
    (words as real) / 20.0 + (connectors as real) * 0.1
  }

  /** `min(1.0, RawComplexity(...))` for the question's whitespace-separated words and connectors. */
  function Complexity(query: string): (c: real)
    ensures 0.0 <= c <= 1.0
    ensures var raw := RawComplexity(|Words(query)|, ConnectorCount(Lower(query)));
      (c == 1.0 <==> raw >= 1.0) && (raw < 1.0 ==> c == raw)
  {
    var raw := RawComplexity(|Words(query)|, ConnectorCount(Lower(query)));
    if raw < 1.0 then raw else 1.0
  }

  /**
   * The (words, connectors) pairs whose sum is exactly 0.6 in real numbers
   * but which IEEE double arithmetic rounds up to 0.6000000000000001: there
   * `min(1.0, words / 20 + connectors * 0.1) > 0.6` holds in the program.
   */
  const RoundedUpTies: seq<(nat, nat)> := [(4, 4), (6, 3), (8, 2)]

  /** The decomposition test `min(1.0, words / 20 + connectors * 0.1) > 0.6` as evaluated in doubles. */
  predicate AboveSixTenthsInDoubles(words: nat, connectors: nat)
  {
    RawComplexity(words, connectors) > 0.6 || (words, connectors) in RoundedUpTies
  }

  /** The sum is exactly 0.6 for six pairs with at most five connectors; doubles round three of them up. */
  lemma ExactTies(words: nat, connectors: nat)
    requires connectors <= 5
    ensures RawComplexity(words, connectors) == 0.6 <==>
      (words, connectors) in [(12, 0), (10, 1), (8, 2), (6, 3), (4, 4), (2, 5)]
    ensures AboveSixTenthsInDoubles(words, connectors) != (RawComplexity(words, connectors) > 0.6) <==>
      (words, connectors) in RoundedUpTies
  {
    assert RawComplexity(words, connectors) == 0.6 <==> words + 2 * connectors == 12;
  }

  /** What the intent analysis sets on the state. */
  datatype Analysis = Analysis(queryType: QueryType, complexity: real, requiresDecomposition: bool, userIntent: string)

  /** `_maieutica_heuristica`: type by keywords, complexity by length and connectors; decomposition past 0.6. */
  function MaieuticaHeuristic(query: string): (a: Analysis)
    ensures a.queryType == HeuristicQueryType(Lower(query))
    ensures a.complexity == Complexity(query) && 0.0 <= a.complexity <= 1.0
    ensures var w, n := |Words(query)|, ConnectorCount(Lower(query));
      a.requiresDecomposition <==> a.complexity > 0.6 || (w, n) in RoundedUpTies
    ensures a.userIntent == query
  {
    var c := Complexity(query);
    var w, n := |Words(query)|, ConnectorCount(Lower(query));
    Analysis(HeuristicQueryType(Lower(query)), c, AboveSixTenthsInDoubles(w, n), query)
  }

  /**
   * In the three rounded-up cases the stored score is exactly 0.6, yet the
   * question is divided: the flag, not the score, sends the router to the
   * division.
   */
  lemma RoundedUpTiesAreDivided(query: string)
    requires (|Words(query)|, ConnectorCount(Lower(query))) in RoundedUpTies
    ensures MaieuticaHeuristic(query).complexity == 0.6
    ensures MaieuticaHeuristic(query).requiresDecomposition
    ensures DecisionMaieutica(View(false, true, MaieuticaHeuristic(query).complexity, 0)) == Complejo
    ensures DecisionMaieutica(View(false, MaieuticaHeuristic(query).complexity > 0.6, MaieuticaHeuristic(query).complexity, 0)) == Simple
  {
  }

  /** Complexity grows with the number of words and of connectors. */
  lemma ComplexityMonotone(w1: nat, c1: nat, w2: nat, c2: nat)
    requires w1 <= w2 && c1 <= c2
    ensures RawComplexity(w1, c1) <= RawComplexity(w2, c2)
  {
  }

  /** A question of thirteen words or more is always divided. */
  lemma LongQuestionsAreDivided(query: string)
    requires |Words(query)| >= 13
    ensures MaieuticaHeuristic(query).requiresDecomposition
  {
    var raw := RawComplexity(|Words(query)|, ConnectorCount(Lower(query)));
    assert raw >= 13.0 / 20.0;
  }

  // ================================================================ dividing the question

  const Separators: seq<string> := [" y ", " además ", ", ", "; "]

  /** The index of the first separator that occurs in the question, or `|Separators|` when none does. */
  function FirstSeparator(query: string, from: nat): (k: nat)
    requires from <= |Separators|
    decreases |Separators| - from
    ensures from <= k <= |Separators|
    ensures k < |Separators| ==> Contains(query, Separators[k])
    ensures forall j :: from <= j < k ==> !Contains(query, Separators[j])
  {
    if from == |Separators| then from
    else if Contains(query, Separators[from]) then from
    else FirstSeparator(query, from + 1)
  }

  /** The parts of the question: split at the first separator it contains, or the whole question. */
  function Partes(query: string): (parts: seq<string>)
    ensures |parts| >= 1
    ensures var k := FirstSeparator(query, 0);
      (k == |Separators| ==> parts == [query])
      && (k < |Separators| ==> |parts| >= 2 && Join(parts, Separators[k]) == query)
  {
    var k := FirstSeparator(query, 0);
    if k == |Separators| then [query]
    else
      JoinSplit(query, Separators[k]);
      SplitOn(query, Separators[k])
  }

  /** Nothing but blanks: what `s.strip()` turns into the empty string. */
  predicate Blank(s: string)
  {
    forall i :: 0 <= i < |s| ==> IsSpace(s[i])
  }

  /** The indices, from `i` on, of the parts that are not blank. */
  function KeptIndices(parts: seq<string>, i: nat): (ks: seq<nat>)
    requires i <= |parts|
    decreases |parts| - i
    ensures forall j :: 0 <= j < |ks| ==> i <= ks[j] < |parts| && !Blank(parts[ks[j]])
    ensures forall j1, j2 :: 0 <= j1 < j2 < |ks| ==> ks[j1] < ks[j2]
    ensures forall k :: i <= k < |parts| && !Blank(parts[k]) ==> k in ks
  {
    if i == |parts| then []
    else if !Blank(parts[i]) then [i] + KeptIndices(parts, i + 1)
    else KeptIndices(parts, i + 1)
  }

  /** The sub-query for part `k`: id `q{k}`, the part stripped, priority `len(parts) - k`. */
  function SubQueryAt(parts: seq<string>, k: nat, t: QueryType): SubQuery
    requires k < |parts|
  {
    SubQuery("q" + NatToString(k), Strip(parts[k]), t, GrafoRag, |parts| - k, [], [])
  }

  /**
   * One graph-RAG sub-query per non-blank part, in order; ids and priorities
   * count every part, blank ones included.
   */
  function SubQueriesOf(parts: seq<string>, t: QueryType): (sqs: seq<SubQuery>)
    ensures forall j :: 0 <= j < |sqs| ==>
      sqs[j].query != "" && sqs[j].strategy == GrafoRag && sqs[j].queryType == t
      && 1 <= sqs[j].priority <= |parts| && sqs[j].dependencies == [] && sqs[j].expectedEntities == []
    ensures forall j1, j2 :: 0 <= j1 < j2 < |sqs| ==> sqs[j1].priority > sqs[j2].priority
  {
    var ks := KeptIndices(parts, 0);
    seq(|ks|, j requires 0 <= j < |ks| => SubQueryAt(parts, ks[j], t))
  }

  /**
   * The division's sub-queries are the non-blank parts in order: the `j`-th
   * is the `j`-th non-blank part stripped, named `q{k}` after its position
   * `k` among all the parts and of priority `len(parts) - k`.
   */
  lemma SubQueriesOfParts(parts: seq<string>, t: QueryType)
    ensures var sqs := SubQueriesOf(parts, t); var ks := KeptIndices(parts, 0);
      |sqs| == |ks|
      && forall j :: 0 <= j < |ks| ==>
           sqs[j].id == "q" + NatToString(ks[j]) && sqs[j].query == Strip(parts[ks[j]])
           && sqs[j].priority == |parts| - ks[j]
  {
  }

  /** `_diairesis_heuristica`: the parts of the question as sub-queries of its type (factual when unknown). */
  function HeuristicSubQueries(query: string, queryType: Option<QueryType>): seq<SubQuery>
  {
    SubQueriesOf(Partes(query), queryType.GetOr(Factual))
  }

  /** The division is empty exactly when every part is blank. */
  lemma SubQueriesEmpty(parts: seq<string>, t: QueryType)
    ensures SubQueriesOf(parts, t) == [] <==> forall k :: 0 <= k < |parts| ==> Blank(parts[k])
  {
    var ks := KeptIndices(parts, 0);
    if SubQueriesOf(parts, t) == [] {
      assert forall k :: 0 <= k < |parts| && !Blank(parts[k]) ==> k in ks;
    } else {
      assert !Blank(parts[ks[0]]);
    }
  }

  /** Every sub-query of the division has its own id. */
  lemma SubQueryIdsDistinct(parts: seq<string>, t: QueryType)
    ensures var sqs := SubQueriesOf(parts, t);
      forall j1, j2 :: 0 <= j1 < j2 < |sqs| ==> sqs[j1].id != sqs[j2].id
  {
    var ks := KeptIndices(parts, 0);
    var sqs := SubQueriesOf(parts, t);
    forall j1, j2 | 0 <= j1 < j2 < |sqs| ensures sqs[j1].id != sqs[j2].id {
      var a, b := ks[j1], ks[j2];
      NatToStringInjective(a, b);
      assert sqs[j1].id[1..] == NatToString(a);
      assert sqs[j2].id[1..] == NatToString(b);
    }
  }

  lemma NatToStringInjective(a: nat, b: nat)
    ensures NatToString(a) == NatToString(b) ==> a == b
  {
    ParseRendered(a);
    ParseRendered(b);
  }

  /** The sub-query the collection node falls back to when there is none. */
  function DefaultSubQuery(query: string): SubQuery
  {
    SubQuery("q0", query, Factual, GrafoRag, 1, [], [])
  }

  // ================================================================ searches

  /** The simulated vector search: three pointers scored 0.9, 0.8 and 0.7. */
  function VectorSearch(sq: SubQuery): (ps: seq<Pointer>)
    ensures |ps| == 3
    ensures forall i :: 0 <= i < 3 ==> ps[i].relevanceScore == 0.9 - (i as real) * 0.1 && ps[i].pointerType == "vector"
    ensures forall i :: 0 <= i < 3 ==> ps[i].metadata == map["strategy" := "vector"]
  {
    seq(3, i requires 0 <= i < 3 =>
      Pointer("vec_" + NatToString(i), "vector", "doc_" + NatToString(i), 0.9 - (i as real) * 0.1,
              "/api/v1/search/vector?q=" + sq.query, map["strategy" := "vector"],
              "Resultado " + NatToString(i) + " para: " + Prefix(sq.query, 50) + "..."))
  }

  /** The simulated graph search: one pointer per expected entity, at most three. */
  function GraphSearch(sq: SubQuery): (ps: seq<Pointer>)
    ensures |ps| == Min(3, |sq.expectedEntities|)
    ensures forall i :: 0 <= i < |ps| ==>
      ps[i].sourceId == sq.expectedEntities[i] && ps[i].relevanceScore == 0.95 && ps[i].pointerType == "entity"
      && ps[i].metadata == map["strategy" := "graph"]
  {
    var es := sq.expectedEntities;
    if |es| == 0 then []
    else
      seq(Min(3, |es|), i requires 0 <= i < Min(3, |es|) =>
        Pointer("ent_" + es[i], "entity", es[i], 0.95, "/api/v1/graph/entity/" + es[i],
                map["strategy" := "graph"], "Entidad: " + es[i]))
  }

  /** `_ejecutar_busqueda`: graph RAG is vector then graph, and the hybrid strategies fall through to it. */
  function ExecuteSearch(sq: SubQuery): (ps: seq<Pointer>)
    ensures sq.strategy == VectorPuro ==> ps == VectorSearch(sq)
    ensures sq.strategy == GrafoPuro ==> ps == GraphSearch(sq)
    ensures sq.strategy !in {VectorPuro, GrafoPuro} ==> ps == VectorSearch(sq) + GraphSearch(sq)
  {
    match sq.strategy
    case VectorPuro => VectorSearch(sq)
    case GrafoPuro => GraphSearch(sq)
    case GrafoRag => VectorSearch(sq) + GraphSearch(sq)
    case _ => VectorSearch(sq) + GraphSearch(sq)
  }

  /** A search yields nothing exactly for a pure graph search without expected entities, and at least three otherwise. */
  lemma SearchYield(sq: SubQuery)
    ensures |ExecuteSearch(sq)| <= 6
    ensures |ExecuteSearch(sq)| == 0 <==> sq.strategy == GrafoPuro && sq.expectedEntities == []
    ensures sq.strategy != GrafoPuro ==> |ExecuteSearch(sq)| >= 3
  {
  }

  /** `ptr.metadata.get("source", "unknown")`. */
  function SourceOf(p: Pointer): string
  {
    if "source" in p.metadata then p.metadata["source"] else "unknown"
  }

  /** No simulated pointer names its source, so every one counts as coming from "unknown". */
  lemma SearchSourcesUnknown(sq: SubQuery)
    ensures forall p :: p in ExecuteSearch(sq) ==> SourceOf(p) == "unknown"
  {
    var ps := ExecuteSearch(sq);
    forall p | p in ps ensures SourceOf(p) == "unknown" {
      var i :| 0 <= i < |ps| && ps[i] == p;
      if sq.strategy == VectorPuro {
        assert p.metadata == map["strategy" := "vector"];
      } else if sq.strategy == GrafoPuro {
        assert p.metadata == map["strategy" := "graph"];
      } else if i < 3 {
        assert p == VectorSearch(sq)[i];
      } else {
        assert p == GraphSearch(sq)[i - 3];
      }
    }
  }

  // ================================================================ counting pointers

  function TotalPointers(results: seq<SearchResult>): nat
  {
    if |results| == 0 then 0 else |results[0].pointers| + TotalPointers(results[1..])
  }

  lemma {:induction false} TotalPointersAppend(a: seq<SearchResult>, b: seq<SearchResult>)
    ensures TotalPointers(a + b) == TotalPointers(a) + TotalPointers(b)
  {
    if |a| > 0 {
      assert (a + b)[1..] == a[1..] + b;
      TotalPointersAppend(a[1..], b);
    } else {
      assert a + b == b;
    }
  }

  /** The results one collection pass produces, one per sub-query, in order. */
  function ResultsFor(sqs: seq<SubQuery>): (rs: seq<SearchResult>)
    ensures |rs| == |sqs|
    ensures forall i :: 0 <= i < |sqs| ==>
      rs[i] == SearchResult(sqs[i].id, ExecuteSearch(sqs[i]), sqs[i].strategy)
  {
    seq(|sqs|, i requires 0 <= i < |sqs| => SearchResult(sqs[i].id, ExecuteSearch(sqs[i]), sqs[i].strategy))
  }

  lemma ResultsForSnoc(sqs: seq<SubQuery>, i: nat)
    requires i < |sqs|
    ensures ResultsFor(sqs[..i + 1]) == ResultsFor(sqs[..i]) + [SearchResult(sqs[i].id, ExecuteSearch(sqs[i]), sqs[i].strategy)]
  {
  }

  /** How many pointers one pass over the sub-queries collects. */
  function PassYield(sqs: seq<SubQuery>): nat
  {
    if |sqs| == 0 then 0 else |ExecuteSearch(sqs[0])| + PassYield(sqs[1..])
  }

  lemma {:induction false} ResultsForYield(sqs: seq<SubQuery>)
    ensures TotalPointers(ResultsFor(sqs)) == PassYield(sqs)
  {
    if |sqs| > 0 {
      ResultsForYield(sqs[1..]);
      assert ResultsFor(sqs)[1..] == ResultsFor(sqs[1..]);
    }
  }

  /** A pass yields nothing exactly when every sub-query is a pure graph search without expected entities. */
  lemma {:induction false} PassYieldZero(sqs: seq<SubQuery>)
    ensures PassYield(sqs) == 0 <==>
      forall i :: 0 <= i < |sqs| ==> sqs[i].strategy == GrafoPuro && sqs[i].expectedEntities == []
  {
    if |sqs| > 0 {
      PassYieldZero(sqs[1..]);
      SearchYield(sqs[0]);
      if PassYield(sqs) == 0 {
        forall i | 0 <= i < |sqs| ensures sqs[i].strategy == GrafoPuro && sqs[i].expectedEntities == [] {
          if i > 0 { assert sqs[i] == sqs[1..][i - 1]; }
        }
      } else if |ExecuteSearch(sqs[0])| == 0 {
        var i :| 0 <= i < |sqs[1..]| && !(sqs[1..][i].strategy == GrafoPuro && sqs[1..][i].expectedEntities == []);
        assert sqs[i + 1] == sqs[1..][i];
      }
    }
  }

  // ================================================================ selecting pointers

  /** The order of the relevance sort: higher relevance first. */
  function ByRelevance(): (Pointer, Pointer) -> bool
  {
    (a: Pointer, b: Pointer) => a.relevanceScore >= b.relevanceScore
  }

  /** Every pointer of the results, result by result. */
  function AllPointers(results: seq<SearchResult>): (ps: seq<Pointer>)
    ensures |ps| == TotalPointers(results)
  {
    if |results| == 0 then [] else results[0].pointers + AllPointers(results[1..])
  }

  lemma {:induction false} AllPointersSnoc(results: seq<SearchResult>, r: SearchResult)
    ensures AllPointers(results + [r]) == AllPointers(results) + r.pointers
  {
    if |results| > 0 {
      assert (results + [r])[1..] == results[1..] + [r];
      AllPointersSnoc(results[1..], r);
    }
  }

  /** What the examination keeps: the ten most relevant pointers, ties in collection order. */
  function Selection(results: seq<SearchResult>): seq<Pointer>
  {
    var ranked := SortBy(AllPointers(results), ByRelevance());
    ranked[..Min(10, |ranked|)]
  }

  lemma ByRelevanceTotal()
    ensures Total(ByRelevance())
  {
    var le := ByRelevance();
    forall a: Pointer, b: Pointer ensures le(a, b) || le(b, a) {
    }
  }

  /**
   * The selection is the first `min(10, n)` pointers of the collected ones
   * sorted by relevance: non-increasing, and drawn from the collected pointers.
   */
  lemma SelectionRanked(results: seq<SearchResult>)
    ensures var sel := Selection(results);
      |sel| == Min(10, TotalPointers(results))
      && (forall i :: 0 < i < |sel| ==> sel[i - 1].relevanceScore >= sel[i].relevanceScore)
      && multiset(sel) <= multiset(AllPointers(results))
  {
    var all := AllPointers(results);
    ByRelevanceTotal();
    SortBySorted(all, ByRelevance());
    var ranked := SortBy(all, ByRelevance());
    var sel := ranked[..Min(10, |ranked|)];
    assert sel == Selection(results);
    forall i | 0 < i < |sel|
      ensures sel[i - 1].relevanceScore >= sel[i].relevanceScore
    {
      assert ByRelevance()(ranked[i - 1], ranked[i]);
    }
    assert ranked == sel + ranked[|sel|..];
    assert multiset(ranked) == multiset(sel) + multiset(ranked[|sel|..]);
  }

  /** The sort is stable: equally relevant pointers keep the order they were collected in. */
  lemma RankingStable(results: seq<SearchResult>, score: real)
    ensures var ranked := SortBy(AllPointers(results), ByRelevance());
      Filter(ranked, (p: Pointer) => p.relevanceScore == score)
      == Filter(AllPointers(results), (p: Pointer) => p.relevanceScore == score)
  {
    SortByStable(AllPointers(results), ByRelevance(), (p: Pointer) => p.relevanceScore == score);
  }

  /** Python's `list.count`: how many entries of the list equal `x`. */
  function ListCount(lst: seq<string>, x: string): (n: nat)
    ensures n <= |lst|
    ensures n > 0 <==> x in lst
  {
    if |lst| == 0 then 0 else (if lst[0] == x then 1 else 0) + ListCount(lst[1..], x)
  }

  /**
   * `list(sources_seen).count(source)`: whatever order the set is listed in,
   * each element appears once, so the count is 1 for a seen source and 0
   * otherwise, and never reaches the cap of 2.
   */
  lemma {:induction false} CountInListOfSet(lst: seq<string>, seen: set<string>, x: string)
    requires Distinct(lst) && Elements(lst) == seen
    ensures ListCount(lst, x) <= 1
    ensures ListCount(lst, x) == 1 <==> x in seen
  {
    if |lst| > 0 {
      var rest := lst[1..];
      assert Distinct(rest);
      CountInListOfSet(rest, Elements(rest), x);
      if lst[0] == x {
        assert x !in rest by {
          forall j | 0 <= j < |rest| ensures rest[j] != x {
            assert rest[j] == lst[j + 1];
          }
        }
      }
      assert x in seen <==> x in lst;
    }
  }

  /** The count does not depend on the order the set is listed in. */
  lemma ListOrderIrrelevant(a: seq<string>, b: seq<string>, seen: set<string>, x: string)
    requires Distinct(a) && Elements(a) == seen
    requires Distinct(b) && Elements(b) == seen
    ensures ListCount(a, x) == ListCount(b, x)
  {
    CountInListOfSet(a, seen, x);
    CountInListOfSet(b, seen, x);
  }

  // ================================================================ synthesis

  const AnswerHeader: string := "Basándome en la información disponible:\n\n"
  const AnswerFooter: string := "\n\nPara más detalles, consulta las fuentes referenciadas.\n"

  function Bullets(snippets: seq<string>): (lines: seq<string>)
    ensures |lines| == |snippets| && forall i :: 0 <= i < |snippets| ==> lines[i] == "• " + snippets[i]
  {
    seq(|snippets|, i requires 0 <= i < |snippets| => "• " + snippets[i])
  }

  function SumRelevance(ps: seq<Pointer>): real
  {
    if |ps| == 0 then 0.0 else ps[0].relevanceScore + SumRelevance(ps[1..])
  }

  /** The heuristic confidence: the mean relevance of the selected pointers, 0 when there are none. */
  function MeanRelevance(ps: seq<Pointer>): (c: real)
    ensures |ps| == 0 ==> c == 0.0
    ensures |ps| > 0 ==> c * (|ps| as real) == SumRelevance(ps)
  {
    SumRelevance(ps) / (Max(|ps|, 1) as real)
  }

  lemma {:induction false} SumRelevanceBounds(ps: seq<Pointer>)
    requires forall i :: 0 <= i < |ps| ==> 0.0 <= ps[i].relevanceScore <= 1.0
    ensures 0.0 <= SumRelevance(ps) <= |ps| as real
  {
    if |ps| > 0 {
      SumRelevanceBounds(ps[1..]);
    }
  }

  /** Relevances between 0 and 1 give a confidence between 0 and 1. */
  lemma MeanRelevanceBounds(ps: seq<Pointer>)
    requires forall i :: 0 <= i < |ps| ==> 0.0 <= ps[i].relevanceScore <= 1.0
    ensures 0.0 <= MeanRelevance(ps) <= 1.0
  {
    SumRelevanceBounds(ps);
  }

  /** What the synthesis sets on the state. */
  datatype Synthesis = Synthesis(finalAnswer: string, confidence: real, sources: seq<Source>)

  /** `_synthesis_heuristica`: the first three snippets as bullets, the mean relevance, one source per pointer. */
  function SynthesisHeuristic(selected: seq<Pointer>): (s: Synthesis)
    ensures var snippets := seq(Min(3, |selected|), i requires 0 <= i < Min(3, |selected|) => selected[i].snippet);
      s.finalAnswer == AnswerHeader + Join(Bullets(snippets), "\n") + AnswerFooter
    ensures s.confidence == MeanRelevance(selected)
    ensures |s.sources| == |selected|
      && forall i :: 0 <= i < |selected| ==> s.sources[i] == Source(selected[i].pointerId, selected[i].pointerType)
  {
    var snippets := seq(Min(3, |selected|), i requires 0 <= i < Min(3, |selected|) => selected[i].snippet);
    Synthesis(
      AnswerHeader + Join(Bullets(snippets), "\n") + AnswerFooter,
      MeanRelevance(selected),
      seq(|selected|, i requires 0 <= i < |selected| => Source(selected[i].pointerId, selected[i].pointerType)))
  }

  // ================================================================ workflow

  datatype Node = Maieutica | Diairesis | Synagoge | Anakrisis | Synthesize

  datatype Label = Simple | Complejo | Error | Suficiente | Insuficiente

  /** What the routers look at. */
  datatype View = View(hasErrors: bool, requiresDecomposition: bool, complexity: real, totalPointers: nat)

  /** The workflow's edges, entry point `Maieutica`. */
  function EdgesFrom(n: Node): Edges<Node, Label>
  {
    match n
    case Maieutica => Conditional(map[Simple := Goto(Synagoge), Complejo := Goto(Diairesis), Error := End])
    case Diairesis => Direct(Goto(Synagoge))
    case Synagoge => Conditional(map[Suficiente := Goto(Anakrisis), Insuficiente := Goto(Synagoge), Error := End])
    case Anakrisis => Direct(Goto(Synthesize))
    case Synthesize => Direct(End)
  }

  function DecisionMaieutica(v: View): (l: Label)
    ensures l == Error <==> v.hasErrors
    ensures l == Complejo <==> !v.hasErrors && (v.requiresDecomposition || v.complexity > 0.6)
    ensures l in {Error, Complejo, Simple}
  {
    if v.hasErrors then Error
    else if v.requiresDecomposition || v.complexity > 0.6 then Complejo
    else Simple
  }

  /** The collection router never reports an error: enough pointers, or go round again. */
  function DecisionSynagoge(v: View): (l: Label)
    ensures l == Suficiente <==> v.totalPointers >= 3
    ensures l in {Suficiente, Insuficiente}
  {
    if v.totalPointers >= 3 then Suficiente else Insuficiente
  }

  function Router(n: Node, v: View): (l: Label)
    requires EdgesFrom(n).Conditional?
    ensures l in EdgesFrom(n).table
  {
    match n
    case Maieutica => DecisionMaieutica(v)
    case Synagoge => DecisionSynagoge(v)
  }

  /** The node after `n`, given the state `n` left. */
  function Next(n: Node, v: View): (t: Target<Node>)
    ensures t == End <==> n == Synthesize || (n == Maieutica && v.hasErrors)
    ensures n == Synagoge ==> (t == Goto(Anakrisis) <==> v.totalPointers >= 3) && (t == Goto(Synagoge) <==> v.totalPointers < 3)
    ensures n == Maieutica && !v.hasErrors ==> t == Goto(Synagoge) || t == Goto(Diairesis)
  {
    match EdgesFrom(n)
    case Direct(to) => to
    case Conditional(table) => table[Router(n, v)]
  }

  // ================================================================ state and nodes

  class SocratesState {
    const originalQuery: string

    var userIntent: Option<string>
    var queryType: Option<QueryType>
    var complexityScore: real
    var requiresDecomposition: bool
    var subqueries: seq<SubQuery>
    var searchResults: seq<SearchResult>
    var selectedPointers: seq<Pointer>
    var finalAnswer: string
    var confidence: real
    var sources: seq<Source>
    var currentStep: string
    var errors: seq<string>

    constructor(query: string)
      ensures originalQuery == query && userIntent.None? && queryType.None?
      ensures complexityScore == 0.5 && !requiresDecomposition
      ensures subqueries == [] && searchResults == [] && selectedPointers == []
      ensures finalAnswer == "" && confidence == 0.0 && sources == [] && currentStep == "inicio" && errors == []
    {
      originalQuery := query;
      userIntent := None;
      queryType := None;
      complexityScore := 0.5;
      requiresDecomposition := false;
      subqueries := [];
      searchResults := [];
      selectedPointers := [];
      finalAnswer := "";
      confidence := 0.0;
      sources := [];
      currentStep := "inicio";
      errors := [];
    }

    function Routed(): View
      reads this`errors, this`requiresDecomposition, this`complexityScore, this`searchResults
    {
      View(errors != [], requiresDecomposition, complexityScore, TotalPointers(searchResults))
    }
  }

  /** The value each query type carries. */
  function QueryTypeValue(t: QueryType): string
  {
    match t
    case Factual => "factual"
    case Exploratoria => "exploratoria"
    case Analitica => "analitica"
    case Comparativa => "comparativa"
    case Procedural => "procedural"
    case Temporal => "temporal"
  }

  /** `QueryType(v)`: the query type whose value is `v`, None when there is none. */
  function QueryTypeFrom(v: string): (t: Option<QueryType>)
    ensures t.Some? ==> QueryTypeValue(t.value) == v
  {
    if v == "factual" then Some(Factual)
    else if v == "exploratoria" then Some(Exploratoria)
    else if v == "analitica" then Some(Analitica)
    else if v == "comparativa" then Some(Comparativa)
    else if v == "procedural" then Some(Procedural)
    else if v == "temporal" then Some(Temporal)
    else None
  }

  /** The value each search strategy carries. */
  function StrategyValue(s: SearchStrategy): string
  {
    match s
    case VectorPuro => "vector_puro"
    case GrafoPuro => "grafo_puro"
    case GrafoRag => "grafo_rag"
    case Hibrido => "hibrido"
    case EntidadPrimero => "entidad_primero"
  }

  /** `SearchStrategy(v)`: the strategy whose value is `v`, None when there is none. */
  function StrategyFrom(v: string): (s: Option<SearchStrategy>)
    ensures s.Some? ==> StrategyValue(s.value) == v
  {
    if v == "vector_puro" then Some(VectorPuro)
    else if v == "grafo_puro" then Some(GrafoPuro)
    else if v == "grafo_rag" then Some(GrafoRag)
    else if v == "hibrido" then Some(Hibrido)
    else if v == "entidad_primero" then Some(EntidadPrimero)
    else None
  }

  /** One entry of the division model's `subconsultas` list; a missing key is None. */
  datatype RawSubQuery = RawSubQuery(
    id: Option<string>,
    consulta: Option<string>,
    tipo: Option<string>,
    estrategia: Option<string>,
    prioridad: Option<int>,
    dependencias: Option<seq<string>>,
    entidadesEsperadas: Option<seq<string>>)

  /** Why an entry does not convert: the exception its conversion raises. */
  datatype EntryFailure =
    | MissingKey(key: string)                     // the `KeyError` of `sq["consulta"]`
    | NotAValid(value: string, enumName: string)  // the `ValueError` of an enum constructor
  {
    /** `str()` of the exception: the key, or the rejected value, shown as `repr` shows it. */
    function Message(): string
    {
      match this
      case MissingKey(k) => Repr(k)
      case NotAValid(v, n) => Repr(v) + " is not a valid " + n
    }
  }

  /**
   * Why an entry does not convert, in the order its fields are read: the
   * missing text, then an unknown type, then an unknown strategy; None when
   * it converts.
   */
  function EntryError(sq: RawSubQuery): (e: Option<EntryFailure>)
    ensures e.None? <==>
      sq.consulta.Some? && QueryTypeFrom(sq.tipo.GetOr("factual")).Some?
      && StrategyFrom(sq.estrategia.GetOr("vector_puro")).Some?
    ensures sq.consulta.None? ==> e == Some(MissingKey("consulta"))
  {
    if sq.consulta.None? then Some(MissingKey("consulta"))
    else if QueryTypeFrom(sq.tipo.GetOr("factual")).None? then
      Some(NotAValid(sq.tipo.GetOr("factual"), "QueryType"))
    else if StrategyFrom(sq.estrategia.GetOr("vector_puro")).None? then
      Some(NotAValid(sq.estrategia.GetOr("vector_puro"), "SearchStrategy"))
    else None
  }

  /**
   * The messages as Python shows them: `'consulta'` for the missing key, and
   * the rejected value in `repr` form, so `'x' is not a valid QueryType`, but
   * `"it's" is not a valid QueryType`, with the value read back from between
   * the quotes.
   */
  lemma FailureMessages(f: EntryFailure)
    ensures f.NotAValid? ==>
      var m := f.Message();
      var r := Repr(f.value);
      m == r + " is not a valid " + f.enumName && m[0] == ReprQuote(f.value)
      && Unescape(r[1..|r| - 1]) == f.value
  {
    if f.NotAValid? {
      ReprRoundTrip(f.value);
    }
  }

  /** The missing text is reported as `'consulta'`. */
  lemma MissingTextMessage()
    ensures MissingKey("consulta").Message() == "'" + "consulta" + "'"
  {
    assert ReprQuote("consulta") == '\'';
    PlainEscapesToItself("consulta", '\'');
  }

  /**
   * The sub-query for entry `i` of the list: the id defaults to `q{i}`, the
   * type to factual, the strategy to pure vector search, the priority to 1
   * and both lists to empty.
   */
  function EntrySubQuery(sq: RawSubQuery, i: nat): (r: SubQuery)
    requires EntryError(sq).None?
    ensures r.id == sq.id.GetOr("q" + NatToString(i)) && r.query == sq.consulta.value
    ensures QueryTypeValue(r.queryType) == sq.tipo.GetOr("factual")
    ensures StrategyValue(r.strategy) == sq.estrategia.GetOr("vector_puro")
    ensures r.priority == sq.prioridad.GetOr(1)
    ensures r.dependencies == sq.dependencias.GetOr([]) && r.expectedEntities == sq.entidadesEsperadas.GetOr([])
  {
    SubQuery(sq.id.GetOr("q" + NatToString(i)), sq.consulta.value,
             QueryTypeFrom(sq.tipo.GetOr("factual")).value,
             StrategyFrom(sq.estrategia.GetOr("vector_puro")).value,
             sq.prioridad.GetOr(1), sq.dependencias.GetOr([]), sq.entidadesEsperadas.GetOr([]))
  }

  /** The error of the first entry from `i` on that does not convert, None when all do. */
  function FirstEntryError(items: seq<RawSubQuery>, i: nat): (e: Option<EntryFailure>)
    requires i <= |items|
    decreases |items| - i
    ensures e.None? <==> forall j :: i <= j < |items| ==> EntryError(items[j]).None?
    ensures e.Some? ==> exists j :: i <= j < |items| && EntryError(items[j]) == e
                                   && forall k :: i <= k < j ==> EntryError(items[k]).None?
  {
    if i == |items| then None
    else if EntryError(items[i]).Some? then EntryError(items[i])
    else FirstEntryError(items, i + 1)
  }

  /** The first failing entry from `i` is the first from `k` when none in between fails. */
  lemma {:induction false} FirstEntryErrorSkips(items: seq<RawSubQuery>, i: nat, k: nat)
    requires i <= k <= |items|
    requires forall j :: i <= j < k ==> EntryError(items[j]).None?
    ensures FirstEntryError(items, i) == FirstEntryError(items, k)
    decreases k - i
  {
    if i < k {
      FirstEntryErrorSkips(items, i + 1, k);
    }
  }

  /** The entries converted in order, each knowing its position. */
  function EntrySubQueries(items: seq<RawSubQuery>): (sqs: seq<SubQuery>)
    requires forall j :: 0 <= j < |items| ==> EntryError(items[j]).None?
    ensures |sqs| == |items|
    ensures forall j :: 0 <= j < |items| ==> sqs[j] == EntrySubQuery(items[j], j)
  {
    seq(|items|, j requires 0 <= j < |items| => EntrySubQuery(items[j], j))
  }

  lemma EntrySubQueriesSnoc(items: seq<RawSubQuery>, i: nat)
    requires i < |items| && forall j :: 0 <= j <= i ==> EntryError(items[j]).None?
    ensures EntrySubQueries(items[..i + 1]) == EntrySubQueries(items[..i]) + [EntrySubQuery(items[i], i)]
  {
    var a := EntrySubQueries(items[..i + 1]);
    var b := EntrySubQueries(items[..i]) + [EntrySubQuery(items[i], i)];
    assert |a| == |b|;
    forall j | 0 <= j < |a| ensures a[j] == b[j] {
      assert items[..i + 1][j] == items[j];
      if j < i {
        assert items[..i][j] == items[j];
      }
    }
  }

  /** An entry giving only its text converts to a factual pure-vector sub-query of priority 1 named after its position. */
  lemma BareEntry(text: string, i: nat)
    ensures var sq := RawSubQuery(None, Some(text), None, None, None, None, None);
      EntryError(sq).None? && EntrySubQuery(sq, i) == SubQuery("q" + NatToString(i), text, Factual, VectorPuro, 1, [], [])
  {
  }

  /** The lookups miss only values that no query type, or no strategy, carries. */
  lemma LookupComplete(v: string)
    ensures QueryTypeFrom(v).None? <==> forall q: QueryType :: QueryTypeValue(q) != v
    ensures StrategyFrom(v).None? <==> forall x: SearchStrategy :: StrategyValue(x) != v
  {
  }

  /** The value round trip: reading back a type's or a strategy's value gives it back. */
  lemma ValueRoundTrip(t: QueryType, s: SearchStrategy)
    ensures QueryTypeFrom(QueryTypeValue(t)) == Some(t)
    ensures StrategyFrom(StrategyValue(s)) == Some(s)
  {
  }

  /** The intent model's JSON reply; a missing key is None. */
  datatype MaieuticaRecord = MaieuticaRecord(
    tipo: Option<QueryType>, complejidad: Option<real>, necesitaDescomposicion: Option<bool>, intencionReal: Option<string>)

  /** The synthesis model's JSON reply. */
  datatype SynthesisRecord = SynthesisRecord(respuesta: Option<string>, confianza: Option<real>, fuentes: Option<seq<Source>>)

  /** The division model's JSON reply; a missing `subconsultas` list is None. */
  datatype DiairesisRecord = DiairesisRecord(subconsultas: Option<seq<RawSubQuery>>)

  /**
   * The language model's replies by step; a reply that is not JSON is the
   * message of the exception it raises. An intent reply naming an unknown
   * query type fails like any other exception.
   */
  datatype Replies = Replies(
    maieutica: nat -> Reply<MaieuticaRecord>,
    diairesis: nat -> Reply<DiairesisRecord>,
    synthesis: nat -> Reply<SynthesisRecord>)

  class SocratesAgent {
    const hasLlm: bool

    constructor(hasLlm: bool)
      ensures this.hasLlm == hasLlm
    {
      this.hasLlm := hasLlm;
    }

    method ApplyAnalysis(st: SocratesState, a: Analysis)
      modifies st`queryType, st`complexityScore, st`requiresDecomposition, st`userIntent
      ensures st.queryType == Some(a.queryType) && st.complexityScore == a.complexity
      ensures st.requiresDecomposition == a.requiresDecomposition && st.userIntent == Some(a.userIntent)
      ensures st.currentStep == old(st.currentStep) && st.errors == old(st.errors)
      ensures st.searchResults == old(st.searchResults) && st.subqueries == old(st.subqueries) && st.selectedPointers == old(st.selectedPointers)
    {
      st.queryType := Some(a.queryType);
      st.complexityScore := a.complexity;
      st.requiresDecomposition := a.requiresDecomposition;
      st.userIntent := Some(a.userIntent);
    }

    /** Intent analysis: the model's reading, or the keyword reading on failure (with an error recorded). */
    method NodeMaieutica(st: SocratesState, reply: Reply<MaieuticaRecord>)
      modifies st`currentStep, st`queryType, st`complexityScore, st`requiresDecomposition, st`userIntent, st`errors
      ensures st.currentStep == "maieutica"
      ensures !hasLlm || reply.Failed? ==>
        var a := MaieuticaHeuristic(st.originalQuery);
        st.queryType == Some(a.queryType) && st.complexityScore == a.complexity
        && st.requiresDecomposition == a.requiresDecomposition && st.userIntent == Some(st.originalQuery)
      ensures !hasLlm ==> st.errors == old(st.errors)
      ensures hasLlm && reply.Failed? ==> st.errors == old(st.errors) + ["Error en maieutica: " + reply.message]
      ensures hasLlm && reply.Parsed? ==>
        var r := reply.record;
        st.queryType == Some(r.tipo.GetOr(Factual)) && st.complexityScore == r.complejidad.GetOr(0.5)
        && st.requiresDecomposition == r.necesitaDescomposicion.GetOr(false)
        && st.userIntent == Some(r.intencionReal.GetOr(st.originalQuery)) && st.errors == old(st.errors)
      ensures st.searchResults == old(st.searchResults) && st.subqueries == old(st.subqueries) && st.selectedPointers == old(st.selectedPointers)
    {
      st.currentStep := "maieutica";
      if !hasLlm {
        ApplyAnalysis(st, MaieuticaHeuristic(st.originalQuery));
        return;
      }
      match reply
      case Failed(msg) =>
        st.errors := st.errors + ["Error en maieutica: " + msg];
        ApplyAnalysis(st, MaieuticaHeuristic(st.originalQuery));
      case Parsed(r) =>
        st.queryType := Some(r.tipo.GetOr(Factual));
        st.complexityScore := r.complejidad.GetOr(0.5);
        st.requiresDecomposition := r.necesitaDescomposicion.GetOr(false);
        st.userIntent := Some(r.intencionReal.GetOr(st.originalQuery));
    }

    /**
     * Division: the model's entries converted and appended one by one; when
     * an entry does not convert, or the reply is not JSON, the error is
     * recorded and the separator division replaces every sub-query,
     * including those appended before it.
     */
    method NodeDiairesis(st: SocratesState, reply: Reply<DiairesisRecord>)
      modifies st`currentStep, st`subqueries, st`errors
      ensures st.currentStep == "diairesis"
      ensures !hasLlm ==> st.subqueries == HeuristicSubQueries(st.originalQuery, st.queryType) && st.errors == old(st.errors)
      ensures hasLlm && reply.Failed? ==>
        st.subqueries == HeuristicSubQueries(st.originalQuery, st.queryType)
        && st.errors == old(st.errors) + ["Error en diairesis: " + reply.message]
      ensures hasLlm && reply.Parsed? ==>
        var items := reply.record.subconsultas.GetOr([]);
        var e := FirstEntryError(items, 0);
        (e.None? ==> st.subqueries == old(st.subqueries) + EntrySubQueries(items) && st.errors == old(st.errors))
        && (e.Some? ==>
              st.subqueries == HeuristicSubQueries(st.originalQuery, st.queryType)
              && st.errors == old(st.errors) + ["Error en diairesis: " + e.value.Message()])
      ensures st.searchResults == old(st.searchResults) && st.selectedPointers == old(st.selectedPointers)
    {
      st.currentStep := "diairesis";
      if !hasLlm {
        st.subqueries := HeuristicSubQueries(st.originalQuery, st.queryType);
        return;
      }
      match reply
      case Failed(msg) =>
        DivisionFailed(st, msg);
      case Parsed(r) =>
        var items := r.subconsultas.GetOr([]);
        AppendEntries(st, items);
    }

    /** The division's exception handler: the error recorded, the separator division in place of every sub-query. */
    method DivisionFailed(st: SocratesState, msg: string)
      modifies st`subqueries, st`errors
      ensures st.subqueries == HeuristicSubQueries(st.originalQuery, st.queryType)
      ensures st.errors == old(st.errors) + ["Error en diairesis: " + msg]
    {
      st.errors := st.errors + ["Error en diairesis: " + msg];
      st.subqueries := HeuristicSubQueries(st.originalQuery, st.queryType);
    }

    /** The loop over the division's entries, from a state whose step is already `diairesis`. */
    method AppendEntries(st: SocratesState, items: seq<RawSubQuery>)
      modifies st`subqueries, st`errors
      ensures var e := FirstEntryError(items, 0);
        (e.None? ==> st.subqueries == old(st.subqueries) + EntrySubQueries(items) && st.errors == old(st.errors))
        && (e.Some? ==>
              st.subqueries == HeuristicSubQueries(st.originalQuery, st.queryType)
              && st.errors == old(st.errors) + ["Error en diairesis: " + e.value.Message()])
    {
      var err := AppendSubQueries(st, items);
      if err.Some? {
        DivisionFailed(st, err.value.Message());
      }
    }

    /**
     * The `for` loop itself: each entry converted and appended in turn, until
     * the first entry that raises; that entry's error is returned.
     */
    method AppendSubQueries(st: SocratesState, items: seq<RawSubQuery>) returns (err: Option<EntryFailure>)
      modifies st`subqueries
      ensures err == FirstEntryError(items, 0)
      ensures err.None? ==> st.subqueries == old(st.subqueries) + EntrySubQueries(items)
    {
      for i := 0 to |items|
        invariant forall j :: 0 <= j < i ==> EntryError(items[j]).None?
        invariant FirstEntryError(items, 0) == FirstEntryError(items, i)
        invariant st.subqueries == old(st.subqueries) + EntrySubQueries(items[..i])
      {
        err := EntryError(items[i]);
        if err.Some? {
          return;
        }
        FirstEntryErrorSkips(items, i, i + 1);
        EntrySubQueriesSnoc(items, i);
        st.subqueries := st.subqueries + [EntrySubQuery(items[i], i)];
      }
      assert items[..|items|] == items;
      err := None;
    }

    /**
     * Collection: the default sub-query when there is none, then one search
     * result per sub-query appended to the earlier ones.
     */
    method NodeSynagoge(st: SocratesState)
      modifies st`currentStep, st`subqueries, st`searchResults
      ensures st.currentStep == "synagoge"
      ensures old(st.subqueries) == [] ==> st.subqueries == [DefaultSubQuery(st.originalQuery)]
      ensures old(st.subqueries) != [] ==> st.subqueries == old(st.subqueries)
      ensures st.searchResults == old(st.searchResults) + ResultsFor(st.subqueries)
      ensures TotalPointers(st.searchResults) == TotalPointers(old(st.searchResults)) + PassYield(st.subqueries)
      ensures st.selectedPointers == old(st.selectedPointers)
    {
      st.currentStep := "synagoge";
      if st.subqueries == [] {
        st.subqueries := [DefaultSubQuery(st.originalQuery)];
      }
      var sqs := st.subqueries;
      for i := 0 to |sqs|
        invariant st.subqueries == sqs && st.currentStep == "synagoge"
        invariant st.searchResults == old(st.searchResults) + ResultsFor(sqs[..i])
      {
        var subq := sqs[i];
        var pointers := ExecuteSearch(subq);
        ResultsForSnoc(sqs, i);
        st.searchResults := st.searchResults + [SearchResult(subq.id, pointers, subq.strategy)];
      }
      assert sqs[..|sqs|] == sqs;
      TotalPointersAppend(old(st.searchResults), ResultsFor(sqs));
      ResultsForYield(sqs);
    }

    /**
     * Examination: every collected pointer, sorted by relevance (stable,
     * highest first), and the first ten kept. The check meant to allow at most
     * two pointers per source counts the source in a list built from a set, so
     * it never rejects a pointer.
     */
    method NodeAnakrisis(st: SocratesState)
      modifies st`currentStep, st`selectedPointers
      ensures st.currentStep == "anakrisis"
      ensures st.selectedPointers == Selection(st.searchResults)
      ensures st.searchResults == old(st.searchResults) && st.subqueries == old(st.subqueries)
    {
      st.currentStep := "anakrisis";
      var todos := CollectPointers(st.searchResults);
      todos := SortBy(todos, ByRelevance());
      st.selectedPointers := KeepTen(todos);
    }

    /** The first loop of examination: every pointer of every result, in order. */
    method CollectPointers(results: seq<SearchResult>) returns (todos: seq<Pointer>)
      ensures todos == AllPointers(results)
    {
      todos := [];
      for i := 0 to |results|
        invariant todos == AllPointers(results[..i])
      {
        AllPointersSnoc(results[..i], results[i]);
        assert results[..i + 1] == results[..i] + [results[i]];
        todos := todos + results[i].pointers;
      }
      assert results[..|results|] == results;
    }

    /**
     * The second loop of examination: pointers are kept while fewer than ten
     * are, when their source occurs fewer than twice in the list of sources
     * seen, which holds each source once, so every one of the first ten is kept.
     */
    method KeepTen(todos: seq<Pointer>) returns (seleccionados: seq<Pointer>)
      ensures seleccionados == todos[..Min(|todos|, 10)]
    {
      seleccionados := [];
      var sourcesSeen: set<string> := {};
      var seenList: seq<string> := [];  // `list(sources_seen)`, in the order the sources were added
      for k := 0 to |todos|
        invariant seleccionados == todos[..Min(k, 10)]
        invariant Distinct(seenList) && Elements(seenList) == sourcesSeen
      {
        var source := SourceOf(todos[k]);
        if |seleccionados| < 10 {
          CountInListOfSet(seenList, sourcesSeen, source);
          if ListCount(seenList, source) < 2 {
            seleccionados := seleccionados + [todos[k]];
            if source !in sourcesSeen {
              seenList := seenList + [source];
            }
            sourcesSeen := sourcesSeen + {source};
          }
        }
      }
    }

    method ApplySynthesis(st: SocratesState, s: Synthesis)
      modifies st`finalAnswer, st`confidence, st`sources
      ensures st.finalAnswer == s.finalAnswer && st.confidence == s.confidence && st.sources == s.sources
    {
      st.finalAnswer := s.finalAnswer;
      st.confidence := s.confidence;
      st.sources := s.sources;
    }

    /** Synthesis: the model's answer, or the rule-based one on failure (with an error recorded). */
    method NodeSynthesis(st: SocratesState, reply: Reply<SynthesisRecord>)
      modifies st`currentStep, st`finalAnswer, st`confidence, st`sources, st`errors
      ensures st.currentStep == "synthesis"
      ensures !hasLlm || reply.Failed? ==>
        var s := SynthesisHeuristic(st.selectedPointers);
        st.finalAnswer == s.finalAnswer && st.confidence == s.confidence && st.sources == s.sources
      ensures !hasLlm ==> st.errors == old(st.errors)
      ensures hasLlm && reply.Failed? ==> st.errors == old(st.errors) + ["Error en synthesis: " + reply.message]
      ensures hasLlm && reply.Parsed? ==>
        st.finalAnswer == reply.record.respuesta.GetOr("") && st.confidence == reply.record.confianza.GetOr(0.5)
        && st.sources == reply.record.fuentes.GetOr([]) && st.errors == old(st.errors)
      ensures st.searchResults == old(st.searchResults) && st.subqueries == old(st.subqueries) && st.selectedPointers == old(st.selectedPointers)
    {
      st.currentStep := "synthesis";
      if !hasLlm {
        ApplySynthesis(st, SynthesisHeuristic(st.selectedPointers));
        return;
      }
      match reply
      case Failed(msg) =>
        st.errors := st.errors + ["Error en synthesis: " + msg];
        ApplySynthesis(st, SynthesisHeuristic(st.selectedPointers));
      case Parsed(r) =>
        st.finalAnswer := r.respuesta.GetOr("");
        st.confidence := r.confianza.GetOr(0.5);
        st.sources := r.fuentes.GetOr([]);
    }

    // ============================================================== engine

    /** One step of the engine: run node `n` with the replies for step `k`, then route. */
    method Step(st: SocratesState, n: Node, replies: Replies, k: nat) returns (t: Target<Node>)
      modifies st`currentStep, st`queryType, st`complexityScore, st`requiresDecomposition, st`userIntent,
               st`errors, st`subqueries, st`searchResults, st`selectedPointers, st`finalAnswer,
               st`confidence, st`sources
      ensures t == Next(n, st.Routed())
      ensures n != Synagoge ==> st.searchResults == old(st.searchResults)
      ensures n != Diairesis && n != Synagoge ==> st.subqueries == old(st.subqueries)
      ensures n == Synagoge ==>
        st.subqueries != [] && st.searchResults != [] && (old(st.subqueries) != [] ==> st.subqueries == old(st.subqueries))
        && TotalPointers(st.searchResults) == TotalPointers(old(st.searchResults)) + PassYield(st.subqueries)
      ensures n == Anakrisis ==> st.selectedPointers == Selection(st.searchResults)
      ensures n != Anakrisis ==> st.selectedPointers == old(st.selectedPointers)
    {
      match n {
        case Maieutica => NodeMaieutica(st, replies.maieutica(k));
        case Diairesis => NodeDiairesis(st, replies.diairesis(k));
        case Synagoge => NodeSynagoge(st);
        case Anakrisis => NodeAnakrisis(st);
        case Synthesize => NodeSynthesis(st, replies.synthesis(k));
      }
      t := Next(n, st.Routed());
    }

    /**
     * What holds between the steps of a run: the node reached after `steps`
     * steps and `passes` search passes, what has been collected so far, and
     * the selection, left as it was (`selected`) until something is collected.
     */
    predicate Between(st: SocratesState, node: Target<Node>, steps: nat, passes: nat, selected: seq<Pointer>)
      reads st`searchResults, st`subqueries, st`selectedPointers, st`errors
    {
      && (node == Goto(Maieutica) ==> steps == 0 && passes == 0 && st.searchResults == [])
      && (node == Goto(Diairesis) ==> steps == 1 && passes == 0 && st.searchResults == [])
      && (node == Goto(Synagoge) ==>
            steps <= 2 + passes
            && (passes == 0 ==> st.searchResults == [])
            && (passes > 0 ==> st.subqueries != [] && TotalPointers(st.searchResults) == passes * PassYield(st.subqueries)
                                && TotalPointers(st.searchResults) < 3))
      && (node == Goto(Anakrisis) ==> steps <= 5 && TotalPointers(st.searchResults) >= 3)
      && (node == Goto(Synthesize) ==>
            steps <= 6 && TotalPointers(st.searchResults) >= 3 && st.selectedPointers == Selection(st.searchResults))
      && (st.searchResults == [] ==> st.selectedPointers == selected)
      && (node == End ==>
            (st.errors != [] && st.searchResults == [])
            || (TotalPointers(st.searchResults) >= 3 && st.selectedPointers == Selection(st.searchResults)))
    }

    /** One turn of the run: a step from `Goto(n)`, counting a search pass when `n` is `Synagoge`. */
    method Turn(st: SocratesState, n: Node, replies: Replies, steps: nat, ghost passes: nat, ghost selected: seq<Pointer>)
      returns (node: Target<Node>, ghost passes': nat)
      requires Between(st, Goto(n), steps, passes, selected)
      modifies st`currentStep, st`queryType, st`complexityScore, st`requiresDecomposition, st`userIntent,
               st`errors, st`subqueries, st`searchResults, st`selectedPointers, st`finalAnswer,
               st`confidence, st`sources
      ensures Between(st, node, steps + 1, passes', selected)
    {
      ghost var before := st.searchResults;
      ghost var asked := st.subqueries;
      node := Step(st, n, replies, steps);
      passes' := passes;
      if n == Synagoge {
        ghost var y := PassYield(st.subqueries);
        if passes == 0 {
          assert TotalPointers(before) == 0;
        } else {
          assert st.subqueries == asked;
        }
        PassCount(passes, y, TotalPointers(before), TotalPointers(st.searchResults));
        passes' := passes + 1;
      }
    }

    /**
     * The compiled workflow from `Maieutica` on a state that has collected
     * nothing yet, for at most `fuel` steps. A run that ends either stopped
     * at an analysis error before collecting, or collected at least three
     * pointers and selected the best ten of them. A run that is cut off after
     * seven steps or more is looping on sub-queries that yield no pointer.
     */
    method Run(st: SocratesState, replies: Replies, fuel: nat) returns (outcome: RunOutcome)
      requires st.searchResults == []
      modifies st`currentStep, st`queryType, st`complexityScore, st`requiresDecomposition, st`userIntent,
               st`errors, st`subqueries, st`searchResults, st`selectedPointers, st`finalAnswer,
               st`confidence, st`sources
      ensures !outcome.UnknownLabel?
      ensures outcome.Completed? ==>
        (st.errors != [] && st.searchResults == [] && st.selectedPointers == old(st.selectedPointers))
        || (TotalPointers(st.searchResults) >= 3 && st.selectedPointers == Selection(st.searchResults))
      ensures outcome.Exhausted? && fuel >= 7 ==> PassYield(st.subqueries) == 0
    {
      ghost var selected := st.selectedPointers;
      var node: Target<Node> := Goto(Maieutica);
      var steps: nat := 0;
      ghost var passes: nat := 0;
      while node.Goto? && steps < fuel
        invariant Between(st, node, steps, passes, selected)
        decreases fuel - steps
      {
        node, passes := Turn(st, node.node, replies, steps, passes, selected);
        steps := steps + 1;
      }
      if node.End? {
        outcome := Completed(steps);
      } else {
        outcome := Exhausted;
        if fuel >= 7 {
          Looping(st, node, steps, passes, selected);
        }
      }
    }

    /** A run still going after seven steps is on its search node, and its passes found nothing. */
    lemma Looping(st: SocratesState, node: Target<Node>, steps: nat, passes: nat, selected: seq<Pointer>)
      requires Between(st, node, steps, passes, selected) && node.Goto? && steps >= 7
      ensures PassYield(st.subqueries) == 0
    {
      assert node.node != Maieutica && node.node != Diairesis && node.node != Anakrisis && node.node != Synthesize;
      PassesBound(passes, PassYield(st.subqueries));
    }

    /** What `investigar` returns; None when the engine gives up after `fuel` steps. */
    method Investigar(query: string, replies: Replies, fuel: nat) returns (answer: Option<Answer>)
      ensures answer.Some? ==>
        (answer.value.errores != [] && answer.value.punteros == [])
        || 3 <= |answer.value.punteros| <= 10
    {
      var st := new SocratesState(query);
      var outcome := Run(st, replies, fuel);
      if outcome.Exhausted? {
        return None;
      }
      if st.searchResults != [] {
        SelectionRanked(st.searchResults);
      }
      answer := Some(Answer(st.finalAnswer, st.confidence, st.selectedPointers, st.queryType,
                            st.complexityScore, |st.subqueries|, st.sources, st.errors));
    }
  }

  /**
   * Counting passes: after `p + 1` passes that each yield `y`, the total is
   * `(p + 1) * y`; while the total stays below three, a pass that yields
   * anything can only have run at most twice before.
   */
  lemma PassCount(p: nat, y: nat, before: nat, after: nat)
    requires after == before + y && before == p * y
    ensures after == (p + 1) * y
    ensures before < 3 <= after ==> p <= 2
  {
    PassesBound(p, y);
  }

  lemma PassesBound(p: nat, y: nat)
    ensures y >= 1 ==> p <= p * y
  {
    if y >= 1 {
      assert p * y == p * (y - 1) + p;
    }
  }

  datatype Answer = Answer(
    respuesta: string,
    confianza: real,
    punteros: seq<Pointer>,
    tipoQuery: Option<QueryType>,
    complejidad: real,
    subconsultas: nat,
    fuentes: seq<Source>,
    errores: seq<string>)
}
