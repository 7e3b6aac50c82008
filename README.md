# TrustGraph agents — a Dafny model

This project models the agent layer of a TrustGraph workspace: three LangGraph
agents, the command-line bridge that drives them, and two maintenance scripts.

- **Callímaco** (`agents/callimaco.py`), the librarian. It classifies a piece of
  content, extracts entities and relations, tags it semantically, plans where
  it is stored (Cassandra triples, Qdrant vectors, or both), validates the plan
  and executes it, retrying or aborting along conditional edges. It also has a
  heuristic extractor and a chunker with overlap.
- **Sócrates** (`agents/socrates.py`), the researcher. It analyses a query
  (*maieutica*), splits complex queries into sub-queries (*diairesis*), gathers
  pointers until at least three are found (*synagoge*), ranks them and keeps
  the top ten (*anakrisis*), and synthesises an answer with a confidence.
- **Morpheo** (`agents/morpheo.py`), the night-time maintainer. It scans for
  memory issues, analyses them, plans repair and optimisation jobs by
  intensity, runs them within a time budget, and reports.
- **The provider switcher** (`scripts/switch_provider.py`). It reads and
  rewrites a `.env` file so that TrustGraph uses one of six LLM providers, and
  reports which providers have credentials.
- **The CLI bridge** (`agents/cli_integration.py`). It resolves each agent's
  configuration from `~/.trustgraph/config.json`, maps file extensions to
  content types, indexes a directory, scans the `nocturno` sub-command flags
  and builds the cron line.
- **The document loader** (`scripts/load_docs.py`). It discovers, categorises,
  reads and counts the workspace documents, then uploads them.

Each agent's state record is a Dafny `class` whose fields the node methods
update. The routers are pure functions. The graph wiring is a table of edges in
the generic `Workflow` module. The scripts' loops are methods proved against
specification functions. Everything the agents receive from outside is an
input of the model: LLM replies (already decoded), hashes, regular-expression
matches, glob results, file contents, server answers and the clock.

A failed classification reply in Callímaco only appends `Error en clasificación: <message>`
(`agents/callimaco.py:347-348`); the tags stay as they were and the keyword
heuristic is not used.

## Model

| member | source | states |
|---|---|---|
| Callimaco.ContentTypeFromValue | agents/callimaco.py:31-40 | a wire value yields the content type carrying it, and no type when none carries it |
| Callimaco.ContentTypeRoundTrip | agents/callimaco.py:31-40 | every content type is found again from its own wire value |
| Callimaco.TagsFromClassification | agents/callimaco.py:337-345 | the primary category is the first theme (default `general`), the themes, complexity, audience and summary take their defaults when absent, and an empty theme list is the index error the node reports |
| Callimaco.ConvertiblePrefix | agents/callimaco.py:383-404 | the items before the first one missing a required key all convert, and the item at the prefix's end is missing one |
| Callimaco.EntityOf | agents/callimaco.py:384-394 | an extracted entity keeps the reply's name and type, its id is the first 12 hex digits of the MD5 of `nombre:tipo`, and its confidence is 0.8 when the reply gives none |
| Callimaco.RelationOf | agents/callimaco.py:398-404 | an extracted relation keeps source, target and type, with confidence 0.8 when the reply gives none |
| Callimaco.TagsFromTagging | agents/callimaco.py:437-445 | the tagger's fields replace the tags with their defaults, while complexity and audience carry over from earlier tags (`media`/`general` when there were none) |
| Callimaco.HeuristicThemes | agents/callimaco.py:632-644 | one to three themes; each keyword theme is present exactly when one of its words occurs in the lowercased text, the themes found come in rule order (programación, devops, inteligencia_artificial) with no repeat and nothing else mixed in, and the general-documentation theme stands alone exactly when no keyword occurs |
| Callimaco.HeuristicTags | agents/callimaco.py:646-651 | the rule-based tags: the themes, the first of them as primary category, complexity `media`, audience `general` |
| Callimaco.HeuristicEntities | agents/callimaco.py:661-671 | at most ten entities numbered `heur_i`, type `concepto`, confidence 0.5, with distinct names that are exactly the names among the first ten candidates |
| Callimaco.ChunkEnd | agents/callimaco.py:685-693 | a chunk ends after its start, at most a chunk size on, and always beyond the middle of its window |
| Callimaco.ChunkEndAtSentence | agents/callimaco.py:689-693 | a chunk cut short ends with the period of the last `. ` of its window, beyond the middle; a full window followed by text has no `. ` beyond its middle |
| Callimaco.ChunksRoundTrip | agents/callimaco.py:677-698 | the first chunk and every later chunk without its overlap concatenate back to the text |
| Callimaco.ChunksCover | agents/callimaco.py:679-698 | a text longer than one chunk gives at least two chunks, the first a prefix and the last a suffix of the text, each of one to chunk-size characters |
| Callimaco.ChunkSizes | agents/callimaco.py:684-696 | every chunk holds between one and chunk-size characters |
| Callimaco.NextChunk | agents/callimaco.py:684-696 | one loop turn moves the start strictly forward and keeps the chunks cut so far a prefix of all the chunks |
| Callimaco.CutChunk | agents/callimaco.py:685-693 | cutting one chunk yields the end and the slice the chunking function defines |
| Callimaco.ChunkContent | agents/callimaco.py:677-698 | the chunking method returns the chunks the chunking function defines, and they reassemble the text |
| Callimaco.ChunksOfLongText | agents/callimaco.py:682-698 | the chunking loop returns all chunks from the start of the text |
| Callimaco.Destination | agents/callimaco.py:456-471 | graph and vector exactly with entities and more than 200 characters; graph alone with entities and a short text; vector alone without entities for a long structured text; metadata otherwise |
| Callimaco.PlanStorage | agents/callimaco.py:473-526 | the plan's destination, hash and counts; graph operations exactly for graph destinations, vector operations exactly for vector destinations, and both non-empty for graph-and-vector |
| Callimaco.GraphOps | agents/callimaco.py:477-495 | one entity upsert per entity with its id, name and type, then one relation per relation with its source, target and type, in order |
| Callimaco.VectorOps | agents/callimaco.py:497-512 | one vector per chunk of the content, in chunk order (so their contents reassemble it); the i-th is keyed `<hash>_<i>` with the source, content type, its position and the total |
| Callimaco.ValidationErrors | agents/callimaco.py:534-552 | no plan gives exactly the missing-plan error; there are no errors exactly when a plan exists, a graph-and-vector plan has both kinds of operation, and entity names are distinct |
| Callimaco.ExecutionFor | agents/callimaco.py:563-578 | the simulated result succeeds, counts every graph operation as an entity written (relations included), and counts vectors and chunks alike |
| Callimaco.CountSplits | agents/callimaco.py:568-569 | graph operations split into entity upserts and relations, so the relations written are the graph operations less the upserts |
| Callimaco.DecisionClasificacion | agents/callimaco.py:591-594 | routes to error handling exactly when there are errors and retries remain |
| Callimaco.DecisionExtraccion | agents/callimaco.py:596-602 | error when errors remain with retries spent, skip for text under 50 characters, continue otherwise |
| Callimaco.DecisionPlanificacion | agents/callimaco.py:604-607 | error exactly when there are errors, validation otherwise |
| Callimaco.DecisionValidacion | agents/callimaco.py:609-614 | store exactly without errors, retry exactly with errors and retries left, error otherwise |
| Callimaco.DecisionFinal | agents/callimaco.py:616-619 | completed exactly when execution succeeded |
| Callimaco.DecisionReintento | agents/callimaco.py:621-624 | abort exactly when the retries are spent |
| Callimaco.Router | agents/callimaco.py:244-300 | every label a router returns is a key of its node's edge table |
| Callimaco.Next | agents/callimaco.py:242-300 | the run ends only after a successful store or with retries spent; storing is reached only from a clean validation; error handling only with errors or a failed store |
| Callimaco.StepDecreases | agents/callimaco.py:242-300 | every step of the workflow lowers a measure (error-free first, retries left, distance to the end), so every run ends |
| Callimaco.InitialMeasure | agents/callimaco.py:114-117 | a fresh state's measure is bounded by a function of the retry limit alone |
| CallimacoAgent.CallimacoState.constructor | agents/callimaco.py:94-117 | the fresh state: the given content, type and source, three retries, no errors, step `inicio`, everything else empty |
| CallimacoAgent.CallimacoAgent.constructor | agents/callimaco.py:133-140 | the agent keeps whether it has a language model and the hashing and regex functions it works with |
| CallimacoAgent.EntitiesOf | agents/callimaco.py:383-394 | converting reply entities maps each to its stored entity, in order |
| CallimacoAgent.RelationsOf | agents/callimaco.py:397-404 | converting reply relations maps each to its stored relation, in order |
| CallimacoAgent.CallimacoAgent.NodeClasificar | agents/callimaco.py:308-350 | sets the 16-digit hash; without a model stores the heuristic tags; a failed or malformed reply appends the classification error and leaves tags and summary; a good reply sets tags and summary |
| CallimacoAgent.CallimacoAgent.NodeExtraer | agents/callimaco.py:352-409 | short text changes nothing; without a model the heuristic entities and no relations; otherwise the entities up to the first with a missing key, then the relations likewise, and one error naming the missing key |
| CallimacoAgent.CallimacoAgent.ConvertEntities | agents/callimaco.py:383-394 | the loop converts the entities before the first failure and reports that failure's key |
| CallimacoAgent.CallimacoAgent.ConvertRelations | agents/callimaco.py:397-404 | the loop converts the relations before the first failure and reports that failure's key |
| CallimacoAgent.CallimacoAgent.NodeEtiquetar | agents/callimaco.py:411-450 | heuristic tags without a model; a failed reply appends the tagging error; a parsed reply replaces the tags, keeping complexity and audience |
| CallimacoAgent.CallimacoAgent.NodePlanificar | agents/callimaco.py:452-528 | stores a plan whose destination follows the entity count, length and type; a graph destination carries exactly the entity upserts and relation edges, a vector destination exactly one vector per chunk keyed by hash and position; the counts and hash are the state's |
| CallimacoAgent.CallimacoAgent.NodeValidar | agents/callimaco.py:530-553 | appends exactly the validation findings |
| CallimacoAgent.CallimacoAgent.NodeAlmacenar | agents/callimaco.py:555-579 | without a plan appends the no-plan error; with one records the simulated result |
| CallimacoAgent.CallimacoAgent.NodeManejarError | agents/callimaco.py:581-585 | spends one retry and changes nothing else that routes |
| CallimacoAgent.CallimacoAgent.Step | agents/callimaco.py:242-300 | one node's run keeps the step effect the termination measure relies on, and the next target is the one the edge table gives |
| CallimacoAgent.CallimacoAgent.Run | agents/callimaco.py:731 | errors only grow and retries never pass the limit; with enough steps from a fresh state the run completes, either stored successfully or with errors and retries spent |
| CallimacoAgent.CallimacoAgent.Indexar | agents/callimaco.py:704-746 | the report succeeds exactly when no errors were recorded, success implies a successful execution, and no plan means zero operations |
| Socrates.HeuristicQueryType | agents/socrates.py:555-567 | procedural exactly when a procedural word occurs; comparative, analytic and temporal exactly when theirs occur and no earlier list's does; never exploratory |
| Socrates.ConnectorCount | agents/socrates.py:571 | at most one count per connector |
| Socrates.Complexity | agents/socrates.py:570-572 | the score lies in [0, 1]; it is 1 exactly when words/20 + connectors/10 reaches 1, and that sum otherwise |
| Socrates.MaieuticaHeuristic | agents/socrates.py:553-576 | the rule-based analysis: the query type, the complexity, decomposition exactly when the score is above 0.6 or the (words, connectors) pair is one of (4, 4), (6, 3), (8, 2), whose sum doubles round up past 0.6, and the query itself as intent |
| Socrates.ExactTies | agents/socrates.py:570-573 | the sum is exactly 0.6 for six pairs, and the doubles comparison differs from the exact one for exactly the three rounded-up pairs |
| Socrates.RoundedUpTiesAreDivided | agents/socrates.py:570-573 | for those three pairs the stored score is 0.6, yet the flag sends the question to the division, where an exact comparison would have gone straight to collection |
| Socrates.ComplexityMonotone | agents/socrates.py:572 | more words or connectors never lower the raw complexity |
| Socrates.LongQuestionsAreDivided | agents/socrates.py:570-573 | a query of thirteen words or more always needs decomposition |
| Socrates.FirstSeparator | agents/socrates.py:584-587 | the separator used is the first in list order that occurs in the query |
| Socrates.Partes | agents/socrates.py:582-590 | without a separator the query is the only part; with one there are at least two parts and joining them with it gives the query back |
| Socrates.KeptIndices | agents/socrates.py:600 | exactly the indices of non-blank parts, increasing |
| Socrates.SubQueriesOf | agents/socrates.py:592-601 | each sub-query is non-empty, graph-RAG, of the analysed type, with a priority between 1 and the part count, strictly decreasing |
| Socrates.SubQueriesOfParts | agents/socrates.py:592-601 | the j-th sub-query comes from the j-th non-blank part, at position k among all parts: id `q<k>`, the part stripped, priority `len(parts) - k` |
| Socrates.SubQueriesEmpty | agents/socrates.py:592-601 | no sub-queries exactly when every part is blank |
| Socrates.SubQueryIdsDistinct | agents/socrates.py:594 | sub-query ids are pairwise distinct |
| Socrates.NatToStringInjective | agents/socrates.py:594 | distinct numbers render as distinct decimal strings |
| Socrates.VectorSearch | agents/socrates.py:508-522 | three vector pointers scored 0.9, 0.8, 0.7 |
| Socrates.GraphSearch | agents/socrates.py:524-537 | one entity pointer scored 0.95 per expected entity, at most three, in order |
| Socrates.ExecuteSearch | agents/socrates.py:493-547 | vector alone, graph alone, or vector followed by graph for the other three strategies |
| Socrates.SearchYield | agents/socrates.py:493-547 | a search yields at most six pointers, none exactly for a pure-graph sub-query without expected entities, and at least three otherwise unless pure graph |
| Socrates.SearchSourcesUnknown | agents/socrates.py:418 | no simulated pointer carries a `source` key, so every one counts under `unknown` |
| Socrates.TotalPointersAppend | agents/socrates.py:484 | the pointer total of appended results is the sum of the totals |
| Socrates.ResultsFor | agents/socrates.py:390-397 | one search result per sub-query, in order, with its id, pointers and strategy |
| Socrates.ResultsForYield | agents/socrates.py:390-397 | one collection pass adds exactly the pass's yield to the pointer total |
| Socrates.PassYieldZero | agents/socrates.py:390-397 | a pass yields nothing exactly when every sub-query is pure graph without expected entities |
| Socrates.AllPointers | agents/socrates.py:406-408 | the pointers gathered from all results number the pointer total |
| Socrates.ByRelevanceTotal | agents/socrates.py:411 | ordering by descending relevance compares any two pointers |
| Socrates.SelectionRanked | agents/socrates.py:406-425 | the selection holds min(10, total) pointers in non-increasing relevance, all drawn from the results |
| Socrates.RankingStable | agents/socrates.py:411 | the sort is stable: pointers of equal relevance keep their order |
| Socrates.CountInListOfSet | agents/socrates.py:421 | counting a source in a list made from the set of seen sources gives at most one, and one exactly when the source was seen, so the `< 2` check never rejects |
| Socrates.ListCount | agents/socrates.py:421 | `list.count` is at most the list's length and positive exactly when the element occurs |
| Socrates.ListOrderIrrelevant | agents/socrates.py:421 | whatever order the set is listed in, the count is the same |
| Socrates.Bullets | agents/socrates.py:609 | each snippet becomes one bullet line |
| Socrates.MeanRelevance | agents/socrates.py:613 | the mean relevance times the count is the sum, and zero for no pointers |
| Socrates.MeanRelevanceBounds | agents/socrates.py:613 | with scores in [0, 1] the confidence lies in [0, 1] |
| Socrates.SynthesisHeuristic | agents/socrates.py:603-616 | the answer lists the first three snippets as bullets between the fixed header and footer, the confidence is the mean relevance, and there is one source per selected pointer |
| Socrates.DecisionMaieutica | agents/socrates.py:476-481 | error exactly with errors, complex exactly without errors and with decomposition or complexity above 0.6 |
| Socrates.DecisionSynagoge | agents/socrates.py:483-487 | sufficient exactly with three pointers or more |
| Socrates.Router | agents/socrates.py:268-288 | every label a router returns is a key of its node's edge table |
| Socrates.Next | agents/socrates.py:266-291 | the run ends exactly after synthesis or after an analysis that recorded errors; collection repeats exactly while fewer than three pointers were found |
| Socrates.SocratesState.constructor | agents/socrates.py:87-117 | the fresh state: the query, complexity 0.5, no decomposition, everything else empty, step `inicio` |
| Socrates.SocratesAgent.constructor | agents/socrates.py:132-134 | the agent keeps whether it has a language model |
| Socrates.SocratesAgent.NodeMaieutica | agents/socrates.py:299-333 | without a model, or after a failed reply (which also logs the error), the rule-based analysis; a parsed reply sets type, complexity, decomposition and intent with their defaults |
| Socrates.SocratesAgent.NodeDiairesis | agents/socrates.py:335-373 | without a model, the rule-based sub-queries; after a failed reply, or when any entry lacks `consulta` or names an unknown type or strategy, the rule-based sub-queries replace the list and the error is logged; otherwise one sub-query per entry is appended, with the reply's defaults |
| Socrates.SocratesAgent.AppendEntries | agents/socrates.py:358-371 | the entries are converted in order; when all convert they are appended, when one does not the first failing entry's message is logged and the rule-based sub-queries replace the list |
| Socrates.SocratesAgent.AppendSubQueries | agents/socrates.py:358-367 | the loop stops at the first entry that does not convert and returns its failure; when every entry converts, all of them are appended in order |
| Socrates.SocratesAgent.DivisionFailed | agents/socrates.py:369-371 | a failed division logs `Error en diairesis: <message>` and replaces the sub-queries by the rule-based ones |
| Socrates.QueryTypeFrom | agents/socrates.py:31-38 | the query type found for a value carries that value |
| Socrates.StrategyFrom | agents/socrates.py:41-47 | the search strategy found for a value carries that value |
| Socrates.LookupComplete | agents/socrates.py:31-47 | a value is rejected exactly when none of the six query types, or none of the five strategies, carries it |
| Socrates.ValueRoundTrip | agents/socrates.py:31-47 | every query type and every strategy is found again from its own value |
| Socrates.EntryError | agents/socrates.py:358-367 | an entry converts exactly when it has `consulta` and its type (default `factual`) and strategy (default `vector_puro`) are valid values; a missing `consulta` is the key error for `consulta` |
| Socrates.FailureMessages | agents/socrates.py:360-370 | an enum's rejection reads `<repr of the value> is not a valid <enum>`: the value is quoted with `"` exactly when it holds a `'` and no `"`, and the text between the quotes reads back to the value |
| Socrates.MissingTextMessage | agents/socrates.py:358-370 | the missing text is reported as `'consulta'` |
| Socrates.EntrySubQuery | agents/socrates.py:358-367 | a converted entry keeps the reply's fields, with id `q<i>`, type factual, strategy pure-vector, priority 1 and empty dependency and entity lists when absent |
| Socrates.BareEntry | agents/socrates.py:358-367 | an entry giving only its text converts to a factual pure-vector sub-query of priority 1 named after its position |
| Socrates.FirstEntryError | agents/socrates.py:358-371 | no error exactly when every entry from the position on converts; otherwise the error of the first entry that does not |
| Socrates.EntrySubQueries | agents/socrates.py:358-367 | one sub-query per entry, the j-th converted from the j-th entry at position j |
| Socrates.SocratesAgent.NodeSynagoge | agents/socrates.py:375-399 | with no sub-queries one default sub-query is used; one result per sub-query is appended, adding the pass's yield to the total |
| Socrates.SocratesAgent.NodeAnakrisis | agents/socrates.py:401-426 | the selected pointers are the ranked selection of all results: every pointer, sorted by relevance, the first ten kept |
| Socrates.SocratesAgent.CollectPointers | agents/socrates.py:406-408 | the collected pointers are those of every result, in result order |
| Socrates.SocratesAgent.KeepTen | agents/socrates.py:414-424 | the selection loop keeps exactly the first ten pointers (all of them when fewer), since the per-source count never reaches two |
| Socrates.SocratesAgent.NodeSynthesis | agents/socrates.py:428-470 | without a model, or after a failed reply (logged), the rule-based synthesis; a parsed reply sets answer, confidence and sources with their defaults |
| Socrates.SocratesAgent.Step | agents/socrates.py:266-291 | one node's run touches only what that node writes, and the next target is the one the edge table gives |
| Socrates.SocratesAgent.Run | agents/socrates.py:642 | a completed run either stopped on analysis errors with no results, or selected from at least three pointers; running out of at least seven steps means collection yields nothing |
| Socrates.SocratesAgent.Looping | agents/socrates.py:280-288 | a run still going after seven steps is stuck in a collection loop that yields nothing |
| Socrates.SocratesAgent.Investigar | agents/socrates.py:622-665 | an answer either reports errors with no pointers, or carries between three and ten pointers |
| Socrates.PassCount | agents/socrates.py:484-487 | collection passes that each add the same yield cross the threshold of three after at most three passes |
| Morpheo.HeuristicIssues | agents/morpheo.py:491-522 | one issue per tripped rule: an orphan issue of severity `media` exactly when there are orphaned entities, a fragmentation issue of severity `alta` exactly when fragmentation exceeds 0.2, none with affected ids |
| Morpheo.ScannedIssues | agents/morpheo.py:274-292 | the simulated scan trips the orphan rule only (fragmentation 0.15), so the rule-based analysis reports one orphan issue without ids |
| Morpheo.IssuesFromRecords | agents/morpheo.py:327-336 | one issue per record, numbered `issue_i`, with its type, sampled ids (none when absent), and impact 0.7 for severity `alta`, 0.4 otherwise |
| Morpheo.OfType | agents/morpheo.py:349-353 | a type's group holds only issues of that type |
| Morpheo.Batches | agents/morpheo.py:361-371 | splitting affected ids always gives at least one batch |
| Morpheo.BatchesFlatten | agents/morpheo.py:361-371 | the batches concatenate back to the affected ids |
| Morpheo.BatchesBounded | agents/morpheo.py:361-371 | every batch holds at most 100 ids, and there is a single batch exactly when there are at most 100 ids |
| Morpheo.BatchSlices | agents/morpheo.py:363 | slicing by 100 gives ceiling(n/100) batches |
| Morpheo.BatchSlicesAreBatches | agents/morpheo.py:361-367 | for a non-empty list over 100 ids the slicing comprehension agrees with the batching |
| Morpheo.CreatePlan | agents/morpheo.py:524-555 | the plan's type, ids, two seconds per id, the `repair_<type>_<8 digest digits>` id, one operation over the ids and one rollback step that names the ids unless it is a no-op |
| Morpheo.RollbackTable | agents/morpheo.py:535-546 | duplicates merge and roll back by split, obsolete archive and restore, orphans find relations; all other types roll back by a no-op |
| Morpheo.PlansFor | agents/morpheo.py:361-371 | one plan per batch, in order |
| Morpheo.PlansCoverIds | agents/morpheo.py:356-371 | the plans of a type cover exactly its affected ids, in order |
| Morpheo.SmallTypeOnePlan | agents/morpheo.py:368-371 | at most 100 affected ids give a single plan over all of them |
| Morpheo.QueuedPlansBounded | agents/morpheo.py:344-371 | no queued repair plan targets more than 100 ids |
| Morpheo.Optimizations | agents/morpheo.py:557-581 | one job per type the intensity lists, keyed `opt_<type>`, on `docs`, priority 1 |
| Morpheo.OptimizationCounts | agents/morpheo.py:561-572 | light gives one job, normal two, deep four, an unknown intensity none, and job ids are distinct |
| Morpheo.DecisionPlanificacion | agents/morpheo.py:470-475 | repair exactly with repairs queued, optimize exactly with only optimizations queued, finish otherwise |
| Morpheo.DecisionContinuar | agents/morpheo.py:477-485 | finish exactly when told to stop or both queues are empty; otherwise repairs first |
| Morpheo.Router | agents/morpheo.py:234-255 | every label a router returns is a key of its node's edge table |
| Morpheo.Next | agents/morpheo.py:230-257 | repair is entered only with repairs queued, optimization only with optimizations queued and no repairs; the report is reached only with empty queues or a stop; the run ends exactly after the report |
| Morpheo.PlanningRoute | agents/morpheo.py:234-242 | after planning, the run goes to repair, optimization or the report according to the queues |
| Morpheo.StepDecreases | agents/morpheo.py:244-257 | after planning, every step lowers a measure over the queue lengths, so the repair and optimization loop ends |
| MorpheoAgent.MorpheoState.constructor | agents/morpheo.py:97-124 | the fresh state: the given duration and intensity, phase `escanear`, empty queues and counts, no report, continue |
| MorpheoAgent.MorpheoAgent.constructor | agents/morpheo.py:143-160 | the agent keeps its model flag and helper functions, and scans the fixed simulated statistics |
| MorpheoAgent.MorpheoAgent.NodeEscanear | agents/morpheo.py:265-303 | sets the session id and the scanned statistics, and opens a report holding them as the before-statistics |
| MorpheoAgent.MorpheoAgent.NodeAnalizar | agents/morpheo.py:305-342 | without a model the rule-based issues; a parsed reply appends its issues; a failed reply logs the error and replaces the issues with the rule-based ones |
| MorpheoAgent.MorpheoAgent.GroupByType | agents/morpheo.py:349-353 | groups the issues by type, types in first-seen order, each group the issues of that type |
| MorpheoAgent.MorpheoAgent.CollectAffected | agents/morpheo.py:357-359 | the affected ids of a group, concatenated |
| MorpheoAgent.MorpheoAgent.TypePlans | agents/morpheo.py:361-371 | the plans of one type, one per batch |
| MorpheoAgent.MorpheoAgent.PlanRepairs | agents/morpheo.py:349-371 | the repair plans of all types in first-seen order |
| MorpheoAgent.MorpheoAgent.NodePlanificar | agents/morpheo.py:344-377 | appends the repair plans to the repair queue and the intensity's jobs to the optimization queue |
| MorpheoAgent.MorpheoAgent.RollBack | agents/morpheo.py:402-406 | every rollback step is attempted, in order |
| MorpheoAgent.MorpheoAgent.NodeReparar | agents/morpheo.py:379-408 | an empty queue changes nothing; otherwise the first plan leaves the queue and becomes current; success counts it and records it in the report; failure logs it and attempts its rollback |
| MorpheoAgent.MorpheoAgent.NodeOptimizar | agents/morpheo.py:410-429 | the same for the optimization queue, without rollback |
| MorpheoAgent.MorpheoAgent.NodeVerificarTiempo | agents/morpheo.py:431-445 | stop once the time is up; otherwise stop when both queues are empty |
| MorpheoAgent.MorpheoAgent.NodeReportar | agents/morpheo.py:447-464 | closes the report with the run's errors |
| MorpheoAgent.MorpheoAgent.Step | agents/morpheo.py:230-257 | one node's run changes only its own queue and count, keeps the report in step with the counts, and the next target is the one the edge table gives |
| MorpheoAgent.MorpheoAgent.PlanFresh | agents/morpheo.py:344-377 | planning from empty queues fills them and routes by them |
| MorpheoAgent.MorpheoAgent.Drain | agents/morpheo.py:244-257 | the repair and optimization loop reaches the report within its budget, with both queues empty or a stop |
| MorpheoAgent.MorpheoAgent.Run | agents/morpheo.py:624 | with enough steps the run completes; a completed run closes its report with its errors, the report tracks the counts, and with no time at all at most one job runs |
| MorpheoAgent.MorpheoAgent.EjecutarCiclo | agents/morpheo.py:604-650 | the cycle result succeeds exactly without errors, ends in phase `reportar`, reports the same repair and optimization counts it performed, and zero detected issues |
| SwitchProvider.Put | scripts/switch_provider.py:117 | assigning a key makes it read back, leaves every other key alone, and appends the key to the order only when new |
| SwitchProvider.LookupIn | scripts/switch_provider.py:158-161 | a provider is found exactly when one in the table has that id |
| SwitchProvider.Lookup | scripts/switch_provider.py:29-94 | lookup in the six-provider table; a found provider has distinct variable names |
| SwitchProvider.TableSetsItsOwnProvider | scripts/switch_provider.py:29-94 | every provider's first variable sets `LLM_PROVIDER` to its own id, and its variable names are distinct |
| SwitchProvider.SplitAtEquals | scripts/switch_provider.py:115-116 | a line splits exactly when it has `=`; key, `=` and value give the line back and the key holds no `=` |
| SwitchProvider.SplitAtEqualsOf | scripts/switch_provider.py:116 | a key without `=` followed by `=` and a value splits back into that key and value |
| SwitchProvider.Build | scripts/switch_provider.py:105-119 | the dictionary read from the lines is well formed (its key order lists exactly its keys, once each) |
| SwitchProvider.LastValue | scripts/switch_provider.py:113-117 | the value of the last line assigning the key, and none exactly when no line assigns it |
| SwitchProvider.ParseLastWins | scripts/switch_provider.py:113-117 | reading a file gives each key the value of its last assignment |
| SwitchProvider.ParseKeyOrder | scripts/switch_provider.py:113-117 | the keys of the dictionary come in the order of their first assignment |
| SwitchProvider.ReadEnv | scripts/switch_provider.py:102-119 | a missing file reads as the empty dictionary; otherwise the file's text, cut into lines, reads as its parsed assignments |
| SwitchProvider.ReadLine | scripts/switch_provider.py:113-117 | one turn of the reading loop sets the key of a line that assigns one and leaves the dictionary alone otherwise |
| SwitchProvider.ReadLinesShaped | scripts/switch_provider.py:112-113 | iterating a file cuts its text into non-empty lines with a newline only at their end, all but the last ending in one, which put back together give the text |
| SwitchProvider.ReadLinesConcat | scripts/switch_provider.py:128-153 | lines shaped as reading gives them, written one after the other, read back as the same lines |
| SwitchProvider.RewriteLines | scripts/switch_provider.py:134-145 | each line that assigns a key of the dictionary is replaced by its new assignment, the rest kept, and the updated keys are exactly those assigned in both |
| SwitchProvider.AppendUnassigned | scripts/switch_provider.py:147-150 | the keys of the dictionary no line assigned are appended, in dictionary order, as `key=value` lines |
| SwitchProvider.WriteEnv | scripts/switch_provider.py:122-153 | the written text is the file's lines merged with the dictionary, put one after the other with no separator (none when the file is missing) |
| SwitchProvider.MergedShaped | scripts/switch_provider.py:134-153 | merged lines are still shaped as reading gives them when the appended lines start on a line of their own |
| SwitchProvider.WrittenLinesReadBack | scripts/switch_provider.py:122-153 | the written text reads back as the merged lines when the appended lines start on a line of their own |
| SwitchProvider.NewlineEndedIsSafe | scripts/switch_provider.py:128-150 | a file that is empty or ends in a newline always takes appended lines on lines of their own |
| SwitchProvider.AppendAfterLine | scripts/switch_provider.py:147-153 | over a file of one line with no newline and no assignment, a new variable's line is glued to that line and the file's lines no longer take appended lines safely |
| SwitchProvider.AppendAfterUnterminatedLine | scripts/switch_provider.py:147-153 | over a file holding `# end` without a newline, writing `K=v` produces `# endK=v`, which reads back with no `K` at all |
| SwitchProvider.WrittenLineReadsBack | scripts/switch_provider.py:142 | a written `key=value` line with a clean key and value reads back as that pair |
| SwitchProvider.ParsedIsClean | scripts/switch_provider.py:113-117 | every key and value read from a file is clean: the key holds no `=` and no newline and is empty or starts with neither a blank nor `#`, and the value holds no newline and is empty or ends in a non-blank (so `=x` gives the empty key, and `K = v` the key `K ` and the value ` v`) |
| SwitchProvider.MergedEntries | scripts/switch_provider.py:134-150 | the written file's assignments are the rewritten old ones followed by the appended new ones, when the appended lines start on a line of their own |
| SwitchProvider.MergedLineEntries | scripts/switch_provider.py:134-150 | the merged lines' assignments are the old ones with the dictionary's values put in, followed by one per unassigned key |
| SwitchProvider.LastValueAppend | scripts/switch_provider.py:113-117 | in a concatenation the later part's assignment of a key wins |
| SwitchProvider.MergeThenRead | scripts/switch_provider.py:122-153 | reading back a written file gives each dictionary key its dictionary value and leaves every other key as the old file had it, when the appended lines start on a line of their own |
| SwitchProvider.MergeThenReadLines | scripts/switch_provider.py:134-150 | parsing the merged lines gives each dictionary key its dictionary value and every other key its old value |
| SwitchProvider.PutAll | scripts/switch_provider.py:194-195 | assigning a list of variables keeps the dictionary well formed |
| SwitchProvider.PutAllGet | scripts/switch_provider.py:194-195 | after assigning the variables, each reads back its value and every other key is unchanged |
| SwitchProvider.UpdateEnv | scripts/switch_provider.py:194-195 | the update loop assigns every variable of the provider |
| SwitchProvider.MissingKeys | scripts/switch_provider.py:164-166 | the missing keys are exactly the required keys that are absent, empty or the `your-<provider>-api-key` placeholder |
| SwitchProvider.CheckProviderConfig | scripts/switch_provider.py:156-175 | an unknown provider is not configured and lists nothing; a known one lists exactly its missing required keys, in order, and is configured exactly when there are none |
| SwitchProvider.CollectMissing | scripts/switch_provider.py:164-166 | the loop over the required keys collects the missing ones, in order |
| SwitchProvider.ConfiguredIffNoneMissing | scripts/switch_provider.py:164-175 | a known provider is configured exactly when none of its required keys is missing |
| SwitchProvider.OllamaAlwaysConfigured | scripts/switch_provider.py:83-93 | the local provider needs no keys, so it is configured whatever the file holds |
| SwitchProvider.SwitchTo | scripts/switch_provider.py:178-209 | an unknown provider is refused; a known one assigns its variables over the file's, writes the merged lines, and is ready exactly when configured |
| SwitchProvider.SwitchThenRead | scripts/switch_provider.py:178-197 | after a switch the file reads back the provider's variables and every other key as before, when the appended lines start on a line of their own |
| SwitchProvider.UpdateThenRead | scripts/switch_provider.py:188-197 | for any clean distinct variables, assigning them and writing the file reads back those values and leaves other keys as before, when the appended lines start on a line of their own |
| SwitchProvider.UpdateThenReadLines | scripts/switch_provider.py:188-197 | the same for the file's lines: parsing the merged lines gives the variables' values and leaves other keys as before |
| SwitchProvider.UpdatedIsClean | scripts/switch_provider.py:194-195 | assigning clean variables to a clean dictionary keeps it clean |
| SwitchProvider.TableIsClean | scripts/switch_provider.py:29-94 | every variable in the provider table is clean, so switching writes lines that read back |
| SwitchProvider.HasCredentials | scripts/switch_provider.py:246-249 | a provider without required keys has credentials; otherwise every required key is set, non-empty and not starting with `your-` |
| SwitchProvider.CredentialsImplyConfigured | scripts/switch_provider.py:246-249 | the status credentials check is stricter than the switch check: passing it implies being configured |
| SwitchProvider.ConfiguredWithoutCredentials | scripts/switch_provider.py:165 | a key set to `your-key` passes the switch check but not the status check, so the two differ |
| SwitchProvider.StatusRows | scripts/switch_provider.py:233-259 | one status row per provider in table order: its id, whether it is the current provider (default `openai`), and whether it has credentials |
| SwitchProvider.OneActiveRow | scripts/switch_provider.py:236-243 | exactly one row is active when the current provider is known, none otherwise |
| CliIntegration.Or | agents/cli_integration.py:92-96 | Python's `or` on configuration values: the result is truthy exactly when either operand is, and is the left operand when that one is truthy |
| CliIntegration.LoadConfig | agents/cli_integration.py:52-77 | with no readable file the defaults (`openai`, empty key and model, no agents) are used; otherwise every stored key overrides its default and every missing key keeps it |
| CliIntegration.DefaultModel | agents/cli_integration.py:40-47 | the provider table yields a non-empty model exactly for the six known provider names |
| CliIntegration.GetAgentConfig | agents/cli_integration.py:80-98 | each setting of the agent's own entry wins when truthy, otherwise the global setting is used; the model falls back from the agent's to the global one to the provider's table model; an agent is active unless its entry sets `activo` to false |
| CliIntegration.FreshInstall | agents/cli_integration.py:57-67 | without a configuration file every agent runs on `openai` with an empty key, model `gpt-4o`, and is active |
| CliIntegration.UnconfiguredAgentsAgree | agents/cli_integration.py:88-98 | two agents without an entry of their own get the same configuration |
| CliIntegration.ModelEmptyOnlyForUnknownProvider | agents/cli_integration.py:94-96 | the resolved model is empty exactly when neither the agent nor the global configuration names one and the provider is not in the table |
| CliIntegration.DetectedType | agents/cli_integration.py:282-295 | a known lower-cased extension decides the content type; otherwise a non-empty caller type is used, else `documento` |
| CliIntegration.ResolveContentType | agents/cli_integration.py:238-241 | the lower-cased name selects the content type whose value it is, and only when no content type has that value does it fall back to `documento` |
| CliIntegration.KnownExtensionOverrides | agents/cli_integration.py:282-295 | for a mapped extension the caller's content type is ignored and the type is `codigo` or `documento` |
| CliIntegration.ResolveOwnName | agents/cli_integration.py:238-241 | every content type is found again from its own value |
| CliIntegration.UnknownNameIsDocument | agents/cli_integration.py:240-241 | a name that is no content type's value resolves to `documento` |
| CliIntegration.Extensions | agents/cli_integration.py:324 | a non-empty extension list is kept as given; an empty one becomes the five defaults |
| CliIntegration.Row | agents/cli_integration.py:363-367 | a file's row keeps its path, is successful exactly when indexing gave no error, and carries the content hash only then |
| CliIntegration.IndexDirectory | agents/cli_integration.py:311-374 | a missing directory is an error; otherwise one row per globbed file whose path contains none of the excluded fragments, in glob order, each from indexing that file, with successes counted and failures the rest |
| CliIntegration.GatherFiles | agents/cli_integration.py:327-332 | the glob loop collects every extension's matches, extension after extension, in the order the extensions are given |
| CliIntegration.IndexFiles | agents/cli_integration.py:343-367 | the indexing loop yields one row per file in file order, each from indexing that file, and counts the rows marked successful |
| CliIntegration.IndexedPathsAreKept | agents/cli_integration.py:327-336 | a path is indexed exactly when one of the extensions' globs yields it and its path contains none of the excluded fragments (a substring test, so `venv` also drops `docs/myvenv_notes.md`) |
| CliIntegration.SuccessesCount | agents/cli_integration.py:355-356 | the success count equals the number of rows marked successful |
| CliIntegration.StepsCover | agents/cli_integration.py:733-745 | the scanner's steps consume every argument after the command, each exactly once and in order |
| CliIntegration.TrailingFlagIgnored | agents/cli_integration.py:735-745 | a recognised flag is skipped without a value only when it is the last argument |
| CliIntegration.SettingIsLast | agents/cli_integration.py:733-745 | a flag never set keeps its default; otherwise the value is that of its last setting |
| CliIntegration.ProgramarLastWins | agents/cli_integration.py:733-745 | scanning the steps sets hour, frequency and intensity each to its last given value or default |
| CliIntegration.ScanProgramar | agents/cli_integration.py:729-745 | the `programar` loop leaves hour, frequency and intensity at their last given values, defaulting to `02:00`, `semanal` and `normal` |
| CliIntegration.CicloErrSticks | agents/cli_integration.py:716-717 | once a duration fails to parse, the rest of the arguments leave the error unchanged |
| CliIntegration.CicloLastWins | agents/cli_integration.py:711-720 | the scan succeeds exactly when every given duration parses as an integer, and then intensity and duration are their last given values or defaults |
| CliIntegration.ScanCiclo | agents/cli_integration.py:707-720 | the `ciclo` loop fails exactly when a `--duracion` value is not an integer, and otherwise yields the last intensity (default `normal`) and the last duration (default 360) |
| CliIntegration.CronLine | agents/cli_integration.py:594 | the cron line runs the script at minute 0 of the hour written before the first colon of the start time, or of the whole start time when it has no colon |
| CliIntegration.CronHour | agents/cli_integration.py:594 | for a start time `HH:MM` the cron line runs at hour `HH` every day |
| LoadDocs.PathLeTotal | scripts/load_docs.py:70 | the path order `sorted` uses (part by part, each part by characters) relates every two paths, so the sort is well defined |
| LoadDocs.DiscoverDocuments | scripts/load_docs.py:39-70 | a missing directory gives no documents; otherwise every globbed file of a supported extension that mentions no excluded pattern, sorted by path |
| LoadDocs.Keep | scripts/load_docs.py:64-68 | the filter keeps, in order, exactly the paths containing none of the excluded patterns |
| LoadDocs.DiscoveredProperties | scripts/load_docs.py:47-70 | the discovered list is sorted, is a permutation of the kept files, and holds a path exactly when an extension's glob yields it and it mentions no excluded pattern |
| LoadDocs.FirstMatch | scripts/load_docs.py:103-120 | the `if`/`elif` chain: no category exactly when no rule's substrings occur, and otherwise the category of the first rule whose substring occurs |
| LoadDocs.Categorize | scripts/load_docs.py:99-126 | every document gets one of the twelve category labels |
| LoadDocs.TrustgraphFirst | scripts/load_docs.py:101-104 | a document is `trustgraph` exactly when its lower-cased path contains `trustgraph` |
| LoadDocs.OtherWhenNothingMatches | scripts/load_docs.py:103-126 | a document is `other` exactly when no substring rule matches its lower-cased path and its suffix is neither `.md` nor `.json` |
| LoadDocs.TrustgraphIgnoresCase | scripts/load_docs.py:101-104 | lower-casing a path first does not change whether it is `trustgraph` |
| LoadDocs.SplitLines | scripts/load_docs.py:79 | no line holds a line break, there are no lines exactly when the text is empty, and never more lines than characters |
| LoadDocs.SplitTerminated | scripts/load_docs.py:79 | splitting lines that were each terminated by a newline gives those lines back |
| LoadDocs.Utf8Length | scripts/load_docs.py:88 | the UTF-8 size is between one and four bytes per character, and equals the character count exactly when the text is ASCII |
| LoadDocs.Utf8Append | scripts/load_docs.py:88 | the UTF-8 size of two texts joined is the sum of their sizes |
| LoadDocs.WordsBound | scripts/load_docs.py:80 | a text of n characters has at most (n+1)/2 whitespace-separated words |
| LoadDocs.ReadDocument | scripts/load_docs.py:73-96 | a document is read exactly when its content could be read and it lies under the project root; its record keeps the content, the full path, the path relative to the root, the file name after the last `/` and its suffix, the UTF-8 size, the line and word counts and its category |
| LoadDocs.OfCategory | scripts/load_docs.py:330-332 | the filter keeps exactly the documents of the requested category |
| LoadDocs.ReadAll | scripts/load_docs.py:341-345 | reading keeps at most one record per document, each with a known category label |
| LoadDocs.ReadDocuments | scripts/load_docs.py:341-345 | the read loop collects, in order, the records of the documents that could be read |
| LoadDocs.TallyCategories | scripts/load_docs.py:351-354 | the tally has a key exactly for the categories that occur, each counting its documents |
| LoadDocs.CategoryCountsSum | scripts/load_docs.py:351-354 | the per-category counts over the twelve labels add up to the number of documents read |
| LoadDocs.Upload | scripts/load_docs.py:396-408 | the upload loop counts as successful exactly the documents the server accepts, and every other one as failed |
| LoadDocs.LoadAll | scripts/load_docs.py:285-408 | the run stops early when no document survives discovery and the optional category filter; otherwise it reads them and tallies exactly the categories present, each with its document count, stops at a dry run, stops when the server is unhealthy, and else uploads, counting successes and failures |
| LoadDocs.FilteredDocsHaveCategory | scripts/load_docs.py:330-345 | with a category filter every document read has that category |
| LoadDocs.ReadAllCategories | scripts/load_docs.py:341-354 | every record's category is the category of one of the discovered documents |
| Common.RFindLast | agents/callimaco.py:690 | `rfind` gives -1 exactly when the text does not contain the separator, otherwise the last position where it occurs |
| Common.SplitOn | agents/socrates.py:586 | `str.split(sep)` gives at least one part, more than one exactly when the separator occurs, and no part containing it |
| Common.JoinSplit | agents/socrates.py:586 | joining the parts of a split with the separator gives the text back |
| Common.BeforeFirst | agents/cli_integration.py:594 | `split(sep)[0]` is the prefix before the first separator, holding no separator, and the whole text when the separator does not occur |
| Common.Strip | agents/socrates.py:595 | `strip` leaves no whitespace at either end and is empty exactly when the text is all whitespace |
| Common.StripCutsBlanks | agents/socrates.py:595 | the stripped text is a contiguous slice of the text, and every character cut before or after it is whitespace |
| Common.Words | scripts/load_docs.py:80 | `str.split()` gives non-empty words with no whitespace in them |
| Common.WordsAreRuns | scripts/load_docs.py:80 | the words, put together, are exactly the text's non-whitespace characters in order, and there are none exactly when the text is all whitespace |
| Common.WordRun | scripts/load_docs.py:80 | each word is a maximal run of non-whitespace characters of the text: whitespace or the text's end on either side |
| Common.Lower | scripts/load_docs.py:101 | lower-casing keeps the length and maps each character on its own, `A`-`Z` to `a`-`z` |
| Common.LowerIdempotent | agents/cli_integration.py:282 | lower-casing twice is lower-casing once |
| Common.NatToString | agents/callimaco.py:663 | a number renders as a non-empty string of decimal digits with no leading zero |
| Common.ParseInt | agents/cli_integration.py:717 | `int()` succeeds exactly on a non-empty string of decimal digits, optionally after one `+` or `-`; the value is the digits' value, negated after `-`; anything else (empty, sign alone, any other character) fails |
| Common.ParseRendered | agents/cli_integration.py:717 | parsing a rendered number gives the number back |
| Common.ReprQuote | agents/socrates.py:369-370 | `repr` quotes a string with `"` exactly when it holds a `'` and no `"`, otherwise with `'` |
| Common.Repr | agents/socrates.py:369-370 | the shown value starts and ends with the quote `repr` chooses |
| Common.ReprRoundTrip | agents/socrates.py:369-370 | reading the escapes between the quotes back gives the original string |
| Common.UnescapeEscape | agents/socrates.py:369-370 | unescaping undoes escaping for either quote |
| Common.ReprOfPlain | agents/socrates.py:369-370 | a value without backslashes, single quotes or control characters is shown verbatim between single quotes |
| Common.ReprOfApostrophe | agents/socrates.py:369-370 | `it's` is shown as `"it's"` |
| Common.Dedup | agents/callimaco.py:663 | taking the set of names keeps each distinct name exactly once and no other |
| Common.DistinctIffNoSmallerSet | agents/callimaco.py:548-549 | a list of names has no duplicate exactly when its set is as large as the list |
| Common.FileName | scripts/load_docs.py:85 | a path's name is the whole rest of the path after its last `/` (all of it when there is none), holding no `/` |
| Common.Suffix | scripts/load_docs.py:86 | a non-empty suffix is a dot followed by at least one character with no further dot, ending the name and shorter than it; an empty suffix means no dot of the name, past its first character and before its last, is the last dot |
| Common.Globbed | scripts/load_docs.py:47-49 | a path is gathered exactly when one of the extensions' globs yields it |
| Common.WithoutExcluded | scripts/load_docs.py:64-68 | a path is kept exactly when it was given and contains none of the excluded fragments |
| Common.SortBy | scripts/load_docs.py:70 | sorting keeps the length and the multiset of elements |
| Common.SortBySorted | scripts/load_docs.py:70 | under a total order sorting gives a sorted permutation |
| Common.SortByStable | agents/socrates.py:411 | elements that compare equal keep their original relative order, as Python's sort does |
| Workflow.Follow | agents/callimaco.py:244-300 | a plain edge always leads to its target; a conditional edge leads to the target the router's label names and to none for an unlisted label |

## Left out

- Prompts, LLM and embedding calls: each node receives the model's reply already decoded (or the failure), so prompt text and JSON decoding are not modelled.
- Hashing (`hashlib`), regular expressions and `uuid`: these become function-typed inputs; the model fixes only how their results are used.
- Python `set` iteration order: `set(...)` is modelled by keeping first occurrences (`Common.Dedup`), so the resulting order is one possible order, not CPython's.
- Floating point: scores, confidences and durations are Dafny `real`s; rounding and float formatting are not modelled. The one place where rounding changes a decision, the heuristic decomposition test at agents/socrates.py:572-573, is modelled by `Socrates.AboveSixTenthsInDoubles`.
- `Socrates.MaieuticaHeuristic`: the stored complexity is the exact sum, so for (words, connectors) = (4, 4), (6, 3) or (8, 2) it is 0.6 where Python stores 0.6000000000000001; the decomposition flag, and with it the route to the division, follows Python.
- The LangGraph recursion limit and `ainvoke`: each pipeline's `Run` takes a `fuel` bound on the number of node steps, and a run that exhausts it stops without a result.
- Timestamps, `datetime.now()`, session ids and measured durations: these become inputs.
- Morpheo's scan statistics are simulated constants in the source; the model takes them as given. Writing the report file and logging are left out.
- Morpheo's job executors: their success or failure is an input per job.
- Sócrates' anakrisis cap of two pointers per source (`agents/socrates.py:420-421`): the count is taken in a list made from the set of seen sources, so it never reaches two and the cap never applies; the model keeps that behaviour.
- Morpheo's report field `issues_detected` (`agents/morpheo.py:89`) is never filled in the source and only its length is read when the result is summarised (`agents/morpheo.py:634`); the model keeps it empty.
- `switch_provider.py`: printing, `sys.exit`, `interactive_menu`, `show_current_provider` (beyond the current-provider lookup) and the `main` argument dispatch are left out. The `.env` file is its text, or absent; the text is the one Python reads after universal-newline translation (`\r\n` and `\r` already turned into `\n`), and reading cuts it after each `\n`.
- `SwitchProvider.MergeThenRead` requires `AppendSafe`: the file is empty or ends in a newline, or its last line is rewritten, or nothing is appended. `writelines` adds no separator, so a new variable appended after a kept last line without a newline is glued to that line; `SwitchProvider.AppendAfterUnterminatedLine` shows such a file whose new variable does not read back, and `SwitchProvider.NewlineEndedIsSafe` shows that every file ending in a newline is safe.
- `SwitchProvider.SwitchThenRead` requires `AppendSafe` for the same reason as `SwitchProvider.MergeThenRead`.
- `SwitchProvider.UpdateThenRead` requires `AppendSafe` for the same reason as `SwitchProvider.MergeThenRead`.
- `SwitchProvider.MergedEntries` requires `AppendSafe` for the same reason as `SwitchProvider.MergeThenRead`.
- `SwitchProvider.WrittenLinesReadBack` requires `AppendSafe` for the same reason as `SwitchProvider.MergeThenRead`.
- `SwitchProvider.MergedShaped` requires `AppendSafe` for the same reason as `SwitchProvider.MergeThenRead`.
- `cli_integration.py`: configuration values in the JSON file are strings or absent; other JSON types and a `null` `agentes` or `activo` are not modelled. The `AgentCLI` getters, agent construction, the interactive question loop, the `investigador` commands, the `main` dispatch and all verbose printing are left out.
- `cli_integration.py` scheduling: writing the cron script, `chmod` and the instructions text are left out; only the cron line is modelled.
- Paths are strings: `pathlib` normalisation, `exists`/`is_dir` checks and `relative_to` beyond a prefix test are not modelled, and `rglob`/`glob` is an input per extension.
- `load_docs.py` walks `SUPPORTED_EXTENSIONS`, a Python set, in unspecified order; the model walks it in the order written. The result is sorted afterwards, so the discovered list is the same up to paths that compare equal.
- `Common.ParseInt` accepts an optional `+` or `-` followed by decimal digits: the surrounding whitespace, `_` separators and non-ASCII digits that Python's `int()` also accepts are not modelled.
- `LoadDocs.ReadDocument`: `modified_time` (a file-system timestamp) is not modelled, and reading with `errors="ignore"` is taken to give the content or fail as a whole.
- `load_docs.py`: the HTTP client, the health check and each document's ingestion are inputs; the results of creating the context core and the collection are ignored by the source and are not modelled; printing the summary is left out.
- `Common.Repr` writes a backslash, a newline, a carriage return, a tab and the chosen quote as two-character escapes, and the other non-printable characters below U+0100 (the C0 and C1 controls, the no-break space and the soft hyphen) as `\xhh`; characters from U+0100 on are kept as they are, whereas Python's `repr` writes the non-printable ones among them as `\uXXXX` or `\UXXXXXXXX`.
- `Common.Words` and `Common.Strip` split on and cut the ASCII and Latin-1 whitespace characters of `Common.IsSpace`, not every Unicode whitespace character that `str.split()` and `str.strip()` recognise; `Common.Lower` maps only `A`-`Z` and the Latin-1 capitals.
- Callímaco's payloads beyond the modelled fields: the `propiedades` maps of entities and relations (and the `properties` they carry into graph operations), the semantic tags in each vector's metadata, and the plan's `metadata` timestamp and tags and its `reasoning` text are not modelled.
- `agents/cli_integration.py` annotates parameters with `Literal` (lines 384, 510 and 565) but imports only `Dict`, `List`, `Any` and `Optional` from `typing` (line 13), so on Python versions before 3.14, which evaluate annotations when a function is defined, loading the module raises `NameError` (from 3.14 annotations are evaluated lazily and it loads); the model takes the annotated values as plain strings and assumes the module loads.
