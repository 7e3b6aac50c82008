/**
 * Callímaco's running state and its seven workflow nodes. The state is an
 * object the nodes update field by field; the engine runs a node, asks the
 * node's router for a label and follows the edge table, until it reaches the
 * end or the step budget runs out.
 *
 * Hashing, the capitalised-run regular expression and the language model sit
 * outside the model: the hashes and the regex are functions the agent is
 * built with, and each language-model call is a reply handed to the node.
 */
module CallimacoAgent {
  import opened Common
  import opened Workflow
  import opened Callimaco

  /** The state threaded through the workflow; content, type and source never change. */
  class CallimacoState {
    const content: string
    const contentType: ContentType
    const source: string
    const maxRetries: nat

    var contentHash: string
    var entities: seq<Entity>
    var relations: seq<Relation>
    var semanticTags: Option<SemanticTags>
    var summary: string
    var storagePlan: Option<StoragePlan>
    var executionResult: Option<ExecutionResult>
    var errors: seq<string>
    var currentStep: string
    var retryCount: nat

    /** A fresh state: nothing computed yet, no errors, three retries allowed. */
    constructor(content: string, contentType: ContentType, source: string)
      ensures this.content == content && this.contentType == contentType && this.source == source
      ensures maxRetries == 3 && retryCount == 0 && errors == [] && currentStep == "inicio"
      ensures contentHash == "" && entities == [] && relations == [] && semanticTags.None? && summary == ""
      ensures storagePlan.None? && executionResult.None?
    {
      this.content := content;
      this.contentType := contentType;
      this.source := source;
      maxRetries := 3;
      contentHash := "";
      entities := [];
      relations := [];
      semanticTags := None;
      summary := "";
      storagePlan := None;
      executionResult := None;
      errors := [];
      currentStep := "inicio";
      retryCount := 0;
    }

    /** The part of the state the routers read. */
    function Routed(): View
      reads this`errors, this`retryCount, this`executionResult
    {
      View(errors != [], retryCount, maxRetries, |content|,
           executionResult.Some? && executionResult.value.success)
    }
  }

  /** The reply entities as stored, all of which have their keys. */
  function EntitiesOf(raw: seq<RawEntity>, md5Hex: string -> string): (es: seq<Entity>)
    requires forall i :: 0 <= i < |raw| ==> EntityKeyError(raw[i]).None?
    ensures |es| == |raw| && forall i :: 0 <= i < |raw| ==> es[i] == EntityOf(raw[i], md5Hex)
  {
    seq(|raw|, i requires 0 <= i < |raw| => EntityOf(raw[i], md5Hex))
  }

  function RelationsOf(raw: seq<RawRelation>): (rs: seq<Relation>)
    requires forall i :: 0 <= i < |raw| ==> RelationKeyError(raw[i]).None?
    ensures |rs| == |raw| && forall i :: 0 <= i < |raw| ==> rs[i] == RelationOf(raw[i])
  {
    seq(|raw|, i requires 0 <= i < |raw| => RelationOf(raw[i]))
  }

  lemma EntitiesOfSnoc(raw: seq<RawEntity>, i: nat, md5Hex: string -> string)
    requires i < |raw| && forall k :: 0 <= k <= i ==> EntityKeyError(raw[k]).None?
    ensures EntitiesOf(raw[..i + 1], md5Hex) == EntitiesOf(raw[..i], md5Hex) + [EntityOf(raw[i], md5Hex)]
  {
  }

  lemma RelationsOfSnoc(raw: seq<RawRelation>, i: nat)
    requires i < |raw| && forall k :: 0 <= k <= i ==> RelationKeyError(raw[k]).None?
    ensures RelationsOf(raw[..i + 1]) == RelationsOf(raw[..i]) + [RelationOf(raw[i])]
  {
  }

  /** The language model's replies, by the step of the run at which the node asks. */
  datatype Replies = Replies(
    classify: nat -> Reply<ClassifyRecord>,
    extract: nat -> Reply<ExtractRecord>,
    tag: nat -> Reply<TagRecord>)

  /** What `indexar` returns. */
  datatype Report = Report(
    success: bool,
    contentHash: string,
    entitiesExtracted: nat,
    relationsExtracted: nat,
    destination: Option<StorageDestination>,
    cassandraOps: nat,
    qdrantOps: nat,
    semanticTags: Option<SemanticTags>,
    executionResult: Option<ExecutionResult>,
    errors: seq<string>)

  class CallimacoAgent {
    /** Whether a language model is configured. */
    const hasLlm: bool
    /** Hex digest of the UTF-8 bytes, as `hashlib.sha256(...).hexdigest()`. */
    const sha256Hex: string -> string
    /** Hex digest, as `hashlib.md5(...).hexdigest()`. */
    const md5Hex: string -> string
    /** The matches of `\b[A-Z][a-z]+(?:\s+[A-Z][a-z]+)*\b`, in order. */
    const capitalisedRuns: string -> seq<string>

    constructor(hasLlm: bool, sha256Hex: string -> string, md5Hex: string -> string,
                capitalisedRuns: string -> seq<string>)
      ensures this.hasLlm == hasLlm && this.sha256Hex == sha256Hex && this.md5Hex == md5Hex
      ensures this.capitalisedRuns == capitalisedRuns
    {
      this.hasLlm := hasLlm;
      this.sha256Hex := sha256Hex;
      this.md5Hex := md5Hex;
      this.capitalisedRuns := capitalisedRuns;
    }

    // ============================================================== nodes

    /**
     * Classification: the content hash always; without a model the keyword
     * tags; with one, the reply's tags and summary, or an error (there is no
     * fallback to the keyword tags).
     */
    method NodeClasificar(st: CallimacoState, reply: Reply<ClassifyRecord>)
      modifies st`currentStep, st`contentHash, st`semanticTags, st`summary, st`errors
      ensures st.currentStep == "clasificar" && st.contentHash == Prefix(sha256Hex(st.content), 16)
      ensures !hasLlm ==> st.semanticTags == Some(HeuristicTags(st.content))
                          && st.summary == old(st.summary) && st.errors == old(st.errors)
      ensures hasLlm && reply.Failed? ==>
        st.errors == old(st.errors) + ["Error en clasificación: " + reply.message]
        && st.semanticTags == old(st.semanticTags) && st.summary == old(st.summary)
      ensures hasLlm && reply.Parsed? ==>
        match TagsFromClassification(reply.record)
        case Ok(v) => st.semanticTags == Some(v.0) && st.summary == v.1 && st.errors == old(st.errors)
        case Err(m) => st.errors == old(st.errors) + ["Error en clasificación: " + m]
                       && st.semanticTags == old(st.semanticTags) && st.summary == old(st.summary)
      ensures st.retryCount == old(st.retryCount) && old(st.errors) <= st.errors && st.executionResult == old(st.executionResult)
    {
      st.currentStep := "clasificar";
      st.contentHash := Prefix(sha256Hex(st.content), 16);
      if !hasLlm {
        st.semanticTags := Some(HeuristicTags(st.content));
        return;
      }
      match reply
      case Failed(msg) =>
        st.errors := st.errors + ["Error en clasificación: " + msg];
      case Parsed(rec) =>
        match TagsFromClassification(rec)
        case Ok(v) =>
          st.semanticTags := Some(v.0);
          st.summary := v.1;
        case Err(m) =>
          st.errors := st.errors + ["Error en clasificación: " + m];
    }

    /**
     * Extraction: nothing for content under 100 characters; without a model
     * the capitalised runs as entities, replacing any earlier ones; with one,
     * the reply's entities and then its relations are appended one by one, so
     * an item missing a key stops the node with the items before it kept.
     */
    method NodeExtraer(st: CallimacoState, reply: Reply<ExtractRecord>)
      modifies st`currentStep, st`entities, st`relations, st`errors
      ensures st.currentStep == "extraer"
      ensures |st.content| < 100 ==>
        st.entities == old(st.entities) && st.relations == old(st.relations) && st.errors == old(st.errors)
      ensures |st.content| >= 100 && !hasLlm ==>
        st.entities == HeuristicEntities(capitalisedRuns(st.content)) && st.relations == []
        && st.errors == old(st.errors)
      ensures |st.content| >= 100 && hasLlm && reply.Failed? ==>
        st.entities == old(st.entities) && st.relations == old(st.relations)
        && st.errors == old(st.errors) + ["Error en extracción: " + reply.message]
      ensures |st.content| >= 100 && hasLlm && reply.Parsed? ==>
        var ents := reply.record.entidades;
        var n := ConvertiblePrefix(ents, EntityKeyError);
        st.entities == old(st.entities) + EntitiesOf(ents[..n], md5Hex)
        && (n < |ents| ==>
              st.relations == old(st.relations)
              && st.errors == old(st.errors) + ["Error en extracción: " + EntityKeyError(ents[n]).value])
        && (n == |ents| ==>
              var rels := reply.record.relaciones;
              var m := ConvertiblePrefix(rels, RelationKeyError);
              st.relations == old(st.relations) + RelationsOf(rels[..m])
              && (m < |rels| ==> st.errors == old(st.errors) + ["Error en extracción: " + RelationKeyError(rels[m]).value])
              && (m == |rels| ==> st.errors == old(st.errors)))
      ensures st.retryCount == old(st.retryCount) && old(st.errors) <= st.errors && st.executionResult == old(st.executionResult)
    {
      st.currentStep := "extraer";
      if |st.content| < 100 {
        return;
      }
      if !hasLlm {
        st.entities := HeuristicEntities(capitalisedRuns(st.content));
        st.relations := [];
        return;
      }
      match reply
      case Failed(msg) =>
        st.errors := st.errors + ["Error en extracción: " + msg];
      case Parsed(rec) =>
        var added, failure := ConvertEntities(rec.entidades);
        st.entities := st.entities + added;
        if failure.Some? {
          st.errors := st.errors + ["Error en extracción: " + failure.value];
          return;
        }
        var linked, failure' := ConvertRelations(rec.relaciones);
        st.relations := st.relations + linked;
        if failure'.Some? {
          st.errors := st.errors + ["Error en extracción: " + failure'.value];
        }
    }

    /** The entity loop: each reply entity converted in turn until one lacks a key. */
    method ConvertEntities(ents: seq<RawEntity>) returns (added: seq<Entity>, failure: Option<string>)
      ensures var n := ConvertiblePrefix(ents, EntityKeyError);
        added == EntitiesOf(ents[..n], md5Hex)
        && failure == (if n < |ents| then EntityKeyError(ents[n]) else None)
    {
      ghost var n := ConvertiblePrefix(ents, EntityKeyError);
      added := [];
      var i := 0;
      while i < |ents|
        invariant i <= n && added == EntitiesOf(ents[..i], md5Hex)
      {
        var err := EntityKeyError(ents[i]);
        if err.Some? {
          return added, err;
        }
        EntitiesOfSnoc(ents, i, md5Hex);
        added := added + [EntityOf(ents[i], md5Hex)];
        i := i + 1;
      }
      assert ents[..i] == ents;
      failure := None;
    }

    /** The relation loop: each reply relation converted in turn until one lacks a key. */
    method ConvertRelations(rels: seq<RawRelation>) returns (linked: seq<Relation>, failure: Option<string>)
      ensures var m := ConvertiblePrefix(rels, RelationKeyError);
        linked == RelationsOf(rels[..m])
        && failure == (if m < |rels| then RelationKeyError(rels[m]) else None)
    {
      ghost var m := ConvertiblePrefix(rels, RelationKeyError);
      linked := [];
      var j := 0;
      while j < |rels|
        invariant j <= m && linked == RelationsOf(rels[..j])
      {
        var err := RelationKeyError(rels[j]);
        if err.Some? {
          return linked, err;
        }
        RelationsOfSnoc(rels, j);
        linked := linked + [RelationOf(rels[j])];
        j := j + 1;
      }
      assert rels[..j] == rels;
      failure := None;
    }

    /**
     * Tagging: without a model the keyword tags again; with one, the reply's
     * tags, keeping complexity and audience from the classification.
     */
    method NodeEtiquetar(st: CallimacoState, reply: Reply<TagRecord>)
      modifies st`currentStep, st`semanticTags, st`errors
      ensures st.currentStep == "etiquetar"
      ensures !hasLlm ==> st.semanticTags == Some(HeuristicTags(st.content)) && st.errors == old(st.errors)
      ensures hasLlm && reply.Failed? ==>
        st.semanticTags == old(st.semanticTags) && st.errors == old(st.errors) + ["Error en etiquetado: " + reply.message]
      ensures hasLlm && reply.Parsed? ==>
        st.semanticTags == Some(TagsFromTagging(reply.record, old(st.semanticTags))) && st.errors == old(st.errors)
      ensures st.retryCount == old(st.retryCount) && old(st.errors) <= st.errors && st.executionResult == old(st.executionResult)
    {
      st.currentStep := "etiquetar";
      if !hasLlm {
        st.semanticTags := Some(HeuristicTags(st.content));
        return;
      }
      match reply
      case Failed(msg) =>
        st.errors := st.errors + ["Error en etiquetado: " + msg];
      case Parsed(rec) =>
        st.semanticTags := Some(TagsFromTagging(rec, st.semanticTags));
    }

    /** Planning: always leaves a plan, computed from the entities, relations and content as they stand. */
    method NodePlanificar(st: CallimacoState)
      modifies st`currentStep, st`storagePlan
      ensures st.currentStep == "planificar" && st.storagePlan.Some?
      ensures var plan := st.storagePlan.value;
        plan.destination == Destination(|st.entities|, |st.content|, st.contentType)
        && plan.contentHash == st.contentHash
        && plan.entityCount == |st.entities| && plan.relationCount == |st.relations|
        && (WritesGraph(plan.destination) <==> |plan.cassandraOps| == |st.entities| + |st.relations| > 0)
        && (WritesVectors(plan.destination) <==> |plan.qdrantOps| > 0)
        && (WritesVectors(plan.destination) ==> Reassemble(VectorContents(plan.qdrantOps), ChunkOverlap) == st.content)
        && (WritesGraph(plan.destination) ==> GraphOpsFor(plan.cassandraOps, st.entities, st.relations))
        && (WritesVectors(plan.destination) ==>
              VectorOpsFor(plan.qdrantOps, st.content, st.contentType, st.source, st.contentHash))
      ensures st.retryCount == old(st.retryCount) && st.errors == old(st.errors) && st.executionResult == old(st.executionResult)
    {
      st.currentStep := "planificar";
      var plan := PlanStorage(st.entities, st.relations, st.content, st.contentType, st.source, st.contentHash);
      st.storagePlan := Some(plan);
    }

    /** Validation: appends the plan's findings to the errors. */
    method NodeValidar(st: CallimacoState)
      modifies st`currentStep, st`errors
      ensures st.currentStep == "validar"
      ensures st.errors == old(st.errors) + ValidationErrors(st.storagePlan, st.entities)
      ensures st.retryCount == old(st.retryCount) && old(st.errors) <= st.errors && st.executionResult == old(st.executionResult)
    {
      st.currentStep := "validar";
      st.errors := st.errors + ValidationErrors(st.storagePlan, st.entities);
    }

    /** Storage: the simulated result of the plan, or an error when there is no plan. */
    method NodeAlmacenar(st: CallimacoState)
      modifies st`currentStep, st`executionResult, st`errors
      ensures st.currentStep == "almacenar"
      ensures st.storagePlan.None? ==>
        st.errors == old(st.errors) + ["No hay plan para ejecutar"] && st.executionResult == old(st.executionResult)
      ensures st.storagePlan.Some? ==>
        st.executionResult == Some(ExecutionFor(st.storagePlan.value)) && st.errors == old(st.errors)
      ensures st.retryCount == old(st.retryCount) && old(st.errors) <= st.errors
    {
      st.currentStep := "almacenar";
      if st.storagePlan.None? {
        st.errors := st.errors + ["No hay plan para ejecutar"];
        return;
      }
      st.executionResult := Some(ExecutionFor(st.storagePlan.value));
    }

    /** Error handling: spends one retry. */
    method NodeManejarError(st: CallimacoState)
      modifies st`currentStep, st`retryCount
      ensures st.currentStep == "error" && st.retryCount == old(st.retryCount) + 1
      ensures st.errors == old(st.errors) && st.executionResult == old(st.executionResult)
    {
      st.currentStep := "error";
      st.retryCount := st.retryCount + 1;
    }

    // ============================================================== engine

    /** One step of the engine: run node `n` (asking the model with the replies for step `k`) and route. */
    method Step(st: CallimacoState, n: Node, replies: Replies, k: nat) returns (t: Target<Node>)
      modifies st`currentStep, st`contentHash, st`semanticTags, st`summary, st`errors, st`entities,
               st`relations, st`storagePlan, st`executionResult, st`retryCount
      ensures StepEffect(n, old(st.Routed()), st.Routed())
      ensures t == Next(n, st.Routed())
      ensures old(st.errors) <= st.errors
      ensures n == Validar && st.errors == [] ==> st.storagePlan.Some?
      ensures n == Almacenar && old(st.storagePlan).Some? ==> st.errors == old(st.errors)
      ensures n == Almacenar ==> st.errors != [] || st.Routed().succeeded
    {
      match n {
        case Clasificar => NodeClasificar(st, replies.classify(k));
        case Extraer => NodeExtraer(st, replies.extract(k));
        case Etiquetar => NodeEtiquetar(st, replies.tag(k));
        case Planificar => NodePlanificar(st);
        case Validar => NodeValidar(st);
        case Almacenar => NodeAlmacenar(st);
        case ManejarError => NodeManejarError(st);
      }
      t := Next(n, st.Routed());
    }

    /**
     * The compiled workflow from `Clasificar`, for at most `fuel` steps. A run
     * that ends has either stored its plan without any error, or recorded an
     * error and spent every retry; errors are only ever appended.
     */
    method Run(st: CallimacoState, replies: Replies, fuel: nat) returns (outcome: RunOutcome)
      requires st.retryCount < st.maxRetries
      modifies st`currentStep, st`contentHash, st`semanticTags, st`summary, st`errors, st`entities,
               st`relations, st`storagePlan, st`executionResult, st`retryCount
      ensures !outcome.UnknownLabel?
      ensures old(st.errors) <= st.errors
      ensures st.retryCount <= st.maxRetries
      ensures fuel >= Measure(Goto(Clasificar), old(st.Routed())) ==> outcome.Completed?
      ensures old(st.errors) == [] && old(st.retryCount) == 0 && fuel >= StepBound(st.maxRetries) ==> outcome.Completed?
      ensures outcome.Completed? ==>
        (st.errors == [] && st.executionResult.Some? && st.executionResult.value.success)
        || (st.errors != [] && st.retryCount >= st.maxRetries)
    {
      ghost var errors0 := st.errors;
      ghost var bound := Measure(Goto(Clasificar), st.Routed());
      if st.errors == [] && st.retryCount == 0 {
        InitialMeasure(st.Routed());
      }
      var node: Target<Node> := Goto(Clasificar);
      var steps: nat := 0;
      while node.Goto? && steps < fuel
        invariant errors0 <= st.errors
        invariant Measure(node, st.Routed()) + steps <= bound
        invariant node.Goto? ==> st.retryCount < st.maxRetries
        invariant node.End? ==> st.retryCount <= st.maxRetries
        invariant node == Goto(Almacenar) ==> st.errors == [] && st.storagePlan.Some?
        invariant node == Goto(ManejarError) ==> st.errors != []
        invariant node.End? ==>
          (st.errors == [] && st.Routed().succeeded) || (st.errors != [] && st.retryCount >= st.maxRetries)
        decreases Measure(node, st.Routed())
      {
        ghost var before := st.Routed();
        var n := node.node;
        node := Step(st, n, replies, steps);
        StepDecreases(n, before, st.Routed());
        steps := steps + 1;
      }
      if node.End? {
        outcome := Completed(steps);
      } else {
        outcome := Exhausted;
      }
    }

    /**
     * `indexar`: a fresh state run to the end, then its summary. The budget is
     * the one the termination measure proves sufficient, so a report always comes back.
     */
    method Indexar(content: string, contentType: ContentType, source: string, replies: Replies)
      returns (report: Report)
      ensures report.success <==> report.errors == []
      ensures report.success ==> report.executionResult.Some? && report.executionResult.value.success
      ensures report.destination.None? ==> report.cassandraOps == 0 && report.qdrantOps == 0
    {
      var st := new CallimacoState(content, contentType, source);
      var outcome := Run(st, replies, StepBound(3));
      report := Report(
        st.errors == [], st.contentHash, |st.entities|, |st.relations|,
        if st.storagePlan.Some? then Some(st.storagePlan.value.destination) else None,
        if st.storagePlan.Some? then |st.storagePlan.value.cassandraOps| else 0,
        if st.storagePlan.Some? then |st.storagePlan.value.qdrantOps| else 0,
        st.semanticTags, st.executionResult, st.errors);
    }
  }
}
