/**
 * Morpheo, the maintenance agent: what it finds wrong in the memory
 * statistics, how it groups the issues by repair type and cuts each type's
 * affected ids into batches of at most one hundred, the fixed table of
 * repair and rollback operations, and the optimisation jobs each intensity
 * asks for.
 */
module Morpheo {
  import opened Common
  import opened Workflow

  // ================================================================ data model

  datatype RepairType = Duplicado | Huerfano | Incompleto | Corrupto | Obsoleto | Fragmentado
  {
    function Value(): string
    {
      match this
      case Duplicado => "duplicado"
      case Huerfano => "huerfano"
      case Incompleto => "incompleto"
      case Corrupto => "corrupto"
      case Obsoleto => "obsoleto"
      case Fragmentado => "fragmentado"
    }
  }

  datatype OptimizationType = Reindexar | Consolidar | Comprimir | Enriquecer | Defragmentar
  {
    function Value(): string
    {
      match this
      case Reindexar => "reindexar"
      case Consolidar => "consolidar"
      case Comprimir => "comprimir"
      case Enriquecer => "enriquecer"
      case Defragmentar => "defragmentar"
    }
  }

  datatype MemoryIssue = MemoryIssue(
    issueId: string,
    repairType: RepairType,
    severity: string,
    description: string,
    affectedIds: seq<string>,
    suggestedAction: string,
    estimatedImpact: real)

  /** One entry of a plan's operation list: `{"op": ..., "ids": ...}`, the ids absent for `noop`. */
  datatype Operation = Operation(op: string, ids: Option<seq<string>>)

  datatype RepairPlan = RepairPlan(
    repairId: string,
    repairType: RepairType,
    targetIds: seq<string>,
    operations: seq<Operation>,
    rollbackPlan: seq<Operation>,
    estimatedTimeSeconds: nat)

  /** An optimisation job; its parameter dictionary is always empty and is not kept. */
  datatype OptimizationJob = OptimizationJob(
    jobId: string, optimizationType: OptimizationType, targetCollection: string, priority: int)

  /**
   * The two statistics the analysis reads: `cassandra.orphaned_entities` and
   * `metadata["index fragmentation"]`, None when the key is absent.
   */
  datatype MemoryStats = MemoryStats(orphanedEntities: Option<int>, indexFragmentation: Option<real>)

  /** What the scan records (the simulated figures; only the two the analysis reads are kept). */
  const ScannedStats: MemoryStats := MemoryStats(Some(127), Some(0.15))

  // ================================================================ analysis

  function OrphanCount(stats: MemoryStats): int { stats.orphanedEntities.GetOr(0) }
  function Fragmentation(stats: MemoryStats): real { stats.indexFragmentation.GetOr(0.0) }

  /**
   * `_analisis_heuristico`: an orphan issue when there are orphaned entities,
   * then a fragmentation issue past 20%; neither lists the affected ids.
   */
  function HeuristicIssues(stats: MemoryStats, percent: real -> string): (issues: seq<MemoryIssue>)
    ensures |issues| == (if OrphanCount(stats) > 0 then 1 else 0) + (if Fragmentation(stats) > 0.2 then 1 else 0)
    ensures forall i :: 0 <= i < |issues| ==> issues[i].affectedIds == []
    ensures (exists i :: 0 <= i < |issues| && issues[i].repairType == Huerfano && issues[i].severity == "media")
            <==> OrphanCount(stats) > 0
    ensures (exists i :: 0 <= i < |issues| && issues[i].repairType == Fragmentado && issues[i].severity == "alta")
            <==> Fragmentation(stats) > 0.2
    ensures forall i :: 0 <= i < |issues| ==> issues[i].repairType in {Huerfano, Fragmentado}
  {
    var n := OrphanCount(stats);
    var f := Fragmentation(stats);
    var orphans :=
      if n > 0 then
        [MemoryIssue("orphans_1", Huerfano, "media", NatToString(n) + " entidades sin relaciones", [],
                     "Reconectar o eliminar entidades huérfanas", 0.3)]
      else [];
    var fragments :=
      if f > 0.2 then
        [MemoryIssue("frag_1", Fragmentado, "alta", "Fragmentación de índice: " + percent(f), [],
                     "Reindexar colecciones fragmentadas", 0.6)]
      else [];
    var issues := orphans + fragments;
    assert n > 0 ==> issues[0] == orphans[0];
    assert f > 0.2 ==> issues[|issues| - 1] == fragments[0];
    issues
  }

  /** On the scanned figures the analysis reports the orphans only. */
  lemma ScannedIssues(percent: real -> string)
    ensures var issues := HeuristicIssues(ScannedStats, percent);
      |issues| == 1 && issues[0].repairType == Huerfano && issues[0].affectedIds == []
  {
  }

  /** One issue of the analysis model's JSON reply; a missing sample is None. */
  datatype IssueRecord = IssueRecord(
    repairType: RepairType, severity: string, description: string,
    affectedSample: Option<seq<string>>, suggestedAction: string)

  /** The issues read from the analysis model's reply, numbered `issue_{i}`. */
  function IssuesFromRecords(records: seq<IssueRecord>): (issues: seq<MemoryIssue>)
    ensures |issues| == |records|
    ensures forall i :: 0 <= i < |records| ==>
      issues[i].repairType == records[i].repairType
      && issues[i].affectedIds == records[i].affectedSample.GetOr([])
      && issues[i].estimatedImpact == (if records[i].severity == "alta" then 0.7 else 0.4)
      && issues[i].issueId == "issue_" + NatToString(i)
  {
    seq(|records|, i requires 0 <= i < |records| =>
      var r := records[i];
      MemoryIssue("issue_" + NatToString(i), r.repairType, r.severity, r.description,
                  r.affectedSample.GetOr([]), r.suggestedAction, if r.severity == "alta" then 0.7 else 0.4))
  }

  // ================================================================ grouping and batching

  function TypesOf(issues: seq<MemoryIssue>): (ts: seq<RepairType>)
    ensures |ts| == |issues| && forall i :: 0 <= i < |issues| ==> ts[i] == issues[i].repairType
  {
    seq(|issues|, i requires 0 <= i < |issues| => issues[i].repairType)
  }

  /** The issues of one type, in order. */
  function OfType(issues: seq<MemoryIssue>, t: RepairType): (r: seq<MemoryIssue>)
    ensures forall i :: 0 <= i < |r| ==> r[i].repairType == t
  {
    if |issues| == 0 then []
    else
      var last := issues[|issues| - 1];
      OfType(issues[..|issues| - 1], t) + (if last.repairType == t then [last] else [])
  }

  /** Every affected id of the issues, issue by issue. */
  function AffectedIds(issues: seq<MemoryIssue>): seq<string>
  {
    if |issues| == 0 then [] else AffectedIds(issues[..|issues| - 1]) + issues[|issues| - 1].affectedIds
  }

  /** The batches of a type's ids: all of them when there are at most 100, else slices of 100. */
  function Batches(ids: seq<string>): (bs: seq<seq<string>>)
    decreases |ids|
    ensures |bs| >= 1
  {
    if |ids| <= 100 then [ids] else [ids[..100]] + Batches(ids[100..])
  }

  function Flatten(bs: seq<seq<string>>): seq<string>
  {
    if |bs| == 0 then [] else bs[0] + Flatten(bs[1..])
  }

  /** Concatenating the batches gives back the ids, in order. */
  lemma {:induction false} BatchesFlatten(ids: seq<string>)
    decreases |ids|
    ensures Flatten(Batches(ids)) == ids
  {
    if |ids| > 100 {
      var rest := Batches(ids[100..]);
      BatchesFlatten(ids[100..]);
      assert ([ids[..100]] + rest)[1..] == rest;
      assert ids == ids[..100] + ids[100..];
    }
  }

  /** Every batch holds at most 100 ids, and there is exactly one batch when there are at most 100. */
  lemma {:induction false} BatchesBounded(ids: seq<string>)
    decreases |ids|
    ensures forall k :: 0 <= k < |Batches(ids)| ==> |Batches(ids)[k]| <= 100
    ensures |Batches(ids)| == 1 <==> |ids| <= 100
  {
    if |ids| > 100 {
      BatchesBounded(ids[100..]);
    }
  }

  /** `[ids[i:i+100] for i in range(0, len(ids), 100)]`. */
  function BatchSlices(ids: seq<string>): (bs: seq<seq<string>>)
    ensures |bs| == (|ids| + 99) / 100
  {
    seq((|ids| + 99) / 100, b requires 0 <= b < (|ids| + 99) / 100 => ids[100 * b..Min(100 * b + 100, |ids|)])
  }

  /** For more than 100 ids the slicing comprehension yields the batches. */
  lemma {:induction false} BatchSlicesAreBatches(ids: seq<string>)
    requires |ids| > 0
    decreases |ids|
    ensures BatchSlices(ids) == Batches(ids)
  {
    if |ids| > 100 {
      var rest := ids[100..];
      BatchSlicesAreBatches(rest);
      var bs := BatchSlices(ids);
      assert |bs| == 1 + |BatchSlices(rest)|;
      forall b | 1 <= b < |bs| ensures bs[b] == BatchSlices(rest)[b - 1] {
        var lo, hi := 100 * (b - 1), Min(100 * (b - 1) + 100, |rest|);
        assert 100 + lo == 100 * b && 100 + hi == Min(100 * b + 100, |ids|);
        SliceOfDrop(ids, 100, lo, hi);
      }
      assert bs == [ids[..100]] + BatchSlices(rest);
    } else {
      assert BatchSlices(ids)[0] == ids;
    }
  }

  lemma SliceOfDrop(s: seq<string>, d: nat, lo: nat, hi: nat)
    requires d <= |s| && lo <= hi <= |s| - d
    ensures s[d..][lo..hi] == s[d + lo..d + hi]
  {
  }

  /**
   * `_crear_plan_reparacion`: one operation over the target ids, a rollback
   * for it, two seconds per id; the id is the type and the first eight hex
   * digits of the ids' digest.
   */
  function CreatePlan(t: RepairType, ids: seq<string>, digest: string): (p: RepairPlan)
    ensures p.repairType == t && p.targetIds == ids && p.estimatedTimeSeconds == 2 * |ids|
    ensures p.repairId == "repair_" + t.Value() + "_" + Prefix(digest, 8)
    ensures |p.operations| == 1 && p.operations[0].ids == Some(ids)
    ensures |p.rollbackPlan| == 1
    ensures p.rollbackPlan[0].op != "noop" ==> p.rollbackPlan[0].ids == Some(ids)
  {
    var (op, undo) :=
      match t
      case Huerfano => ("find_relations", "noop")
      case Duplicado => ("merge", "split")
      case Obsoleto => ("archive", "restore")
      case _ => ("inspect", "noop");
    var rollback := if undo == "noop" then Operation("noop", None) else Operation(undo, Some(ids));
    RepairPlan("repair_" + t.Value() + "_" + Prefix(digest, 8), t, ids, [Operation(op, Some(ids))], [rollback], |ids| * 2)
  }

  /** Each repair that changes data has a rollback that restores it: merge/split, archive/restore. */
  lemma RollbackTable(t: RepairType, ids: seq<string>, digest: string)
    ensures var p := CreatePlan(t, ids, digest);
      (t == Duplicado <==> p.operations[0].op == "merge" && p.rollbackPlan[0].op == "split")
      && (t == Obsoleto <==> p.operations[0].op == "archive" && p.rollbackPlan[0].op == "restore")
      && (t == Huerfano <==> p.operations[0].op == "find_relations")
      && (t !in {Duplicado, Obsoleto} <==> p.rollbackPlan[0] == Operation("noop", None))
  {
  }

  /** The plans for one type: one per batch. */
  function PlansFor(t: RepairType, ids: seq<string>, digest: seq<string> -> string): (ps: seq<RepairPlan>)
    ensures |ps| == |Batches(ids)|
    ensures forall k :: 0 <= k < |ps| ==> ps[k] == CreatePlan(t, Batches(ids)[k], digest(Batches(ids)[k]))
  {
    var bs := Batches(ids);
    seq(|bs|, k requires 0 <= k < |bs| => CreatePlan(t, bs[k], digest(bs[k])))
  }

  /** The plans for the types `ts` in turn, each over the ids of every issue of that type. */
  function QueueFor(issues: seq<MemoryIssue>, ts: seq<RepairType>, digest: seq<string> -> string): seq<RepairPlan>
  {
    if |ts| == 0 then []
    else
      var t := ts[|ts| - 1];
      QueueFor(issues, ts[..|ts| - 1], digest) + PlansFor(t, AffectedIds(OfType(issues, t)), digest)
  }

  /** The repair queue planning produces: types in order of first appearance, then batches. */
  function RepairQueue(issues: seq<MemoryIssue>, digest: seq<string> -> string): seq<RepairPlan>
  {
    QueueFor(issues, Dedup(TypesOf(issues)), digest)
  }

  /** A type's plans cover its ids in order, each plan of that type. */
  lemma PlansCoverIds(t: RepairType, ids: seq<string>, digest: seq<string> -> string)
    ensures var ps := PlansFor(t, ids, digest);
      Flatten(seq(|ps|, k requires 0 <= k < |ps| => ps[k].targetIds)) == ids
      && forall k :: 0 <= k < |ps| ==> ps[k].repairType == t
  {
    var ps := PlansFor(t, ids, digest);
    assert seq(|ps|, k requires 0 <= k < |ps| => ps[k].targetIds) == Batches(ids);
    BatchesFlatten(ids);
  }

  /** No plan of the repair queue targets more than 100 ids. */
  lemma {:induction false} QueueBounded(issues: seq<MemoryIssue>, ts: seq<RepairType>, digest: seq<string> -> string)
    ensures forall p :: p in QueueFor(issues, ts, digest) ==> |p.targetIds| <= 100
  {
    if |ts| > 0 {
      var t := ts[|ts| - 1];
      var ids := AffectedIds(OfType(issues, t));
      QueueBounded(issues, ts[..|ts| - 1], digest);
      BatchesBounded(ids);
      forall p | p in PlansFor(t, ids, digest) ensures |p.targetIds| <= 100 {
        var k :| 0 <= k < |PlansFor(t, ids, digest)| && PlansFor(t, ids, digest)[k] == p;
      }
    }
  }

  /** A type whose issues list at most 100 ids, none included, gets exactly one plan. */
  lemma SmallTypeOnePlan(t: RepairType, ids: seq<string>, digest: seq<string> -> string)
    requires |ids| <= 100
    ensures PlansFor(t, ids, digest) == [CreatePlan(t, ids, digest(ids))]
  {
  }

  /** The analysis, grouping and batching lemmas, applied: no queued plan targets more than 100 ids. */
  lemma QueuedPlansBounded(issues: seq<MemoryIssue>, digest: seq<string> -> string)
    ensures forall p :: p in RepairQueue(issues, digest) ==> |p.targetIds| <= 100
  {
    QueueBounded(issues, Dedup(TypesOf(issues)), digest);
  }

  // ================================================================ optimisation

  function OptimizationTypes(intensity: string): seq<OptimizationType>
  {
    if intensity == "ligero" then [Reindexar]
    else if intensity == "normal" then [Reindexar, Consolidar]
    else if intensity == "profundo" then [Reindexar, Consolidar, Defragmentar, Enriquecer]
    else []
  }

  /** `_generar_optimizaciones`: one job per type the intensity lists, over `docs`, priority 1. */
  function Optimizations(intensity: string): (jobs: seq<OptimizationJob>)
    ensures |jobs| == |OptimizationTypes(intensity)|
    ensures forall i :: 0 <= i < |jobs| ==>
      jobs[i].optimizationType == OptimizationTypes(intensity)[i]
      && jobs[i].jobId == "opt_" + jobs[i].optimizationType.Value()
      && jobs[i].targetCollection == "docs" && jobs[i].priority == 1
  {
    var ts := OptimizationTypes(intensity);
    seq(|ts|, i requires 0 <= i < |ts| => OptimizationJob("opt_" + ts[i].Value(), ts[i], "docs", 1))
  }

  /** One, two or four jobs for the three intensities, none for any other; the ids never repeat. */
  lemma OptimizationCounts(intensity: string)
    ensures |Optimizations(intensity)| ==
      if intensity == "ligero" then 1 else if intensity == "normal" then 2 else if intensity == "profundo" then 4 else 0
    ensures var jobs := Optimizations(intensity);
      forall i, j :: 0 <= i < j < |jobs| ==> jobs[i].jobId != jobs[j].jobId
  {
    var jobs := Optimizations(intensity);
    forall i, j | 0 <= i < j < |jobs| ensures jobs[i].jobId != jobs[j].jobId {
      assert jobs[i].optimizationType != jobs[j].optimizationType;
      assert jobs[i].jobId[4..] == jobs[i].optimizationType.Value();
      assert jobs[j].jobId[4..] == jobs[j].optimizationType.Value();
    }
  }

  // ================================================================ workflow

  datatype Node = Escanear | Analizar | Planificar | Reparar | Optimizar | VerificarTiempo | Reportar

  datatype Label = ToReparar | ToOptimizar | Terminar | ContinuarReparar | ContinuarOptimizar

  /** What the routers look at: the two queue lengths and the continue flag. */
  datatype View = View(repairQueued: nat, optimizationQueued: nat, shouldContinue: bool)

  /** The sleep cycle's edges, entry point `Escanear`. */
  function EdgesFrom(n: Node): Edges<Node, Label>
  {
    match n
    case Escanear => Direct(Goto(Analizar))
    case Analizar => Direct(Goto(Planificar))
    case Planificar => Conditional(map[ToReparar := Goto(Reparar), ToOptimizar := Goto(Optimizar), Terminar := Goto(Reportar)])
    case Reparar => Direct(Goto(VerificarTiempo))
    case Optimizar => Direct(Goto(VerificarTiempo))
    case VerificarTiempo =>
      Conditional(map[ContinuarReparar := Goto(Reparar), ContinuarOptimizar := Goto(Optimizar), Terminar := Goto(Reportar)])
    case Reportar => Direct(End)
  }

  /** Repairs before optimisations; nothing queued ends the cycle. */
  function DecisionPlanificacion(v: View): (l: Label)
    ensures l == ToReparar <==> v.repairQueued > 0
    ensures l == ToOptimizar <==> v.repairQueued == 0 && v.optimizationQueued > 0
    ensures l == Terminar <==> v.repairQueued == 0 && v.optimizationQueued == 0
  {
    if v.repairQueued > 0 then ToReparar
    else if v.optimizationQueued > 0 then ToOptimizar
    else Terminar
  }

  /** Like the planning router, but a cleared continue flag ends the cycle whatever is queued. */
  function DecisionContinuar(v: View): (l: Label)
    ensures l == Terminar <==> !v.shouldContinue || (v.repairQueued == 0 && v.optimizationQueued == 0)
    ensures l == ContinuarReparar <==> v.shouldContinue && v.repairQueued > 0
    ensures l == ContinuarOptimizar <==> v.shouldContinue && v.repairQueued == 0 && v.optimizationQueued > 0
  {
    if !v.shouldContinue then Terminar
    else if v.repairQueued > 0 then ContinuarReparar
    else if v.optimizationQueued > 0 then ContinuarOptimizar
    else Terminar
  }

  function Router(n: Node, v: View): (l: Label)
    requires EdgesFrom(n).Conditional?
    ensures l in EdgesFrom(n).table
  {
    match n
    case Planificar => DecisionPlanificacion(v)
    case VerificarTiempo => DecisionContinuar(v)
  }

  /**
   * The node after `n`. Repair and optimisation are only ever entered with
   * something in their queue, and the report only when there is nothing
   * left or the continue flag is cleared.
   */
  function Next(n: Node, v: View): (t: Target<Node>)
    ensures t == Goto(Reparar) ==> v.repairQueued > 0
    ensures t == Goto(Optimizar) ==> v.optimizationQueued > 0 && v.repairQueued == 0
    ensures t == Goto(Reportar) ==>
      (n == Planificar || n == VerificarTiempo)
      && ((v.repairQueued == 0 && v.optimizationQueued == 0) || (n == VerificarTiempo && !v.shouldContinue))
    ensures t == End <==> n == Reportar
    ensures n == VerificarTiempo && !v.shouldContinue ==> t == Goto(Reportar)
  {
    match EdgesFrom(n)
    case Direct(to) => to
    case Conditional(table) => table[Router(n, v)]
  }

  /** Leaving planning: repairs first, then optimisations, else straight to the report. */
  lemma PlanningRoute(v: View)
    ensures Next(Planificar, v)
      == if v.repairQueued > 0 then Goto(Reparar) else if v.optimizationQueued > 0 then Goto(Optimizar) else Goto(Reportar)
  {
  }

  // ---------------------------------------------------------------- termination

  /** After planning, two steps per queued item at most, plus the check and the report. */
  function Measure(t: Target<Node>, v: View): nat
  {
    var w := 2 * (v.repairQueued + v.optimizationQueued);
    match t
    case End => 0
    case Goto(n) =>
      match n
      case Reportar => 1
      case Reparar => w + 1
      case Optimizar => w + 1
      case VerificarTiempo => w + 2
      case _ => w + 5
  }

  /** What the nodes after planning do to the routed state: repair and optimisation pop one item each. */
  predicate StepEffect(n: Node, before: View, after: View)
  {
    && (n == Reparar ==>
          before.repairQueued > 0 && after.repairQueued == before.repairQueued - 1
          && after.optimizationQueued == before.optimizationQueued)
    && (n == Optimizar ==>
          before.optimizationQueued > 0 && after.optimizationQueued == before.optimizationQueued - 1
          && after.repairQueued == before.repairQueued)
    && (n == VerificarTiempo ==>
          after.repairQueued == before.repairQueued && after.optimizationQueued == before.optimizationQueued)
  }

  /** The nodes the cycle visits once planning is done. */
  predicate AfterPlanning(n: Node)
  {
    n == Reparar || n == Optimizar || n == VerificarTiempo || n == Reportar
  }

  /** Each step after planning strictly lowers the measure, so the cycle reaches the report. */
  lemma StepDecreases(n: Node, before: View, after: View)
    requires AfterPlanning(n)
    requires StepEffect(n, before, after)
    ensures Measure(Next(n, after), after) < Measure(Goto(n), before)
  {
  }

  /** The number of steps a cycle that plans `work` items takes at most. */
  function StepBound(work: nat): nat
  {
    2 * work + 4
  }
}
