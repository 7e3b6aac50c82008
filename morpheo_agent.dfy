/**
 * The Morpheo agent: the cycle's state, updated in place by the nodes
 * (scan, analyse, plan, repair, optimise, check the time, report), and the
 * engine that runs the cycle.
 */
module MorpheoAgent {
  import opened Common
  import opened Workflow
  import opened Morpheo

  /** The maintenance report the cycle fills in; timestamps and final statistics are not kept. */
  datatype MaintenanceReport = MaintenanceReport(
    sessionId: string,
    issuesDetected: seq<MemoryIssue>,
    repairsExecuted: seq<RepairPlan>,
    optimizationsRun: seq<OptimizationJob>,
    statsBefore: MemoryStats,
    errors: seq<string>,
    finished: bool)

  class MorpheoState {
    const maxDurationMinutes: int
    const intensity: string

    var sessionId: string
    var phase: string
    var memoryStats: MemoryStats
    var issuesFound: seq<MemoryIssue>
    var repairQueue: seq<RepairPlan>
    var optimizationQueue: seq<OptimizationJob>
    var currentRepair: Option<RepairPlan>
    var currentOptimization: Option<OptimizationJob>
    var completedRepairs: nat
    var completedOptimizations: nat
    var report: Option<MaintenanceReport>
    var shouldContinue: bool
    var errors: seq<string>

    constructor(maxDurationMinutes: int, intensity: string)
      ensures this.maxDurationMinutes == maxDurationMinutes && this.intensity == intensity
      ensures sessionId == "" && phase == "escanear" && memoryStats == MemoryStats(None, None)
      ensures issuesFound == [] && repairQueue == [] && optimizationQueue == []
      ensures currentRepair.None? && currentOptimization.None? && completedRepairs == 0 && completedOptimizations == 0
      ensures report.None? && shouldContinue && errors == []
    {
      this.maxDurationMinutes := maxDurationMinutes;
      this.intensity := intensity;
      sessionId := "";
      phase := "escanear";
      memoryStats := MemoryStats(None, None);
      issuesFound := [];
      repairQueue := [];
      optimizationQueue := [];
      currentRepair := None;
      currentOptimization := None;
      completedRepairs := 0;
      completedOptimizations := 0;
      report := None;
      shouldContinue := true;
      errors := [];
    }

    function Routed(): View
      reads this`repairQueue, this`optimizationQueue, this`shouldContinue
    {
      View(|repairQueue|, |optimizationQueue|, shouldContinue)
    }

    /** The report exists and counts exactly the completed repairs and optimisations. */
    predicate ReportTracks()
      reads this`report, this`completedRepairs, this`completedOptimizations
    {
      report.Some? && |report.value.repairsExecuted| == completedRepairs
      && |report.value.optimizationsRun| == completedOptimizations && report.value.issuesDetected == []
    }
  }

  /**
   * What the cycle meets from outside, by step: the analysis model's reply,
   * the exception (if any) executing a repair's or a job's operations
   * raises, and the minutes elapsed since the scan when the time is checked.
   */
  datatype Outcomes = Outcomes(
    analysis: Reply<seq<IssueRecord>>,
    repairFailure: nat -> Option<string>,
    optimizationFailure: nat -> Option<string>,
    elapsedMinutes: nat -> real)

  /** What `ejecutar_ciclo` returns. */
  datatype CycleResult = CycleResult(
    success: bool,
    sessionId: string,
    finalPhase: string,
    repairsDone: nat,
    optimizationsDone: nat,
    issuesDetected: nat,
    repairsReported: nat,
    optimizationsReported: nat,
    errors: seq<string>)

  class MorpheoAgent {
    const hasLlm: bool
    /** The hex MD5 digest of a list of ids' printed form. */
    const idsDigest: seq<string> -> string
    /** The one-decimal percentage rendering of a fraction. */
    const percent: real -> string
    /** The statistics the scan reports: the fixed simulated figures. */
    const scanned: MemoryStats

    constructor(hasLlm: bool, idsDigest: seq<string> -> string, percent: real -> string)
      ensures this.hasLlm == hasLlm && this.idsDigest == idsDigest && this.percent == percent
      ensures scanned == ScannedStats
    {
      this.hasLlm := hasLlm;
      this.idsDigest := idsDigest;
      this.percent := percent;
      this.scanned := ScannedStats;
    }

    /** The issues the analysis node leaves, from the statistics and the issues found before. */
    function Analysis(reply: Reply<seq<IssueRecord>>, stats: MemoryStats, found: seq<MemoryIssue>): seq<MemoryIssue>
    {
      if !hasLlm || reply.Failed? then HeuristicIssues(stats, percent) else found + IssuesFromRecords(reply.record)
    }

    /** How many steps a cycle from a fresh state takes at most. */
    function Budget(analysis: Reply<seq<IssueRecord>>, intensity: string): nat
    {
      var issues := Analysis(analysis, scanned, []);
      StepBound(|RepairQueue(issues, idsDigest)| + |Optimizations(intensity)|)
    }

    // ============================================================== nodes

    /** Scan: records the statistics and opens the report (the session id comes from the clock). */
    method NodeEscanear(st: MorpheoState, sessionId: string)
      modifies st`phase, st`sessionId, st`memoryStats, st`report
      ensures st.phase == "escanear" && st.sessionId == sessionId && st.memoryStats == scanned
      ensures st.report == Some(MaintenanceReport(sessionId, [], [], [], scanned, [], false))
    {
      st.phase := "escanear";
      st.sessionId := sessionId;
      st.memoryStats := scanned;
      st.report := Some(MaintenanceReport(sessionId, [], [], [], scanned, [], false));
    }

    /** Analysis: the model's issues appended, or the rule-based ones (with an error recorded on failure). */
    method NodeAnalizar(st: MorpheoState, reply: Reply<seq<IssueRecord>>)
      modifies st`phase, st`issuesFound, st`errors
      ensures st.phase == "analizar"
      ensures st.issuesFound == Analysis(reply, st.memoryStats, old(st.issuesFound))
      ensures hasLlm && reply.Failed? ==> st.errors == old(st.errors) + ["Error en análisis: " + reply.message]
      ensures !hasLlm || reply.Parsed? ==> st.errors == old(st.errors)
    {
      st.phase := "analizar";
      if !hasLlm {
        st.issuesFound := HeuristicIssues(st.memoryStats, percent);
        return;
      }
      match reply
      case Failed(msg) =>
        st.errors := st.errors + ["Error en análisis: " + msg];
        st.issuesFound := HeuristicIssues(st.memoryStats, percent);
      case Parsed(records) =>
        st.issuesFound := st.issuesFound + IssuesFromRecords(records);
    }

    /**
     * The grouping loop of planning: each type once, in order of first
     * appearance (a dictionary's key order), with its issues in order.
     */
    method GroupByType(issues: seq<MemoryIssue>) returns (order: seq<RepairType>, groups: map<RepairType, seq<MemoryIssue>>)
      ensures order == Dedup(TypesOf(issues))
      ensures forall t :: t in groups <==> t in order
      ensures forall t :: t in groups ==> groups[t] == OfType(issues, t)
    {
      order := [];
      groups := map[];
      for i := 0 to |issues|
        invariant order == Dedup(TypesOf(issues[..i]))
        invariant forall t :: t in groups <==> t in order
        invariant forall t :: t in groups ==> groups[t] == OfType(issues[..i], t)
        invariant forall t :: t !in groups ==> OfType(issues[..i], t) == []
      {
        var issue := issues[i];
        GroupStep(issues, i);
        if issue.repairType !in groups {
          order := order + [issue.repairType];
          groups := groups[issue.repairType := []];
        }
        groups := groups[issue.repairType := groups[issue.repairType] + [issue]];
      }
      assert issues[..|issues|] == issues;
    }

    /** The concatenation loop of planning: every affected id of a type's issues. */
    method CollectAffected(group: seq<MemoryIssue>) returns (all: seq<string>)
      ensures all == AffectedIds(group)
    {
      all := [];
      for j := 0 to |group|
        invariant all == AffectedIds(group[..j])
      {
        assert group[..j + 1][..j] == group[..j];
        all := all + group[j].affectedIds;
      }
      assert group[..|group|] == group;
    }

    /** The plans of one type: one per slice of 100 when there are more than 100 ids, else one. */
    method TypePlans(t: RepairType, all: seq<string>) returns (ps: seq<RepairPlan>)
      ensures ps == PlansFor(t, all, idsDigest)
    {
      if |all| > 100 {
        var batches := BatchSlices(all);
        BatchSlicesAreBatches(all);
        ps := [];
        for b := 0 to |batches|
          invariant ps == PlansFor(t, all, idsDigest)[..b]
        {
          assert PlansFor(t, all, idsDigest)[..b + 1] == PlansFor(t, all, idsDigest)[..b] + [PlansFor(t, all, idsDigest)[b]];
          ps := ps + [CreatePlan(t, batches[b], idsDigest(batches[b]))];
        }
        assert PlansFor(t, all, idsDigest)[..|batches|] == PlansFor(t, all, idsDigest);
      } else {
        ps := [CreatePlan(t, all, idsDigest(all))];
      }
    }

    /** The planning loop: for each type in turn, its plans. */
    method PlanRepairs(issues: seq<MemoryIssue>) returns (plans: seq<RepairPlan>)
      ensures plans == RepairQueue(issues, idsDigest)
    {
      var order, groups := GroupByType(issues);
      plans := [];
      for k := 0 to |order|
        invariant plans == QueueFor(issues, order[..k], idsDigest)
      {
        var t := order[k];
        var all := CollectAffected(groups[t]);
        var ps := TypePlans(t, all);
        QueueForSnoc(issues, order, k, idsDigest);
        plans := plans + ps;
      }
      assert order[..|order|] == order;
    }

    /** Planning: the repair plans of every type in turn, then the intensity's optimisation jobs. */
    method NodePlanificar(st: MorpheoState)
      modifies st`phase, st`repairQueue, st`optimizationQueue
      ensures st.phase == "planificar"
      ensures st.repairQueue == old(st.repairQueue) + RepairQueue(st.issuesFound, idsDigest)
      ensures st.optimizationQueue == old(st.optimizationQueue) + Optimizations(st.intensity)
    {
      st.phase := "planificar";
      var plans := PlanRepairs(st.issuesFound);
      st.repairQueue := st.repairQueue + plans;
      st.optimizationQueue := st.optimizationQueue + Optimizations(st.intensity);
    }

    /** The best-effort rollback: every rollback operation is attempted in order, and a failing one is ignored. */
    method RollBack(plan: RepairPlan) returns (attempted: seq<Operation>)
      ensures attempted == plan.rollbackPlan
    {
      attempted := [];
      for j := 0 to |plan.rollbackPlan|
        invariant attempted == plan.rollbackPlan[..j]
      {
        attempted := attempted + [plan.rollbackPlan[j]];
      }
    }

    /**
     * Repair: nothing when the queue is empty; otherwise the head is taken
     * off and executed. Success counts it and adds it to the report; failure
     * records one error and rolls back, whatever the rollback does.
     */
    method NodeReparar(st: MorpheoState, failure: Option<string>) returns (rolledBack: seq<Operation>)
      modifies st`phase, st`repairQueue, st`currentRepair, st`completedRepairs, st`report, st`errors
      ensures st.phase == "reparar"
      ensures old(st.repairQueue) == [] ==>
        st.repairQueue == [] && st.currentRepair == old(st.currentRepair) && st.completedRepairs == old(st.completedRepairs)
        && st.report == old(st.report) && st.errors == old(st.errors) && rolledBack == []
      ensures old(st.repairQueue) != [] ==>
        var repair := old(st.repairQueue)[0];
        st.repairQueue == old(st.repairQueue)[1..] && st.currentRepair == Some(repair)
        && (failure.None? ==>
              st.completedRepairs == old(st.completedRepairs) + 1 && st.errors == old(st.errors) && rolledBack == []
              && st.report == (if old(st.report).Some?
                               then Some(old(st.report).value.(repairsExecuted := old(st.report).value.repairsExecuted + [repair]))
                               else None))
        && (failure.Some? ==>
              st.completedRepairs == old(st.completedRepairs) && st.report == old(st.report)
              && st.errors == old(st.errors) + ["Error en reparación " + repair.repairId + ": " + failure.value]
              && rolledBack == repair.rollbackPlan)
    {
      st.phase := "reparar";
      rolledBack := [];
      if st.repairQueue == [] {
        return;
      }
      var repair := st.repairQueue[0];
      st.repairQueue := st.repairQueue[1..];
      st.currentRepair := Some(repair);
      match failure
      case None =>
        st.completedRepairs := st.completedRepairs + 1;
        if st.report.Some? {
          st.report := Some(st.report.value.(repairsExecuted := st.report.value.repairsExecuted + [repair]));
        }
      case Some(msg) =>
        st.errors := st.errors + ["Error en reparación " + repair.repairId + ": " + msg];
        rolledBack := RollBack(repair);
    }

    /** Optimisation: nothing when the queue is empty; otherwise the head job is taken off and run. */
    method NodeOptimizar(st: MorpheoState, failure: Option<string>)
      modifies st`phase, st`optimizationQueue, st`currentOptimization, st`completedOptimizations, st`report, st`errors
      ensures st.phase == "optimizar"
      ensures old(st.optimizationQueue) == [] ==>
        st.optimizationQueue == [] && st.currentOptimization == old(st.currentOptimization)
        && st.completedOptimizations == old(st.completedOptimizations) && st.report == old(st.report) && st.errors == old(st.errors)
      ensures old(st.optimizationQueue) != [] ==>
        var job := old(st.optimizationQueue)[0];
        st.optimizationQueue == old(st.optimizationQueue)[1..] && st.currentOptimization == Some(job)
        && (failure.None? ==>
              st.completedOptimizations == old(st.completedOptimizations) + 1 && st.errors == old(st.errors)
              && st.report == (if old(st.report).Some?
                               then Some(old(st.report).value.(optimizationsRun := old(st.report).value.optimizationsRun + [job]))
                               else None))
        && (failure.Some? ==>
              st.completedOptimizations == old(st.completedOptimizations) && st.report == old(st.report)
              && st.errors == old(st.errors) + ["Error en optimización " + job.jobId + ": " + failure.value])
    {
      st.phase := "optimizar";
      if st.optimizationQueue == [] {
        return;
      }
      var job := st.optimizationQueue[0];
      st.optimizationQueue := st.optimizationQueue[1..];
      st.currentOptimization := Some(job);
      match failure
      case None =>
        st.completedOptimizations := st.completedOptimizations + 1;
        if st.report.Some? {
          st.report := Some(st.report.value.(optimizationsRun := st.report.value.optimizationsRun + [job]));
        }
      case Some(msg) =>
        st.errors := st.errors + ["Error en optimización " + job.jobId + ": " + msg];
    }

    /** The time check: it can only clear the continue flag, when time is up or nothing is left. */
    method NodeVerificarTiempo(st: MorpheoState, elapsedMinutes: real)
      modifies st`shouldContinue
      ensures elapsedMinutes >= st.maxDurationMinutes as real ==> !st.shouldContinue
      ensures elapsedMinutes < st.maxDurationMinutes as real ==>
        st.shouldContinue == (old(st.shouldContinue) && (st.repairQueue != [] || st.optimizationQueue != []))
    {
      if elapsedMinutes >= st.maxDurationMinutes as real {
        st.shouldContinue := false;
        return;
      }
      if st.repairQueue == [] && st.optimizationQueue == [] {
        st.shouldContinue := false;
      }
    }

    /** The report: it closes the report with the cycle's errors (the file it writes is not modelled). */
    method NodeReportar(st: MorpheoState)
      modifies st`phase, st`report
      ensures st.phase == "reportar"
      ensures st.report == (if old(st.report).Some? then Some(old(st.report).value.(errors := st.errors, finished := true)) else None)
    {
      st.phase := "reportar";
      if st.report.Some? {
        st.report := Some(st.report.value.(errors := st.errors, finished := true));
      }
    }

    // ============================================================== engine

    /**
     * One step of the engine after planning: node `n` with what the outside
     * world does at step `k`, then the route.
     */
    method Step(st: MorpheoState, n: Node, env: Outcomes, k: nat) returns (t: Target<Node>)
      requires AfterPlanning(n)
      modifies st`phase, st`report, st`errors, st`repairQueue, st`optimizationQueue, st`currentRepair,
               st`currentOptimization, st`completedRepairs, st`completedOptimizations, st`shouldContinue
      ensures t == Next(n, st.Routed())
      ensures n != Reparar ==> st.repairQueue == old(st.repairQueue)
      ensures n != Optimizar ==> st.optimizationQueue == old(st.optimizationQueue)
      ensures n == Reparar && old(st.repairQueue) != [] ==> st.repairQueue == old(st.repairQueue)[1..]
      ensures n == Optimizar && old(st.optimizationQueue) != [] ==> st.optimizationQueue == old(st.optimizationQueue)[1..]
      ensures n != Reparar ==> st.completedRepairs == old(st.completedRepairs)
      ensures n != Optimizar ==> st.completedOptimizations == old(st.completedOptimizations)
      ensures st.completedRepairs + st.completedOptimizations <= old(st.completedRepairs + st.completedOptimizations) + 1
      ensures old(st.ReportTracks()) ==> st.ReportTracks()
      ensures n != VerificarTiempo ==> st.shouldContinue == old(st.shouldContinue)
      ensures n == VerificarTiempo && env.elapsedMinutes(k) >= st.maxDurationMinutes as real ==> !st.shouldContinue
      ensures n == Reportar ==>
        st.phase == "reportar"
        && (old(st.report).Some? ==> st.report.Some? && st.report.value.errors == st.errors && st.report.value.finished)
    {
      match n {
        case Reparar => var _ := NodeReparar(st, env.repairFailure(k));
        case Optimizar => NodeOptimizar(st, env.optimizationFailure(k));
        case VerificarTiempo => NodeVerificarTiempo(st, env.elapsedMinutes(k));
        case Reportar => NodeReportar(st);
      }
      t := Next(n, st.Routed());
    }

    /** Scanning then analysis, joined by a direct edge: the report opened and the issues found. */
    method ScanAndAnalyse(st: MorpheoState, env: Outcomes, sessionId: string)
      requires st.issuesFound == []
      modifies st`phase, st`sessionId, st`memoryStats, st`report, st`issuesFound, st`errors
      ensures st.report == Some(MaintenanceReport(sessionId, [], [], [], scanned, [], false))
      ensures st.issuesFound == Analysis(env.analysis, scanned, [])
      ensures st.completedRepairs == old(st.completedRepairs) && st.completedOptimizations == old(st.completedOptimizations)
    {
      NodeEscanear(st, sessionId);
      NodeAnalizar(st, env.analysis);
    }

    /** Planning with both queues empty, then the route out of planning. */
    method PlanFresh(st: MorpheoState) returns (node: Target<Node>)
      requires st.repairQueue == [] && st.optimizationQueue == []
      modifies st`phase, st`repairQueue, st`optimizationQueue
      ensures st.repairQueue == RepairQueue(st.issuesFound, idsDigest)
      ensures st.optimizationQueue == Optimizations(st.intensity)
      ensures node == Next(Planificar, st.Routed())
      ensures node == if st.repairQueue != [] then Goto(Reparar) else if st.optimizationQueue != [] then Goto(Optimizar) else Goto(Reportar)
      ensures st.completedRepairs == old(st.completedRepairs) && st.completedOptimizations == old(st.completedOptimizations)
      ensures st.report == old(st.report)
    {
      ghost var repairs, jobs := st.repairQueue, st.optimizationQueue;
      NodePlanificar(st);
      AppendToEmpty(repairs, RepairQueue(st.issuesFound, idsDigest));
      AppendToEmpty(jobs, Optimizations(st.intensity));
      node := Next(Planificar, st.Routed());
      PlanningRoute(st.Routed());
    }

    /**
     * What holds between the steps after planning: the measure stays within
     * the budget, a node that pops a queue finds it non-empty, the report
     * counts what was completed, and with no time allowed at most one item
     * is completed, before the time check.
     */
    predicate Draining(st: MorpheoState, node: Target<Node>, steps: nat, budget: nat, noTime: bool)
      reads st
    {
      && (node.Goto? ==> AfterPlanning(node.node) && steps + Measure(node, st.Routed()) <= budget)
      && (node == Goto(Reparar) ==> st.repairQueue != [])
      && (node == Goto(Optimizar) ==> st.optimizationQueue != [])
      && (node == Goto(Reportar) ==> (st.repairQueue == [] && st.optimizationQueue == []) || !st.shouldContinue)
      && st.ReportTracks()
      && (node == End ==>
            st.phase == "reportar" && st.report.value.errors == st.errors && st.report.value.finished
            && ((st.repairQueue == [] && st.optimizationQueue == []) || !st.shouldContinue))
      && (noTime ==>
            st.completedRepairs + st.completedOptimizations
              <= (if node == Goto(Reparar) || node == Goto(Optimizar) then 0 else 1))
    }

    /** On leaving planning with the report just opened, the loop's condition holds. */
    lemma EntryDraining(st: MorpheoState, node: Target<Node>, budget: nat, noTime: bool)
      requires st.report.Some? && st.report.value.repairsExecuted == [] && st.report.value.optimizationsRun == []
      requires st.report.value.issuesDetected == [] && st.completedRepairs == 0 && st.completedOptimizations == 0
      requires budget == StepBound(|st.repairQueue| + |st.optimizationQueue|)
      requires node == if st.repairQueue != [] then Goto(Reparar) else if st.optimizationQueue != [] then Goto(Optimizar) else Goto(Reportar)
      ensures Draining(st, node, 3, budget, noTime)
    {
    }

    /** The engine loop after planning: steps until the end or until `fuel` steps in all. */
    method Drain(st: MorpheoState, env: Outcomes, node0: Target<Node>, steps0: nat, fuel: nat,
                 ghost budget: nat, ghost noTime: bool)
      returns (node: Target<Node>, steps: nat)
      requires noTime ==> st.maxDurationMinutes <= 0 && forall k :: env.elapsedMinutes(k) >= 0.0
      requires Draining(st, node0, steps0, budget, noTime)
      modifies st`phase, st`report, st`errors, st`repairQueue, st`optimizationQueue, st`currentRepair,
               st`currentOptimization, st`completedRepairs, st`completedOptimizations, st`shouldContinue
      ensures node.Goto? ==> fuel <= steps < budget
      ensures node == End ==>
        st.phase == "reportar" && st.ReportTracks() && st.report.value.errors == st.errors && st.report.value.finished
        && ((st.repairQueue == [] && st.optimizationQueue == []) || !st.shouldContinue)
      ensures noTime ==> st.completedRepairs + st.completedOptimizations <= 1
    {
      node, steps := node0, steps0;
      while node.Goto? && steps < fuel
        invariant Draining(st, node, steps, budget, noTime)
        decreases fuel - steps
      {
        var n := node.node;
        ghost var before := st.Routed();
        node := Step(st, n, env, steps);
        StepDecreases(n, before, st.Routed());
        steps := steps + 1;
      }
    }

    /**
     * The compiled sleep cycle from `Escanear` on a fresh state, for at most
     * `fuel` steps. It always ends within `Budget` steps; when it ends the
     * report counts exactly the completed repairs and optimisations, lists
     * no issue, carries the cycle's errors, and either both queues are empty
     * or the time ran out. With no time allowed it completes at most one item.
     */
    method Run(st: MorpheoState, env: Outcomes, sessionId: string, fuel: nat) returns (outcome: RunOutcome)
      requires st.issuesFound == [] && st.repairQueue == [] && st.optimizationQueue == []
      requires st.completedRepairs == 0 && st.completedOptimizations == 0 && st.report.None?
      modifies st`phase, st`sessionId, st`memoryStats, st`report, st`issuesFound, st`errors, st`repairQueue,
               st`optimizationQueue, st`currentRepair, st`currentOptimization, st`completedRepairs,
               st`completedOptimizations, st`shouldContinue
      ensures !outcome.UnknownLabel?
      ensures fuel >= Budget(env.analysis, st.intensity) ==> outcome.Completed?
      ensures outcome.Completed? ==>
        st.phase == "reportar" && st.ReportTracks() && st.report.value.errors == st.errors && st.report.value.finished
        && ((st.repairQueue == [] && st.optimizationQueue == []) || !st.shouldContinue)
      ensures st.maxDurationMinutes <= 0 && (forall k :: env.elapsedMinutes(k) >= 0.0) ==>
        st.completedRepairs + st.completedOptimizations <= 1
    {
      ghost var noTime := st.maxDurationMinutes <= 0 && (forall k :: env.elapsedMinutes(k) >= 0.0);
      if fuel < 3 {
        return Exhausted;
      }
      ScanAndAnalyse(st, env, sessionId);
      var node := PlanFresh(st);
      ghost var budget := StepBound(|st.repairQueue| + |st.optimizationQueue|);
      assert budget == Budget(env.analysis, st.intensity);
      EntryDraining(st, node, budget, noTime);
      var steps;
      node, steps := Drain(st, env, node, 3, fuel, budget, noTime);
      if node.End? {
        outcome := Completed(steps);
      } else {
        outcome := Exhausted;
      }
    }

    /** `ejecutar_ciclo`: a fresh cycle run to its end; None when `fuel` steps do not suffice. */
    method EjecutarCiclo(maxDurationMinutes: int, intensity: string, sessionId: string, env: Outcomes, fuel: nat)
      returns (result: Option<CycleResult>)
      ensures fuel >= Budget(env.analysis, intensity) ==> result.Some?
      ensures result.Some? ==>
        var r := result.value;
        (r.success <==> r.errors == []) && r.finalPhase == "reportar" && r.issuesDetected == 0
        && r.repairsReported == r.repairsDone && r.optimizationsReported == r.optimizationsDone
      ensures result.Some? && maxDurationMinutes <= 0 && (forall k :: env.elapsedMinutes(k) >= 0.0) ==>
        result.value.repairsDone + result.value.optimizationsDone <= 1
    {
      var st := new MorpheoState(maxDurationMinutes, intensity);
      var outcome := Run(st, env, sessionId, fuel);
      if !outcome.Completed? {
        return None;
      }
      var r := st.report.value;
      result := Some(CycleResult(
        st.errors == [], st.sessionId, st.phase, st.completedRepairs, st.completedOptimizations,
        |r.issuesDetected|, |r.repairsExecuted|, |r.optimizationsRun|, st.errors));
    }
  }

  lemma QueueForSnoc(issues: seq<MemoryIssue>, ts: seq<RepairType>, k: nat, digest: seq<string> -> string)
    requires k < |ts|
    ensures QueueFor(issues, ts[..k + 1], digest)
      == QueueFor(issues, ts[..k], digest) + PlansFor(ts[k], AffectedIds(OfType(issues, ts[k])), digest)
  {
    assert ts[..k + 1][..k] == ts[..k];
  }

  /** A group step: the issues and types up to `i + 1` extend those up to `i` by issue `i`. */
  lemma GroupStep(issues: seq<MemoryIssue>, i: nat)
    requires i < |issues|
    ensures issues[..i + 1][..i] == issues[..i] && issues[..i + 1][i] == issues[i]
    ensures TypesOf(issues[..i + 1])[..i] == TypesOf(issues[..i])
  {
  }
}
