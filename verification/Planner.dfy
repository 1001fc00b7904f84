/** Plan generation: every strategy is tried in turn, every candidate is verified exhaustively, and the
    preferred one of those that pass is returned. */
module Planner {
  import opened Wrappers
  import opened Sorting
  import opened Worlds
  import opened Kahn
  import opened Plans
  import opened Verification
  import opened Search
  import opened Schedule
  import opened ScheduleProperties
  import opened Generate

  // ----- what trying the strategies came to -----

  /** What came of one strategy: a budget ran out, no schedule came out, or a candidate with the verdict
      of verification on it. */
  datatype Trial<!S, !O, !C> =
    | CutShort
    | Unscheduled(reached: Timetable<S, O, C>)
    | Yielded(plan: Plan<O, C>, table: Timetable<S, O, C>, verified: bool)

  /** What was scheduled, what came of each strategy in turn, and whether a budget had run out by then. */
  datatype Record<!S, !O, !C> = Record(task: Task<S, O, C>, tried: seq<Trial<S, O, C>>, spent: bool)

  predicate Won<S, O, C>(trial: Trial<S, O, C>) { trial.Yielded? && trial.verified }

  function Tries<S, O, C>(req: PlanRequest<S, O, C>, candidates: nat): nat {
    var most := if candidates < 4 then candidates else 4;
    if most < |req.strategies| then most else |req.strategies|
  }

  /** There is work to schedule: the operations derived are few enough, supported and distinct, and the
      snapshot is safe to start from. */
  ghost predicate Startable<S, O, C>(req: PlanRequest<S, O, C>, instant: int) {
    && Supported(req, instant) && req.derive(instant) != Some([])
    && !req.base.worldAt(instant).violated(req.base.state)
    && Unrepeated(req.derive(instant).value, req.base.worldAt(instant).stepId)
  }

  ghost predicate Supported<S, O, C>(req: PlanRequest<S, O, C>, instant: int) {
    req.derive(instant).Some? && |req.derive(instant).value| <= req.maxSteps && req.capable(req.derive(instant).value)
  }

  /** What is scheduled: the derived operations with their edges, from the state the request holds. */
  ghost predicate TaskFor<S, O, C>(req: PlanRequest<S, O, C>, instant: int, task: Task<S, O, C>)
    requires req.derive(instant).Some?
  {
    var w, ops := req.base.worldAt(instant), req.derive(instant).value;
    && task == Task(w, task.nodes, task.linked, req.limits.maxStageWidth, req.base.state)
    && NodesFor(ops, EdgesOf(req, instant), w.stepId, task.nodes) && Records(EdgesOf(req, instant), task.linked)
  }

  /** What trying the `k`-th strategy came to, in terms of the greedy search and the timetable made from
      the order it finds. */
  ghost predicate TrialMeans<S, O, C>(req: PlanRequest<S, O, C>, instant: int, task: Task<S, O, C>, k: nat,
                                      trial: Trial<S, O, C>, spent: bool)
    requires req.derive(instant).Some? && k < |req.strategies|
  {
    var strategy := req.strategies[k](task.nodes);
    match trial
    case CutShort => spent
    case Unscheduled(reached) => spent || Unschedulable(task, strategy, reached)
    case Yielded(plan, table, verified) =>
      && IsCandidate(req, instant, task.nodes, task.linked, table, plan)
      && SchedulesSearch(task, strategy, table)
      && plan.id == req.id && plan.binding == req.base.binding && plan.title == req.title
      && (verified <==> Verified(plan, req.base, true))
      && (verified ==> plan.verifiedPermutations == Verification.Interleavings(plan.stages, true))
  }

  /** The timetable holds the steps in the order the search finds. */
  ghost predicate SchedulesSearch<S, O, C>(task: Task<S, O, C>, strategy: Strategy, table: Timetable<S, O, C>) {
    var found := Greedy(task.w, task.nodes, strategy, {}, task.start);
    found.Some? && Concat(table.batches) == found.value.0
  }

  /** The `k`-th trial won: nothing that won is preferred to it, and it is preferred to what won earlier. */
  ghost predicate Preferred<S, O, C>(req: PlanRequest<S, O, C>, tried: seq<Trial<S, O, C>>, k: nat) {
    && k < |tried| && Won(tried[k])
    && (forall j :: 0 <= j < |tried| && Won(tried[j]) ==> !req.prefers(tried[j].plan, tried[k].plan))
    && (forall j :: 0 <= j < k && Won(tried[j]) ==> req.prefers(tried[k].plan, tried[j].plan))
  }

  /** The plan is the `k`-th candidate, with the record of what was set aside. */
  ghost predicate Returned<S, O(!new), C(!new)>(req: PlanRequest<S, O, C>, tried: seq<Trial<S, O, C>>, k: nat,
                                               plan: Plan<O, C>) {
    && k < |tried| && Won(tried[k]) && plan == tried[k].plan.(rejected := Filed(tried))
    && (StrictWeakOrder(req.prefers) ==> Preferred(req, tried, k))
  }

  ghost predicate SomeCut<S, O, C>(tried: seq<Trial<S, O, C>>) { exists k :: 0 <= k < |tried| && tried[k].CutShort? }

  ghost predicate SomeWon<S, O, C>(tried: seq<Trial<S, O, C>>) { exists k :: 0 <= k < |tried| && Won(tried[k]) }

  /** What is recorded for each strategy but the first that won: why it was set aside, or that it or the
      one before it lost. */
  ghost function Filed<S, O, C>(tried: seq<Trial<S, O, C>>): seq<string> {
    if tried == [] then []
    else
      var n := |tried| - 1;
      Filed(tried[..n]) +
      match tried[n]
      case CutShort => ["candidate-limit"]
      case Unscheduled(_) => ["candidate-unsafe"]
      case Yielded(_, _, verified) =>
        if !verified then ["candidate-verification-failed"]
        else if SomeWon(tried[..n]) then ["objective-loss"]
        else []
  }

  /** How an attempt ends when there is work to schedule: unless it is stopped or may not go on, every
      strategy is tried; a plan comes back exactly if a candidate passed verification, and it is the
      preferred one of those. */
  ghost predicate Decided<S, O(!new), C(!new)>(req: PlanRequest<S, O, C>, instant: int, candidates: nat,
                                              r: Result<Plan<O, C>, Refusal>, made: Record<S, O, C>)
    requires req.derive(instant).Some?
  {
    && TaskFor(req, instant, made.task) && |made.tried| <= Tries(req, candidates)
    && (forall k :: 0 <= k < |made.tried| ==> TrialMeans(req, instant, made.task, k, made.tried[k], made.spent))
    && (r == Err(Cancelled) || r == Err(AttemptBudgetExhausted)
        || (&& |made.tried| == Tries(req, candidates)
            && match r
               case Ok(plan) => exists k :: Returned(req, made.tried, k, plan)
               case Err(e) =>
                 && !SomeWon(made.tried)
                 && e == if SomeCut(made.tried) then SchedulingBudget else NoSafeOrdering))
  }

  // ----- one strategy -----

  datatype Tried<O, C> = Halted | TooCostly | NotOrdered | Unverified(report: Report) | Accepted(plan: Plan<O, C>)

  /** What one strategy comes to, as the attempt sees it and as it is recorded. */
  ghost predicate Notes<S, O, C>(out: Tried<O, C>, trial: Trial<S, O, C>) {
    match out
    case Halted => true
    case TooCostly => trial.CutShort?
    case NotOrdered => trial.Unscheduled?
    case Unverified(_) => trial.Yielded? && !trial.verified
    case Accepted(plan) => trial.Yielded? && trial.verified && trial.plan == plan
  }

  /** Schedules the steps under one strategy and verifies what comes out. */
  method TryStrategy<S(==, !new), O(==, !new), C(!new)>(req: PlanRequest<S, O, C>, instant: int, task: Task<S, O, C>,
                                                        k: nat, stop: nat -> bool, d: Diagnostics,
                                                        digest: Plan<O, C> -> nat)
    returns (out: Tried<O, C>, ghost trial: Trial<S, O, C>)
    requires 0 < req.limits.maxStageWidth && req.id != 0 && BindingOk(req.base.binding)
    requires Startable(req, instant) && TaskFor(req, instant, task) && k < |req.strategies|
    modifies d
    ensures d.schedulingAttempts == old(d.schedulingAttempts) + 1
    ensures d.statesVisited >= old(d.statesVisited) && d.permutationChecks >= old(d.permutationChecks)
    ensures out.Halted? ==> exists n: nat :: stop(n)
    ensures !out.Halted? ==> Notes(out, trial)
    ensures !out.Halted? ==> TrialMeans(req, instant, task, k, trial, d.Overdrawn(req.limits))
    ensures out.Accepted? ==>
      Sound(out.plan, req) && out.plan.instant == instant && SearchSucceeds(req, instant, k, task.nodes)
    ensures out.Unverified? && WellPosed(req, instant) ==> out.report.failingStage.Some?
    ensures out.Unverified? && OrderNeverMatters(req, instant) ==> out.report.fault != Some(OrderDependent)
  {
    hide Verified, Sound, Finished, NodesFor, StagesOk, Walks, Topological, WellPosed, OrderNeverMatters, IsCandidate,
      Admitted, Greedy, Unschedulable, Records, SearchSucceeds;
    var w, nodes, linked := task.w, task.nodes, task.linked;
    var ops, edges := req.derive(instant).value, req.dependencies(instant, req.derive(instant).value);
    NodesForOk(ops, edges, w.stepId, nodes);
    var run, t := RunSchedule(w, nodes, linked, req.strategies[k](nodes), req.limits, stop, d, req.base.state);
    trial := CutShort;
    if run.cancelled { return Halted, trial; }
    if run.limitExceeded { return TooCostly, trial; }
    if !run.ok { return NotOrdered, Unscheduled(t); }
    FoundIsSuccess(req, instant, task, k);
    var plan := Plan(req.id, req.base.binding, instant, run.stages, Justify(run.steps), edges, 0, 0, [], req.title);
    MakeCandidate(req, instant, nodes, linked, t, plan);
    var report, entry := VerifyPlan(plan, req.base, true);
    if !report.ok {
      if WellPosed(req, instant) { CandidateIsAdmitted(req, instant, nodes, linked, t, plan); }
      if OrderNeverMatters(req, instant) {
        NotToBlame(req, instant, nodes, linked, t, plan, report.failingStage, entry);
      }
      return Unverified(report), Yielded(plan, t, false);
    }
    FinishedCounts(Task(w, nodes, linked, req.limits.maxStageWidth, req.base.state), t);
    SearchWalks(w, ops, edges, nodes, req.base.state, run.linear);
    CandidateIsSound(req, instant, nodes, linked, t, plan);
    var recorded := plan.(verificationDigest := digest(plan), verifiedPermutations := report.permutationsVerified);
    SoundMetadata(req, plan, recorded);
    SameCandidate(req, instant, nodes, linked, t, plan, recorded);
    MetadataIsFree(plan, recorded, req.base);
    return Accepted(recorded), Yielded(recorded, t, true);
  }

  lemma FoundIsSuccess<S, O, C>(req: PlanRequest<S, O, C>, instant: int, task: Task<S, O, C>, k: nat)
    requires req.derive(instant).Some? && TaskFor(req, instant, task) && k < |req.strategies|
    requires Greedy(task.w, task.nodes, req.strategies[k](task.nodes), {}, task.start).Some?
    ensures SearchSucceeds(req, instant, k, task.nodes)
  {
    hide Greedy, NodesFor;
  }

  lemma SameCandidate<S, O, C>(req: PlanRequest<S, O, C>, instant: int, nodes: seq<Node<O>>,
                               linked: set<(StepId, StepId)>, t: Timetable<S, O, C>, p: Plan<O, C>, q: Plan<O, C>)
    requires req.derive(instant).Some? && IsCandidate(req, instant, nodes, linked, t, p) && SameWork(p, q)
    ensures IsCandidate(req, instant, nodes, linked, t, q)
  {
    hide Finished, NodesFor;
  }

  // ----- all strategies -----

  /** The first `n` trials, and the best candidate among them. */
  ghost predicate BestSoFar<S, O(!new), C(!new)>(req: PlanRequest<S, O, C>, tried: seq<Trial<S, O, C>>,
                                                best: Option<Plan<O, C>>, at: nat) {
    match best
    case None => !SomeWon(tried)
    case Some(plan) =>
      && at < |tried| && Won(tried[at]) && tried[at].plan == plan
      && (StrictWeakOrder(req.prefers) ==> Preferred(req, tried, at))
  }

  lemma FirstWins<S, O(!new), C(!new)>(req: PlanRequest<S, O, C>, tried: seq<Trial<S, O, C>>, trial: Trial<S, O, C>)
    requires !SomeWon(tried) && Won(trial)
    ensures BestSoFar(req, tried + [trial], Some(trial.plan), |tried|)
    ensures Filed(tried + [trial]) == Filed(tried)
  {
    var more := tried + [trial];
    assert more[..|tried|] == tried;
    forall j | 0 <= j < |tried| ensures !Won(more[j]) { assert more[j] == tried[j]; }
  }

  lemma LoserStays<S, O(!new), C(!new)>(req: PlanRequest<S, O, C>, tried: seq<Trial<S, O, C>>, trial: Trial<S, O, C>,
                                        best: Option<Plan<O, C>>, at: nat)
    requires BestSoFar(req, tried, best, at)
    requires Won(trial) ==> best.Some? && !req.prefers(trial.plan, best.value)
    ensures BestSoFar(req, tried + [trial], best, at)
  {
    var more := tried + [trial];
    forall j | 0 <= j < |tried| ensures more[j] == tried[j] {}
  }

  lemma BetterTakesOver<S, O(!new), C(!new)>(req: PlanRequest<S, O, C>, tried: seq<Trial<S, O, C>>,
                                             trial: Trial<S, O, C>, best: Plan<O, C>, at: nat)
    requires BestSoFar(req, tried, Some(best), at) && Won(trial) && req.prefers(trial.plan, best)
    ensures BestSoFar(req, tried + [trial], Some(trial.plan), |tried|)
  {
    var more := tried + [trial];
    if StrictWeakOrder(req.prefers) {
      forall j | 0 <= j < |tried| && Won(more[j])
        ensures !req.prefers(more[j].plan, trial.plan) && req.prefers(trial.plan, more[j].plan)
      {
        assert more[j] == tried[j];
        BetterThanAll(req.prefers, trial.plan, best, tried[j].plan);
      }
      NeverItself(req.prefers, trial.plan);
    }
  }

  lemma BetterThanAll<T(!new)>(prefers: (T, T) -> bool, x: T, best: T, y: T)
    requires StrictWeakOrder(prefers) && prefers(x, best) && !prefers(y, best)
    ensures prefers(x, y) && !prefers(y, x)
  {
    assert !prefers(x, y) && !prefers(y, best) ==> !prefers(x, best);
  }

  lemma NeverItself<T(!new)>(prefers: (T, T) -> bool, x: T)
    requires StrictWeakOrder(prefers)
    ensures !prefers(x, x)
  {
  }

  /** What is recorded of the trials stays true as budgets run out. */
  lemma TrialsKeep<S, O, C>(req: PlanRequest<S, O, C>, instant: int, task: Task<S, O, C>, tried: seq<Trial<S, O, C>>,
                            before: bool, after: bool)
    requires req.derive(instant).Some? && |tried| <= |req.strategies| && (before ==> after)
    requires forall k :: 0 <= k < |tried| ==> TrialMeans(req, instant, task, k, tried[k], before)
    ensures forall k :: 0 <= k < |tried| ==> TrialMeans(req, instant, task, k, tried[k], after)
  {
    hide IsCandidate, SchedulesSearch, Unschedulable, Verified;
  }

  lemma FiledNext<S, O, C>(tried: seq<Trial<S, O, C>>, trial: Trial<S, O, C>)
    ensures Filed(tried + [trial]) == Filed(tried) +
      match trial
      case CutShort => ["candidate-limit"]
      case Unscheduled(_) => ["candidate-unsafe"]
      case Yielded(_, _, verified) =>
        if !verified then ["candidate-verification-failed"]
        else if SomeWon(tried) then ["objective-loss"]
        else []
  {
    assert (tried + [trial])[..|tried|] == tried;
  }

  lemma RecordedNext(rejected: seq<Rejection>, more: Rejection)
    ensures Recorded(rejected + [more]) == Recorded(rejected) +
      match more
      case OverBudget => ["candidate-limit"]
      case Unsafe => ["candidate-unsafe"]
      case NotVerified(_) => ["candidate-verification-failed"]
      case ObjectiveLoss => ["objective-loss"]
  {
  }

  lemma SomeCutNext<S, O, C>(tried: seq<Trial<S, O, C>>, trial: Trial<S, O, C>)
    ensures SomeCut(tried + [trial]) <==> SomeCut(tried) || trial.CutShort?
  {
    var more := tried + [trial];
    if k :| 0 <= k < |tried| && tried[k].CutShort? { assert more[k].CutShort?; }
    if trial.CutShort? { assert more[|tried|].CutShort?; }
  }

  lemma NothingTried<S, O(!new), C(!new)>(req: PlanRequest<S, O, C>)
    ensures BestSoFar(req, [], None, 0) && Recorded([]) == Filed<S, O, C>([]) && !SomeCut<S, O, C>([])
  {
  }

  lemma BestIsWon<S, O(!new), C(!new)>(req: PlanRequest<S, O, C>, tried: seq<Trial<S, O, C>>,
                                       best: Option<Plan<O, C>>, at: nat)
    requires BestSoFar(req, tried, best, at)
    ensures best.Some? <==> SomeWon(tried)
  {
  }

  lemma IsReturned<S, O(!new), C(!new)>(req: PlanRequest<S, O, C>, tried: seq<Trial<S, O, C>>, best: Plan<O, C>,
                                        at: nat)
    requires BestSoFar(req, tried, Some(best), at)
    ensures Returned(req, tried, at, best.(rejected := Filed(tried)))
  {
  }

  lemma StartableDerives<S(!new), O(!new), C(!new)>(req: PlanRequest<S, O, C>, instant: int)
    requires Startable(req, instant)
    ensures req.derive(instant).Some? && Fair(req, instant, [])
  {
  }

  /** What was set aside was not malformed, nor order dependent where order never matters. */
  ghost predicate Fair<S(!new), O(!new), C(!new)>(req: PlanRequest<S, O, C>, instant: int, rejected: seq<Rejection>)
    requires req.derive(instant).Some?
  {
    && (WellPosed(req, instant) ==>
        forall i :: 0 <= i < |rejected| && rejected[i].NotVerified? ==> rejected[i].report.failingStage.Some?)
    && (OrderNeverMatters(req, instant) ==>
        forall i :: 0 <= i < |rejected| && rejected[i].NotVerified? ==>
          rejected[i].report.fault != Some(OrderDependent))
  }

  lemma FairNext<S(!new), O(!new), C(!new)>(req: PlanRequest<S, O, C>, instant: int, rejected: seq<Rejection>,
                                            more: Rejection)
    requires req.derive(instant).Some? && Fair(req, instant, rejected)
    requires more.NotVerified? && WellPosed(req, instant) ==> more.report.failingStage.Some?
    requires more.NotVerified? && OrderNeverMatters(req, instant) ==> more.report.fault != Some(OrderDependent)
    ensures Fair(req, instant, rejected + [more])
  {
    hide WellPosed, OrderNeverMatters;
  }

  /** Keeps the candidate if it is the first that passed or is preferred to the one kept, and records what
      else became of it. */
  method KeepBest<S(!new), O(!new), C(!new)>(req: PlanRequest<S, O, C>, ghost instant: int, out: Tried<O, C>,
                                             best: Option<Plan<O, C>>, rejected: seq<Rejection>,
                                             ghost tried: seq<Trial<S, O, C>>, ghost trial: Trial<S, O, C>,
                                             ghost at: nat)
    returns (best': Option<Plan<O, C>>, rejected': seq<Rejection>, ghost at': nat)
    requires req.derive(instant).Some? && !out.Halted? && Notes(out, trial)
    requires BestSoFar(req, tried, best, at) && Recorded(rejected) == Filed(tried) && Fair(req, instant, rejected)
    requires out.Unverified? && WellPosed(req, instant) ==> out.report.failingStage.Some?
    requires out.Unverified? && OrderNeverMatters(req, instant) ==> out.report.fault != Some(OrderDependent)
    ensures BestSoFar(req, tried + [trial], best', at')
    ensures Recorded(rejected') == Filed(tried + [trial]) && Fair(req, instant, rejected')
    ensures best' == best || (out.Accepted? && best' == Some(out.plan))
  {
    hide WellPosed, OrderNeverMatters, Recorded, Filed, BestSoFar, Fair;
    best', rejected', at' := best, rejected, at;
    FiledNext(tried, trial);
    BestIsWon(req, tried, best, at);
    if out.Accepted? && best == None {
      FirstWins(req, tried, trial);
      best', at' := Some(out.plan), |tried|;
      return;
    }
    var reason := match out
      case TooCostly => OverBudget
      case NotOrdered => Unsafe
      case Unverified(report) => NotVerified(report)
      case _ => ObjectiveLoss;
    RecordedNext(rejected, reason);
    FairNext(req, instant, rejected, reason);
    rejected' := rejected + [reason];
    if out.Accepted? && req.prefers(out.plan, best.value) {
      BetterTakesOver(req, tried, trial, best.value, at);
      best', at' := Some(out.plan), |tried|;
    } else {
      LoserStays(req, tried, trial, best, at);
    }
  }

  /** Tries the strategies in turn and keeps the preferred candidate of those that pass verification. */
  method TryAll<S(==, !new), O(==, !new), C(!new)>(req: PlanRequest<S, O, C>, instant: int, candidates: nat,
                                                   task: Task<S, O, C>, stop: nat -> bool, d: Diagnostics,
                                                   digest: Plan<O, C> -> nat)
    returns (r: Result<Plan<O, C>, Refusal>, rejected: seq<Rejection>, ghost made: Record<S, O, C>)
    requires 0 < req.limits.maxStageWidth && req.id != 0 && BindingOk(req.base.binding)
    requires Startable(req, instant) && TaskFor(req, instant, task)
    modifies d
    ensures Decided(req, instant, candidates, r, made) && made.spent == d.Overdrawn(req.limits)
    ensures Recorded(rejected) == Filed(made.tried) && Fair(req, instant, rejected)
    ensures r.Ok? ==> Sound(r.value, req) && r.value.instant == instant && SomeSearchSucceeds(req, instant)
    ensures r.Err? ==> r.error in {Cancelled, AttemptBudgetExhausted, SchedulingBudget, NoSafeOrdering}
    ensures r == Err(Cancelled) ==> exists n: nat :: stop(n)
    ensures r == Err(AttemptBudgetExhausted) ==>
      req.maxAttempts <= old(d.schedulingAttempts) + |made.tried| && |made.tried| < Tries(req, candidates)
  {
    hide Verified, Sound, WellPosed, OrderNeverMatters, TrialMeans, Recorded, Filed, BestSoFar, SomeCut, Fair, TaskFor,
      Startable, SearchSucceeds;
    rejected := [];
    StartableDerives(req, instant);
    var best: Option<Plan<O, C>> := None;
    var sawLimit, candidate := false, 0;
    ghost var tried: seq<Trial<S, O, C>>, at: nat := [], 0;
    NothingTried(req);
    while candidate < candidates && candidate < 4 && candidate < |req.strategies|
      invariant |tried| == candidate <= Tries(req, candidates)
      invariant d.schedulingAttempts == old(d.schedulingAttempts) + candidate
      invariant forall k :: 0 <= k < |tried| ==>
        TrialMeans(req, instant, task, k, tried[k], d.Overdrawn(req.limits))
      invariant BestSoFar(req, tried, best, at)
      invariant sawLimit <==> SomeCut(tried)
      invariant Recorded(rejected) == Filed(tried)
      invariant best.Some? ==>
        Sound(best.value, req) && best.value.instant == instant && SomeSearchSucceeds(req, instant)
      invariant Fair(req, instant, rejected)
    {
      made := Record(task, tried, d.Overdrawn(req.limits));
      if stop(candidate) { return Err(Cancelled), rejected, made; }
      if d.schedulingAttempts >= req.maxAttempts { return Err(AttemptBudgetExhausted), rejected, made; }
      ghost var before := d.Overdrawn(req.limits);
      var out, trial := TryStrategy(req, instant, task, candidate, stop, d, digest);
      TrialsKeep(req, instant, task, tried, before, d.Overdrawn(req.limits));
      if out.Halted? {
        made := Record(task, tried, d.Overdrawn(req.limits));
        return Err(Cancelled), rejected, made;
      }
      candidate := candidate + 1;
      SomeCutNext(tried, trial);
      best, rejected, at := KeepBest(req, instant, out, best, rejected, tried, trial, at);
      sawLimit := sawLimit || out.TooCostly?;
      tried := tried + [trial];
    }
    made := Record(task, tried, d.Overdrawn(req.limits));
    BestIsWon(req, tried, best, at);
    if best == None { return Err(if sawLimit then SchedulingBudget else NoSafeOrdering), rejected, made; }
    var final := best.value.(rejected := Recorded(rejected));
    SoundMetadata(req, best.value, final);
    IsReturned(req, tried, best.value, at);
    r := Ok(final);
  }

  /** One complete planning pass for one instant.  What comes back is sound, and it comes back exactly
      when some strategy yields a candidate that passes verification; it is the preferred one of those.
      What is set aside on the way is never set aside for being malformed, nor for order dependence
      where order never matters. */
  method RunAttempt<S(==, !new), O(==, !new), C(!new)>(req: PlanRequest<S, O, C>, instant: int, candidates: nat,
                                                       stop: nat -> bool, d: Diagnostics, digest: Plan<O, C> -> nat)
    returns (r: Result<Plan<O, C>, Refusal>, rejected: seq<Rejection>, ghost made: Record<S, O, C>)
    requires 0 < req.limits.maxStageWidth
    requires req.id != 0 && BindingOk(req.base.binding)
    modifies d
    ensures r == Err(DerivationFailed) <==> req.derive(instant) == None
    ensures r == Err(StepBudgetExceeded) <==>
      req.derive(instant).Some? && |req.derive(instant).value| > req.maxSteps
    ensures r == Err(CapabilityMissing) <==>
      && req.derive(instant).Some? && |req.derive(instant).value| <= req.maxSteps
      && !req.capable(req.derive(instant).value)
    ensures r == Err(UnsafeInitialState) <==>
      Supported(req, instant) && req.base.worldAt(instant).violated(req.base.state)
    ensures r == Err(DuplicateOperation) <==>
      && Supported(req, instant) && !req.base.worldAt(instant).violated(req.base.state)
      && !Unrepeated(req.derive(instant).value, req.base.worldAt(instant).stepId)
    ensures req.derive(instant) == Some([]) ==>
      (r.Ok? <==> req.capable([]) && !req.base.worldAt(instant).violated(req.base.state))
    ensures Startable(req, instant) ==>
      Decided(req, instant, candidates, r, made) && made.spent == d.Overdrawn(req.limits)
    ensures Startable(req, instant) ==> Recorded(rejected) == Filed(made.tried)
    ensures r !in {Err(InputInvalid), Err(StaleInput), Err(NoPermittedInstant)}
    ensures r == Err(Cancelled) ==> exists n: nat :: stop(n)
    ensures r == Err(AttemptBudgetExhausted) ==>
      req.maxAttempts <= old(d.schedulingAttempts) + |made.tried| && |made.tried| < Tries(req, candidates)
    ensures r.Ok? ==> Sound(r.value, req) && r.value.instant == instant
    ensures r.Ok? ==> req.derive(instant) == Some([]) || (req.derive(instant).Some? && SomeSearchSucceeds(req, instant))
    ensures req.derive(instant) == None ==> rejected == []
    ensures req.derive(instant).Some? && WellPosed(req, instant) ==>
      forall i :: 0 <= i < |rejected| && rejected[i].NotVerified? ==> rejected[i].report.failingStage.Some?
    ensures req.derive(instant).Some? && OrderNeverMatters(req, instant) ==>
      forall i :: 0 <= i < |rejected| && rejected[i].NotVerified? ==> rejected[i].report.fault != Some(OrderDependent)
  {
    hide Verified, Sound, NodesFor, WellPosed, OrderNeverMatters, Records, TrialMeans, Recorded, Filed, Decided;
    rejected := [];
    var w := req.base.worldAt(instant);
    var derived := req.derive(instant);
    made := Record(Task(w, [], {}, req.limits.maxStageWidth, req.base.state), [], false);
    if derived == None { return Err(DerivationFailed), rejected, made; }
    var ops := derived.value;
    if |ops| > req.maxSteps { return Err(StepBudgetExceeded), rejected, made; }
    if !req.capable(ops) { return Err(CapabilityMissing), rejected, made; }
    if w.violated(req.base.state) { return Err(UnsafeInitialState), rejected, made; }
    if ops == [] {
      var converged := Plan(req.id, req.base.binding, instant, [], [], [], 0, 0, [], req.title);
      ConvergedIsSound(req, converged);
      return Ok(converged), rejected, made;
    }
    var edges := req.dependencies(instant, ops);
    var built := BuildNodes(ops, edges, w.stepId);
    if built == None { return Err(DuplicateOperation), rejected, made; }
    var linked := LinkedPairs(edges);
    var task := Task(w, built.value, linked, req.limits.maxStageWidth, req.base.state);
    r, rejected, made := TryAll(req, instant, candidates, task, stop, d, digest);
  }

  // ----- from a request -----

  /** Generates a plan or refuses.  A plan that comes back passes exhaustive verification against
      the request as it was made, whatever instant it was shifted to, and performs exactly the
      operations derived for that instant; it is the preferred one of the candidates that do. */
  method GeneratePlan<S(==, !new), O(==, !new), C(!new)>(req: PlanRequest<S, O, C>, stop: nat -> bool,
                                                         digest: Plan<O, C> -> nat)
    returns (r: Result<Plan<O, C>, Refusal>, rejected: seq<Rejection>, ghost made: Record<S, O, C>)
    requires req.valid ==> 0 < req.limits.maxStageWidth && req.id != 0 && BindingOk(req.base.binding)
    ensures r == Err(InputInvalid) <==> !req.valid
    ensures r == Err(StaleInput) <==> req.valid && !req.bound
    ensures r == Err(NoPermittedInstant) <==> req.valid && req.bound && NoInstant(req)
    ensures Concluded(req, r, rejected, made)
    ensures r == Err(Cancelled) ==> exists n: nat :: stop(n)
    ensures r == Err(AttemptBudgetExhausted) ==> req.maxAttempts < Tries(req, req.maxCandidates)
    ensures r.Ok? ==> Sound(r.value, req) && r.value.instant == ChosenInstant(req) && Accepts(req)
    ensures var at := ChosenInstant(req);
      Accepts(req) && req.derive(at) == Some([]) ==>
        (r.Ok? <==> req.capable([]) && !req.base.worldAt(at).violated(req.base.state))
    ensures var at := ChosenInstant(req);
      r.Ok? ==> req.derive(at) == Some([]) || (req.derive(at).Some? && SomeSearchSucceeds(req, at))
    ensures req.derive(ChosenInstant(req)) == None ==> rejected == []
    ensures var at := ChosenInstant(req);
      req.derive(at).Some? && WellPosed(req, at) ==>
        forall i :: 0 <= i < |rejected| && rejected[i].NotVerified? ==> rejected[i].report.failingStage.Some?
    ensures var at := ChosenInstant(req);
      req.derive(at).Some? && OrderNeverMatters(req, at) ==>
        forall i :: 0 <= i < |rejected| && rejected[i].NotVerified? ==> rejected[i].report.fault != Some(OrderDependent)
  {
    hide Sound, WellPosed, OrderNeverMatters, SomeSearchSucceeds, Decided, Startable;
    var d := new Diagnostics();
    rejected := [];
    made := Record(Task(req.base.worldAt(req.base.instant), [], {}, 0, req.base.state), [], false);
    if !req.valid { return Err(InputInvalid), rejected, made; }
    if !req.bound { return Err(StaleInput), rejected, made; }
    var instant := req.base.instant;
    if req.allowShift {
      var derived := req.derive(instant);
      if derived.Some? {
        var shifted := req.shift(derived.value);
        if shifted == None { return Err(NoPermittedInstant), rejected, made; }
        instant := shifted.value;
      }
    }
    r, rejected, made := RunAttempt(req, instant, req.maxCandidates, stop, d, digest);
  }

  /** The request is valid, not stale, and its work can be shifted to some instant. */
  predicate Accepts<S, O, C>(req: PlanRequest<S, O, C>) { req.valid && req.bound && !NoInstant(req) }

  /** For a request that is accepted, the outcome where there is work to schedule at the instant chosen, and
      the record of what was set aside. */
  ghost predicate Concluded<S, O(!new), C(!new)>(req: PlanRequest<S, O, C>, r: Result<Plan<O, C>, Refusal>,
                                              rejected: seq<Rejection>, made: Record<S, O, C>) {
    var at := ChosenInstant(req);
    Accepts(req) && Startable(req, at) ==>
      Decided(req, at, req.maxCandidates, r, made) && Recorded(rejected) == Filed(made.tried)
  }

  /** The stages of a candidate, and so of a plan that comes back, are maximal: before the first step of
      the next stage, a stage was closed because it has the full width, because an edge joins that step to
      one of its own, or because some order of its steps and that one is unsafe or ends elsewhere. */
  lemma CandidateStagesAreMaximal<S(!new), O, C>(req: PlanRequest<S, O, C>, instant: int, task: Task<S, O, C>, k: nat,
                                                 trial: Trial<S, O, C>, spent: bool, stage: nat)
    requires req.derive(instant).Some? && k < |req.strategies| && TaskFor(req, instant, task)
    requires TrialMeans(req, instant, task, k, trial, spent) && trial.Yielded? && WellPosed(req, instant)
    requires stage + 1 < |trial.plan.stages|
    ensures var batches := trial.table.batches;
      && stage + 1 < |batches| && stage < |trial.table.entries| && InRange(task.nodes, batches[stage])
      && batches[stage + 1] != [] && batches[stage + 1][0] < |task.nodes|
    ensures var entry, batch := trial.table.entries[stage], trial.table.batches[stage];
      var next := trial.table.batches[stage + 1][0];
      var plan, id := trial.plan, task.nodes[next].id;
      && id in plan.stages[stage + 1].steps
      && (|| |plan.stages[stage].steps| == req.limits.maxStageWidth
          || (exists other :: other in plan.stages[stage].steps
                && (Edge(other, id) in plan.edges || Edge(id, other) in plan.edges))
          || SomeOrderFails(task.w, entry, BatchActions(task.w, task.nodes, entry, batch + [next])))
  {
    hide Finished, NodesMatch, AllConditioned, WellPosed, Verified, SomeOrderFails, NodesFor;
    CandidateMatches(req, instant, task.nodes, task.linked, trial.table, trial.plan);
    CandidateTable(req, instant, task, trial.table, trial.plan);
    StagesAreMaximal(task, trial.table, trial.plan.edges, trial.plan, stage);
  }

  lemma CandidateTable<S, O, C>(req: PlanRequest<S, O, C>, instant: int, task: Task<S, O, C>, t: Timetable<S, O, C>,
                                plan: Plan<O, C>)
    requires req.derive(instant).Some? && TaskFor(req, instant, task)
    requires IsCandidate(req, instant, task.nodes, task.linked, t, plan)
    ensures Finished(task, t) && Carries(plan, t) && OnlyEdges(plan.edges, task.linked)
    ensures |plan.stages| == |t.batches| && |t.entries| == |t.batches| + 1
  {
    hide NodesFor, BatchVerified, Topological;
  }
}
