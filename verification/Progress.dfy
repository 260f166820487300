/** What a process gets done when nothing goes wrong: from any place the rest of the pass is handled and the
    campaign ends; and the ends nobody intended, each reached from a new campaign. */
module Progress {
  import opened Wrappers
  import opened Transitions
  import opened EventLog
  import opened Controller
  import opened Walk
  import opened Process
  import opened Resume
  import opened Runs
  import opened Restarts
  import T = Terminal

  // What is stored satisfies the guards of the walk that candidates do not settle.
  predicate GuardsOpen(disk: Disk) {
    (disk.queries != [] || disk.hasVisual) && !disk.sellerTextOnly
  }

  // No crash, no cancel(), no failing handler, and what it leaves behind satisfies the guards.
  predicate Smooth(sig: Signal) {
    Quiet(sig) && sig.fault == None && GuardsOpen(sig.disk)
  }

  ghost predicate RunsSmoothly(env: Env) {
    forall t :: Smooth(env(t))
  }

  // Nothing goes wrong in the next so many beats.
  ghost predicate SmoothFor(w: World, beats: nat, env: Env) {
    forall t :: w.clock <= t < w.clock + beats ==> Smooth(env(t))
  }

  ghost predicate InTime(env: Env) {
    forall t :: !env(t).wallExceeded
  }

  // ---------------------------------------------------------------- calls

  lemma SmoothHandle(w: World, stage: CampaignState, env: Env)
    requires SmoothFor(w, 2, env) && !w.flag
    ensures var after := Handle(w, stage, env);
            && after.status == Done && GuardsOpen(after.w.disk) && after.w.clock == w.clock + 2
            && after.w.c.(log := w.c.log) == w.c && !after.w.flag && after.w.round == w.round && after.w.ran == w.ran
            && after.w.disk.candidates == CandidatesAfter(stage, w.disk.candidates, env(w.clock).disk.candidates)
  {
    hide CoverageAfter, CandidatesAfter, Said;
    assert Smooth(env(w.clock)) && Smooth(env(w.clock + 1));
  }

  lemma SmoothFinish(w: World, stage: CampaignState, env: Env)
    requires SmoothFor(w, 1, env) && w.c.row.state == stage
    ensures var after := FinishStage(w, stage, env);
            && after.status == Done && after.w.flag == w.flag && SameElse(w, after.w) && after.w.clock == w.clock + 1
            && after.w.c == w.c.(steps := Mark(w.c.steps, stage))
  {
    assert Smooth(env(w.clock));
  }

  lemma SmoothHandling(w: World, stage: CampaignState, env: Env)
    requires SmoothFor(w, 3, env) && !w.flag && w.c.row.state == stage
    ensures var after := HandleAndFinish(w, stage, env);
            && after.status == Done && GuardsOpen(after.w.disk) && after.w.clock == w.clock + 3
            && after.w.c.(log := w.c.log) == w.c.(steps := Mark(w.c.steps, stage)) && !after.w.flag
            && after.w.round == w.round && after.w.ran == w.ran
            && after.w.disk.candidates == CandidatesAfter(stage, w.disk.candidates, env(w.clock).disk.candidates)
  {
    hide Handle, FinishStage, Mark, CandidatesAfter, GuardsOpen, Smooth;
    SmoothHandle(w, stage, env);
    SmoothFinish(Handle(w, stage, env).w, stage, env);
  }

  lemma SmoothEntered(w: World, target: CampaignState, ctx: TransitionContext, env: Env)
    requires TransitionCheck(w.c.row.state, false, target, ctx) == Pass && !IsTerminal(target)
    requires SmoothFor(w, 1, env) && !w.flag
    ensures var after := Entered(w, target, ctx, env);
            && after.status == Done && !Over(after.w) && !after.w.flag && after.w.clock == w.clock + 1
            && CameTo(w, after.w, target) && SameElse(w, after.w)
  {
    hide TransitionCheck, Entered;
    assert Smooth(env(w.clock));
    PassingExactly(w, target, ctx, env);
  }

  lemma SmoothMayStart(w: World, timed: bool, env: Env)
    requires SmoothFor(w, 1, env) && !w.flag
    ensures MayStart(w, timed, env)
            == After(w.(clock := w.clock + 1),
                     if timed && env(w.clock).wallExceeded then Raised(BudgetExceeded) else Done)
  {
    assert Smooth(env(w.clock));
  }

  // Nobody cancels and nothing dies where everything runs smoothly.
  lemma SmoothIsQuiet(env: Env)
    requires RunsSmoothly(env)
    ensures !Cancels(env) && !Crashes(env)
    ensures forall w, beats :: SmoothFor(w, beats, env)
  {
    forall t ensures !env(t).cancel && !env(t).crash {
      assert Smooth(env(t));
    }
  }

  lemma OverIsFlagged(w: World, after: After, env: Env)
    requires Steady(w, after, env) && !Over(w) && !w.flag && !Cancels(env)
    ensures !Over(after.w) && !after.w.flag
  {
    hide Explained;
  }

  // ---------------------------------------------------------------- a pass

  lemma GuardsHold(w: World, k: nat)
    requires k < |Plan(w)| && GuardsOpen(w.disk)
    ensures GuardHolds(Plan(w)[k], ContextFromDisk(w.c.row, w.disk))
  {
    SequenceIsPlan(HasCandidates(w));
    LateIsNotEarly(w, k);
  }

  lemma OpensWhenGuarded(state: CampaignState, stage: CampaignState, ctx: TransitionContext)
    requires !IsTerminal(state) && stage in Forward(state) && GuardHolds(stage, ctx)
    ensures TransitionCheck(state, false, stage, ctx) == Pass
  {}

  lemma SmoothStage(w: World, k: nat, env: Env)
    requires SmoothFor(w, 4, env) && AtStage(w, k) && k < |Plan(w)| && !w.flag && GuardsOpen(w.disk)
    ensures var after := RunStage(w, Plan(w)[k], env);
            && after.status == Done && AtStage(after.w, k + 1) && !after.w.flag && GuardsOpen(after.w.disk)
            && after.w.c.row.state == Plan(w)[k] && after.w.round == w.round
            && after.w.c.steps == Mark(w.c.steps, Plan(w)[k])
            && after.w.clock == w.clock + (if w.c.row.state == Plan(w)[k] then 3 else 4)
            && after.w.ran == w.ran + [Plan(w)[k]]
            && (IsEarly(Plan(w)[k]) && (forall t :: env(t).disk.candidates > 0) ==> HasCandidates(after.w))
  {
    hide At, Sequence, GuardHolds, Forward, Entered, HandleAndFinish, ContextFromDisk, Explained, Mark, GuardsOpen,
         Smooth, TransitionCheck, IsTerminal, Emit;
    var stage, ctx := Plan(w)[k], ContextFromDisk(w.c.row, w.disk);
    GuardsHold(w, k);
    NextEdge(w.c.row.state, w.c.steps, HasCandidates(w), k);
    NextStageAt(w, k);
    if w.c.row.state != stage {
      OpensWhenGuarded(w.c.row.state, stage, ctx);
      SmoothEntered(w, stage, ctx, env);
    }
    var open := OpenStage(w, stage, env);
    var begun := open.w.(ran := open.w.ran + [stage]);
    SmoothHandling(begun, stage, env);
    var after := HandleAndFinish(begun, stage, env);
    HandleAndFinishKeeps(begun, stage, env);
    HandlingAdvances(stage, w.c.steps, HasCandidates(w), HasCandidates(after.w), k);
  }

  // A pass that is stopped by nothing: it has the lane for the matching stages, or is not amid them.
  predicate Free(w: World, p: Place) {
    match p
    case Stage(k) => !Idle(w, k)
    case Skipped => T.Routing in w.lanes
    case _ => true
  }

  lemma LastStageIsAhead(w: World, k: nat)
    requires AtStage(w, k) && k < |Plan(w)| && HasCandidates(w) && 6 <= k <= 10 && !Idle(w, k) && T.Routing in w.lanes
    ensures k == 6 && w.c.row.state == BroadRetrieval
  {
    AmidTheMatching(w, k);
  }

  lemma SmoothSkip(w: World, env: Env)
    requires SmoothFor(w, 4, env) && AtStage(w, 6) && w.c.row.state == BroadRetrieval && HasCandidates(w) && !w.flag
    ensures var after := SkipMatching(w, BroadRetrieval, env);
            && after.status == Done && Standing(after.w, Skipped) && !after.w.flag && GuardsOpen(after.w.disk)
            && after.w.round == w.round
  {
    hide At, Sequence, Forward, Entered, HandleAndFinish, ContextFromDisk, Mark, GuardsOpen, Smooth, IsTerminal;
    GapAnalysisFollows();
    StepsUpToBroadRetrieval(w);
    GapAnalysisIsOpen(ContextFromDisk(w.c.row, w.disk));
    SmoothEntered(w, GapAnalysis, ContextFromDisk(w.c.row, w.disk), env);
    NextStageAt(w, 6);
    var entered := EnterStage(w, GapAnalysis, env);
    var begun := entered.w.(ran := entered.w.ran + [GapAnalysis]);
    SmoothHandling(begun, GapAnalysis, env);
    HandleAndFinishKeeps(begun, GapAnalysis, env);
    MarkingGapAnalysis(w.c.steps);
    SkippedStands(HandleAndFinish(begun, GapAnalysis, env).w);
  }

  lemma GapAnalysisIsOpen(ctx: TransitionContext)
    ensures TransitionCheck(BroadRetrieval, false, GapAnalysis, ctx) == Pass && !IsTerminal(BroadRetrieval)
  {}

  lemma {:induction false} SmoothPipeline(w: World, k: nat, env: Env, seen: set<CampaignState>) returns (q: Place)
    requires RunsSmoothly(env) && InTime(env) && AtStage(w, k) && !w.flag && GuardsOpen(w.disk) && Free(w, Stage(k))
    requires forall s :: s in seen ==> s in w.c.steps
    ensures var after := Pipeline(w, env, seen);
            && after.status == Done && Standing(after.w, q) && AtRest(after.w, q) && !after.w.flag
            && GuardsOpen(after.w.disk) && after.w.round == w.round && (q == Skipped ==> T.Routing in after.w.lanes)
    decreases STAGES - seen
  {
    hide At, Sequence, MayStart, RunStage, SkipMatching, Explained, GuardsOpen, IsEarly, Idle, Smooth;
    SmoothIsQuiet(env);
    NextStageAt(w, k);
    q := Stage(k);
    if k < |Plan(w)| {
      var stage := Plan(w)[k];
      LateIsNotEarly(w, k);
      SmoothMayStart(w, true, env);
      var may := MayStart(w, true, env);
      if Skips(w, stage) {
        LastStageIsAhead(w, k);
        SmoothSkip(may.w, env);
        SkipSteady(may.w, BroadRetrieval, env);
        q := Skipped;
      } else {
        SmoothStage(may.w, k, env);
        StageSteadyAt(may.w, k, env);
        var run := RunStage(may.w, stage, env);
        StageFrees(may.w, run.w, k);
        q := SmoothPipeline(run.w, k + 1, env, seen + {stage});
        SeenPipeline(w, env, seen, stage);
      }
    }
  }

  lemma StageSteadyAt(w: World, k: nat, env: Env)
    requires k < |Plan(w)|
    ensures Steady(w, RunStage(w, Plan(w)[k], env), env)
  {
    SequenceIsPlan(HasCandidates(w));
    forall s | s in STAGES ensures !IsTerminal(s) {}
    hide RunStage;
    StageSteady(w, Plan(w)[k], env);
  }

  // A stage handled without the lane leaves the campaign where it is free to go on.
  lemma StageFrees(w: World, v: World, k: nat)
    requires k < |Plan(w)| && AtStage(v, k + 1) && v.c.row.state == Plan(w)[k]
    requires T.Routing in v.lanes <==> T.Routing in w.lanes
    requires T.Routing in w.lanes ==> Plan(w)[k] !in MATCH_STAGES
    ensures Free(v, Stage(k + 1))
  {}

  lemma SeenPipeline(w: World, env: Env, seen: set<CampaignState>, stage: CampaignState)
    requires NextStage(w) == Some(stage) && !Over(w) && stage !in seen && !Skips(w, stage)
    requires MayStart(w, true, env).status == Done && RunStage(MayStart(w, true, env).w, stage, env).status == Done
    ensures Pipeline(w, env, seen) == Pipeline(RunStage(MayStart(w, true, env).w, stage, env).w, env, seen + {stage})
  {}

  // ---------------------------------------------------------------- the reference wave

  lemma WaveOpens(state: CampaignState, n: nat, ctx: TransitionContext)
    requires 1 <= n <= 6 && SPINE[n] in Forward(state) && !IsTerminal(state)
    ensures TransitionCheck(state, false, SPINE[n], ctx) == Pass
  {}

  lemma SmoothWaveStep(w: World, n: nat, i: nat, env: Env)
    requires SmoothFor(w, 4, env) && InWave(w.c.row.state, w.c.steps, i) && 1 <= n <= 6 && n - 1 <= i <= n && !w.flag
    ensures var after := WaveStep(w, n, env);
            && after.status == Done && !after.w.flag && GuardsOpen(after.w.disk) && after.w.round == w.round
            && InWave(after.w.c.row.state, after.w.c.steps, n) && SPINE[n] in after.w.c.steps && !Over(after.w)
            && after.w.clock == w.clock + (if i == n then 3 else 4) && after.w.ran == w.ran
            && (PlanningQueries in after.w.c.steps ==> PlanningQueries in w.c.steps || n == 6)
  {
    hide InWave, HandleAndFinish, ContextFromDisk, TransitionCheck, Forward, GuardsOpen, Entered, Mark, Smooth;
    var ctx := ContextFromDisk(w.c.row, w.disk);
    WaveEntryIsLegal(w, n, i);
    if i != n {
      WaveOpens(w.c.row.state, n, ctx);
      SmoothEntered(w, SPINE[n], ctx, env);
    }
    var entered := if w.c.row.state == SPINE[n] then After(w, Done) else Entered(w, SPINE[n], ctx, env);
    SmoothHandling(entered.w, SPINE[n], env);
    WaveStepDone(n, entered.w.c.steps);
    MarkedIsIn(entered.w.c.steps, SPINE[n]);
    MarkedOnly(entered.w.c.steps, n);
  }

  lemma MarkedOnly(steps: seq<CampaignState>, n: nat)
    requires 1 <= n <= 6
    ensures PlanningQueries in Mark(steps, SPINE[n]) ==> PlanningQueries in steps || n == 6
  {}

  lemma {:induction false} SmoothWave(w: World, n: nat, i: nat, env: Env)
    requires InWave(w.c.row.state, w.c.steps, i) && 1 <= n <= 7 && n - 1 <= i <= n && SmoothFor(w, 4 * (7 - n), env)
    requires !w.flag && (n == 7 ==> PlanningQueries in w.c.steps && GuardsOpen(w.disk))
    ensures var after := Wave(w, n, env);
            && after.status == Done && !after.w.flag && GuardsOpen(after.w.disk) && AtStage(after.w, 0)
            && after.w.c.row.state == PlanningQueries && after.w.round == w.round && after.w.ran == w.ran
            && (i == n - 1 || n == 7 ==> after.w.clock == w.clock + 4 * (7 - n))
    decreases 7 - n
  {
    hide InWave, WaveStep, At, Sequence, GuardsOpen, Smooth;
    if n == 7 {
      SequenceIsPlan(HasCandidates(w));
      WaveDone(w.c.row.state, w.c.steps, Plan(w), i);
      WaveEnds(w.c.row.state, w.c.steps, i);
    } else {
      SmoothWaveStep(w, n, i, env);
      SmoothWave(WaveStep(w, n, env).w, n + 1, n, env);
    }
  }

  lemma WaveEnds(state: CampaignState, steps: seq<CampaignState>, i: nat)
    requires InWave(state, steps, i) && PlanningQueries in steps
    ensures state == PlanningQueries
  {}

  // The place from which the walk goes on once the wave is done.
  function WalkFrom(p: Place): (r: Place) {
    if p.InReference? then Stage(0) else p
  }

  // From any place a smooth run comes to its walk.
  lemma SmoothReference(w: World, p: Place, env: Env)
    requires RunsSmoothly(env) && Standing(w, p) && Walkable(p) && !w.flag && !Over(w) && Free(w, p)
    requires !p.InReference? ==> GuardsOpen(w.disk)
    ensures var after := EnsureReference(w, env);
            && after.status == Done && !after.w.flag && GuardsOpen(after.w.disk) && Standing(after.w, WalkFrom(p))
            && !Over(after.w) && after.w.ran == w.ran && after.w.round == w.round && Free(after.w, WalkFrom(p))
            && (T.Routing in after.w.lanes <==> T.Routing in w.lanes)
            && (if p.InReference? then after.w.c.row.state == PlanningQueries else after.w == w)
  {
    hide InWave, Wave, At, Sequence, GuardsOpen, Smooth, Explained;
    SmoothIsQuiet(env);
    ReferenceSteady(w, env);
    if p.InReference? {
      WaveIsBeforeTheWalk(w.c.row.state, w.c.steps, p.i);
      SmoothWave(w, 1, p.i, env);
      NextStageAt(EnsureReference(w, env).w, 0);
    } else {
      var q := EnsureReferenceResumes(w, p, env);
    }
  }

  // ---------------------------------------------------------------- a run

  // Whether a finished pass is followed by a replan.
  predicate WantsMore(sig: Signal) {
    sig.learned && !sig.stop
  }

  ghost predicate AlwaysWantsMore(env: Env) {
    forall t :: WantsMore(env(t))
  }

  ghost predicate NeverWantsMore(env: Env) {
    forall t :: !WantsMore(env(t))
  }

  lemma SmoothPass(w: World, p: Place, env: Env) returns (q: Place)
    requires RunsSmoothly(env) && InTime(env) && Standing(w, p) && (p.Stage? || p == Skipped) && Free(w, p)
    requires !w.flag && GuardsOpen(w.disk)
    ensures var after := Pipeline(w, env, {});
            && after.status == Done && Standing(after.w, q) && AtRest(after.w, q) && !after.w.flag
            && GuardsOpen(after.w.disk) && after.w.round == w.round
  {
    hide At, Sequence, MayStart, GuardsOpen, Smooth, NextStage, SkipMatching, Idle;
    SmoothIsQuiet(env);
    if p.Stage? {
      q := SmoothPipeline(w, p.k, env, {});
    } else {
      q := Skipped;
      SmoothMayStart(w, true, env);
      FineMatchingIsNext(w);
      SkippingNothing(w.(clock := w.clock + 1), w.c.row.state, env);
      StandsOn(w, Skipped, w.(clock := w.clock + 1));
    }
  }

  lemma SkippingNothing(w: World, state: CampaignState, env: Env)
    requires state != BroadRetrieval
    ensures SkipMatching(w, state, env) == After(w, Done)
  {
    hide EnterStage, HandleAndFinish;
  }

  // Undisturbed, _replan comes back and leaves the campaign active, sent back if there is more to do.
  lemma SmoothReplan(w: World, q: Place, mayGoOn: bool, env: Env)
    requires RunsSmoothly(env) && Standing(w, q) && AtRest(w, q) && !w.flag
    ensures var (after, replanned) := Replan(w, mayGoOn, env);
            && after.status == Done && !after.w.flag && !Over(after.w)
            && (replanned <==> mayGoOn && WantsMore(env(w.clock)))
  {
    hide Standing, AtRest, Replan, Explained;
    SmoothIsQuiet(env);
    RestMayReplan(w, q);
    ReplanSteady(w, mayGoOn, env);
    OverIsFlagged(w, Replan(w, mayGoOn, env).0, env);
    var r := ReplanExactly(w, q, mayGoOn, env);
    SmoothIsUndisturbed(w.(clock := w.clock + 1), env);
    assert Smooth(env(w.clock));
    NotWanted(w, mayGoOn, env);
  }

  lemma SmoothIsUndisturbed(w: World, env: Env)
    requires RunsSmoothly(env) && !w.flag
    ensures Undisturbed(w, env)
  {
    var t := if w.c.row.state == Replanning then w.clock else w.clock + 1;
    assert Smooth(env(w.clock)) && Smooth(env(t)) && Smooth(env(t + 1)) && Smooth(env(t + 2));
  }

  lemma NotWanted(w: World, mayGoOn: bool, env: Env)
    requires RunsSmoothly(env) && !w.flag
    ensures !(mayGoOn && WantsMore(env(w.clock))) ==>
              Replan(w, mayGoOn, env).0.status == Done && !Replan(w, mayGoOn, env).1
    ensures Replan(w, mayGoOn, env).1 ==> Replan(w, mayGoOn, env).0.status == Done
  {
    hide SendBack;
    assert Smooth(env(w.clock));
  }

  lemma SmoothRound(setup: Setup, w: World, p: Place, round: nat, env: Env)
    requires RunsSmoothly(env) && InTime(env) && Standing(w, p) && (p.Stage? || p == Skipped) && Free(w, p)
    requires !w.flag && GuardsOpen(w.disk)
    ensures var (end, replanned) := Round(setup, w, round, env);
            && end.status == Done && !end.w.flag && !Over(end.w)
            && (AlwaysWantsMore(env) && round < setup.maxRounds ==> replanned)
            && (NeverWantsMore(env) || round >= setup.maxRounds ==> !replanned)
  {
    hide Standing, MayStart, Pipeline, Replan, GuardsOpen, Idle, Smooth, AtRest;
    SmoothIsQuiet(env);
    SmoothMayStart(w, false, env);
    var may := MayStart(w, false, env);
    StandsOn(w, p, may.w);
    FreeStays(w, p, may.w);
    var q := SmoothPass(may.w, p, env);
    var pass := Pipeline(may.w, env, {});
    RestMayReplan(pass.w, q);
    SmoothReplan(pass.w, q, round < setup.maxRounds, env);
  }

  lemma FreeStays(w: World, p: Place, v: World)
    requires Free(w, p) && v.c == w.c && v.disk == w.disk && v.lanes == w.lanes
    ensures Free(v, p)
  {}

  // The end of a smooth run that was sent back: the edge to its first stage is refused.
  lemma SmoothSentBack(setup: Setup, w: World, round: nat, env: Env)
    requires RunsSmoothly(env) && InTime(env) && Standing(w, SentBack) && !w.flag && round <= setup.maxRounds
    ensures Rounds(setup, w, round, env) == After(w.(clock := w.clock + 3), Raised(NO_SECOND_ROUND))
  {
    hide Standing, Round;
    assert Smooth(env(w.clock)) && Smooth(env(w.clock + 1)) && Smooth(env(w.clock + 2))
           && !env(w.clock + 1).wallExceeded;
    RoundSentBack(setup, w, round, env);
    assert Rounds(setup, w, round, env) == Round(setup, w, round, env).0;
  }

  lemma SmoothVerdict(setup: Setup, w: World, q: Place, env: Env)
    requires RunsSmoothly(env) && Standing(w, q) && AtRest(w, q) && !w.flag
    ensures var after := Terminate(setup, w, None, env);
            && after.status == Done && Over(after.w) && !after.w.flag
            && after.w.c.row.state == VerdictOf(setup, after.w, None)
  {
    hide Standing, AtRest, Terminate, Forward, T.TerminalFor;
    SmoothIsQuiet(env);
    RestMayReplan(w, q);
    VerdictTargets(FactsOf(setup, w), None);
    assert Smooth(env(w.clock)) && Smooth(env(w.clock + 1)) && Smooth(env(w.clock + 2)) && Smooth(env(w.clock + 3));
    TerminateExactly(setup, w, None, env);
    TerminateFlag(setup, w, None, env);
    SameFacts(setup, w, Terminate(setup, w, None, env).w);
    VerdictsAreTerminal(VerdictOf(setup, w, None));
  }

  // All that was left of the pass was handled, in order, or, without the retrieval lane, all but the matching stages.
  predicate HandledTheRest(w: World, k: nat, v: World) {
    && w.ran <= v.ran
    && ((k <= |Plan(v)| && Since(w, v) == Plan(v)[k..])
        || (T.Routing in v.lanes && k <= 7 && Since(w, v) == Sequence(false)[k..]))
  }

  lemma LeadsToTheEnd(w: World, k: nat, v: World, q: Place)
    requires Leads(w, k, v, q) && WholePass(v, k, |Since(w, v)|)
    ensures HandledTheRest(w, k, v)
  {
    hide Standing, IsPlan;
    var handled := Since(w, v);
    PlanLengths(HasCandidates(v));
    WholeIsAll(handled, v, k);
  }

  lemma PlanLengths(has: bool)
    ensures |Sequence(has)| == if has then 12 else 7
    ensures forall i :: 0 <= i < 6 ==> Sequence(has)[i] == Sequence(false)[i]
  {}

  lemma WholeIsAll(handled: seq<CampaignState>, v: World, k: nat)
    requires Followed(handled, v, k) && WholePass(v, k, |handled|)
    ensures || (k <= |Plan(v)| && handled == Plan(v)[k..])
            || (T.Routing in v.lanes && k <= 7 && handled == Sequence(false)[k..])
  {
    PlanLengths(HasCandidates(v));
    PlanLengths(false);
  }

  // The loop of a smooth run: a verdict, or the edge a replanned campaign is refused.
  lemma SmoothRounds(setup: Setup, w: World, p: Place, env: Env)
    requires RunsSmoothly(env) && InTime(env) && Standing(w, p) && (p.Stage? || p == Skipped) && Free(w, p)
    requires !w.flag && GuardsOpen(w.disk) && w.round <= setup.maxRounds
    ensures var after := Rounds(setup, w, w.round, env);
            && !after.w.flag && (T.Routing in after.w.lanes <==> T.Routing in w.lanes)
            && (if after.status == Done then Over(after.w) && after.w.c.row.state == VerdictOf(setup, after.w, None)
                else after.status == Raised(NO_SECOND_ROUND) && !Over(after.w) && after.w.c.row.state == Discovering)
            && (AlwaysWantsMore(env) && w.round < setup.maxRounds ==> after.status != Done)
            && (NeverWantsMore(env) || w.round == setup.maxRounds ==> after.status == Done)
  {
    hide Standing, Round, Terminate, GuardsOpen, VerdictOf, Leads, LaneMistake, AtRest, WholePass, Idle, Smooth,
         Explained;
    SmoothRound(setup, w, p, w.round, env);
    RoundSteady(setup, w, w.round, env);
    var q := RoundResumes(setup, w, p, w.round, env);
    var (end, replanned) := Round(setup, w, w.round, env);
    LeadsStands(w, Start(p), end.w, q);
    EndedStands(end.w);
    if replanned {
      SmoothSentBack(setup, end.w, w.round + 1, env);
      SentBackDiscovers(end.w);
    } else {
      var rest := RestOfRound(setup, w, p, w.round, env);
      TerminateKeepsLanes(setup, end.w, env);
      SmoothVerdict(setup, end.w, rest, env);
    }
  }

  lemma TerminateKeepsLanes(setup: Setup, w: World, env: Env)
    requires !Over(w)
    ensures Terminate(setup, w, None, env).w.lanes == w.lanes
  {
    hide Terminate, T.TerminalFor, Forward;
    TerminateExactly(setup, w, None, env);
  }

  lemma SentBackDiscovers(w: World)
    requires Standing(w, SentBack)
    ensures w.c.row.state == Discovering
  {}

  // A smooth round that is not followed by another leaves the campaign at rest.
  lemma RestOfRound(setup: Setup, w: World, p: Place, round: nat, env: Env) returns (q: Place)
    requires RunsSmoothly(env) && InTime(env) && Standing(w, p) && (p.Stage? || p == Skipped) && Free(w, p)
    requires !w.flag && GuardsOpen(w.disk) && !Round(setup, w, round, env).1
    ensures Standing(Round(setup, w, round, env).0.w, q) && AtRest(Round(setup, w, round, env).0.w, q)
  {
    hide Standing, MayStart, Pipeline, Replan, GuardsOpen, Idle, Smooth, AtRest;
    SmoothIsQuiet(env);
    SmoothMayStart(w, false, env);
    var may := MayStart(w, false, env);
    StandsOn(w, p, may.w);
    FreeStays(w, p, may.w);
    q := SmoothPass(may.w, p, env);
    var pass := Pipeline(may.w, env, {});
    RestMayReplan(pass.w, q);
    SmoothReplan(pass.w, q, round < setup.maxRounds, env);
    var r := ReplanExactly(pass.w, q, round < setup.maxRounds, env);
    EndedStands(Replan(pass.w, round < setup.maxRounds, env).0.w);
    RestStays(pass.w, q, Replan(pass.w, round < setup.maxRounds, env).0.w);
  }

  lemma SmoothBody(setup: Setup, w: World, p: Place, env: Env)
    requires RunsSmoothly(env) && InTime(env) && Standing(w, p) && Walkable(p) && !w.flag && !Over(w)
    requires !p.InReference? ==> GuardsOpen(w.disk)
    requires Free(w.(lanes := w.lanes + setup.blockedAtOpen), p) && w.round <= setup.maxRounds
    ensures var body := Body(setup, w, env);
            && !body.w.flag
            && (if body.status == Done then Over(body.w) && body.w.c.row.state == VerdictOf(setup, body.w, None)
                else body.status == Raised(NO_SECOND_ROUND) && !Over(body.w) && body.w.c.row.state == Discovering)
            && (AlwaysWantsMore(env) && w.round < setup.maxRounds ==> body.status != Done)
            && (NeverWantsMore(env) || w.round == setup.maxRounds ==> body.status == Done)
  {
    hide Standing, EnsureReference, Rounds, GuardsOpen, VerdictOf, Idle, Free;
    var begun := w.(lanes := w.lanes + setup.blockedAtOpen);
    StandsOn(w, p, begun);
    SmoothReference(begun, p, env);
    SmoothRounds(setup, EnsureReference(begun, env).w, WalkFrom(p), env);
  }

  /** A run that nothing disturbs does its work: from any place from which it is free to go on every stage still
      to be done is handled, once and in order, and the campaign ends, with the verdict its facts earned if it was
      not replanned, and FAILED if it was. */
  lemma SmoothRun(setup: Setup, w: World, p: Place, env: Env)
    requires RunsSmoothly(env) && InTime(env) && Standing(w, p) && Walkable(p) && !w.flag && !Over(w)
    requires !p.InReference? ==> GuardsOpen(w.disk)
    requires Free(w.(lanes := w.lanes + setup.blockedAtOpen), p) && w.round <= setup.maxRounds
    ensures var e := Run(setup, w, env);
            && e.outcome == Finished && Over(e.w) && !e.w.flag && HandledTheRest(w, Start(p), e.w)
            && (if e.cause == Done then e.w.c.row.state == VerdictOf(setup, e.w, None)
                else e.cause == Raised(NO_SECOND_ROUND) && e.w.c.row.state == Failed)
            && (AlwaysWantsMore(env) && w.round < setup.maxRounds ==> e.cause != Done)
            && (NeverWantsMore(env) || w.round == setup.maxRounds ==> e.cause == Done)
  {
    hide Body, Stop, VerdictOf, Standing, GuardsOpen, Leads, LaneMistake, WholePass, Free, HandledTheRest;
    SmoothBody(setup, w, p, env);
    SmoothIsQuiet(env);
    var body := Body(setup, w, env);
    var q := SmoothLeads(setup, w, p, env);
    LeadsToTheEnd(w, Start(p), body.w, q);
    if body.status != Done {
      assert Smooth(env(body.w.clock)) && Smooth(env(body.w.clock + 1)) && Smooth(env(body.w.clock + 2));
      StopExactly(setup, body.w, NO_SECOND_ROUND, env);
      StopKeepsSteps(setup, body.w, NO_SECOND_ROUND, env);
      StopFlag(setup, body.w, NO_SECOND_ROUND, env);
      SameRest(w, Start(p), body.w, Stop(setup, body.w, NO_SECOND_ROUND, env).w);
    }
  }

  lemma SameRest(w: World, k: nat, v: World, u: World)
    requires HandledTheRest(w, k, v) && u.ran == v.ran && HasCandidates(u) == HasCandidates(v) && u.lanes == v.lanes
    ensures HandledTheRest(w, k, u)
  {}

  // What a smooth run has handled when its body comes back.
  lemma SmoothLeads(setup: Setup, w: World, p: Place, env: Env) returns (q: Place)
    requires RunsSmoothly(env) && InTime(env) && Standing(w, p) && Walkable(p) && !w.flag && !Over(w)
    requires !p.InReference? ==> GuardsOpen(w.disk)
    requires Free(w.(lanes := w.lanes + setup.blockedAtOpen), p) && w.round <= setup.maxRounds
    ensures var body := Body(setup, w, env);
            Leads(w, Start(p), body.w, q) && WholePass(body.w, Start(p), |Since(w, body.w)|)
  {
    hide Standing, EnsureReference, Round, Rounds, Terminate, GuardsOpen, Idle, Free, Leads, LaneMistake, WholePass,
         AtRest, Smooth, Explained, CameToItsEnd, VerdictOf;
    var begun := w.(lanes := w.lanes + setup.blockedAtOpen);
    StandsOn(w, p, begun);
    SmoothReference(begun, p, env);
    var v, r := EnsureReference(begun, env).w, WalkFrom(p);
    SmoothRound(setup, v, r, w.round, env);
    RoundSteady(setup, v, w.round, env);
    q := RoundResumes(setup, v, r, w.round, env);
    var (end, replanned) := Round(setup, v, w.round, env);
    LeadsStands(v, Start(r), end.w, q);
    EndedStands(end.w);
    if replanned {
      RoundsSentBack(setup, end.w, w.round + 1, env);
      var after := Rounds(setup, end.w, w.round + 1, env);
      UnfoldReplanned(setup, v, w.round, env);
      q := LeadsOn(v, Start(r), end.w, SentBack, after.w);
      SentBackIsWhole(v, Start(r), end.w, after);
      WholeFromReference(w, p, v, r, after.w, q);
    } else {
      var rest := RestOfRound(setup, v, r, w.round, env);
      RestIsWhole(v, Start(r), end.w, q, rest);
      q := VerdictLeads(setup, v, r, end.w, q, env);
      UnfoldVerdict(setup, v, w.round, env);
      var after := Terminate(setup, end.w, None, env);
      SameSinceVerdict(v, Start(r), end.w, after.w);
      WholeFromReference(w, p, v, r, after.w, q);
    }
  }

  lemma UnfoldReplanned(setup: Setup, w: World, round: nat, env: Env)
    requires round <= setup.maxRounds && Round(setup, w, round, env).1
    requires Round(setup, w, round, env).0.status == Done && !Over(Round(setup, w, round, env).0.w)
    ensures Rounds(setup, w, round, env) == Rounds(setup, Round(setup, w, round, env).0.w, round + 1, env)
  {
    hide Round;
  }

  lemma UnfoldVerdict(setup: Setup, w: World, round: nat, env: Env)
    requires round <= setup.maxRounds && !Round(setup, w, round, env).1
    requires Round(setup, w, round, env).0.status == Done && !Over(Round(setup, w, round, env).0.w)
    ensures Rounds(setup, w, round, env) == Terminate(setup, Round(setup, w, round, env).0.w, None, env)
  {
    hide Round, Terminate;
  }

  lemma RestIsWhole(w: World, k: nat, v: World, q: Place, rest: Place)
    requires Leads(w, k, v, q) && CameToItsEnd(w, k, v, q) && Standing(v, rest) && AtRest(v, rest)
    ensures WholePass(v, k, |Since(w, v)|)
  {
    if q.Stage? && Idle(v, q.k) {
      RestIsNotIdle(v, rest, q.k);
    }
  }

  lemma RestIsNotIdle(w: World, q: Place, k: nat)
    requires Standing(w, q) && AtRest(w, q)
    ensures !Idle(w, k)
  {
    SequenceIsPlan(HasCandidates(w));
    assert GapAnalysis !in MATCH_STAGES && Replanning !in MATCH_STAGES;
  }

  lemma SameSinceVerdict(w: World, k: nat, v: World, u: World)
    requires w.ran <= v.ran && u.ran == v.ran && HasCandidates(u) == HasCandidates(v) && u.lanes == v.lanes
    requires WholePass(v, k, |Since(w, v)|)
    ensures WholePass(u, k, |Since(w, u)|)
  {}

  lemma WholeFromReference(w: World, p: Place, v: World, r: Place, u: World, q: Place)
    requires v.ran == w.ran && r == WalkFrom(p) && Leads(v, Start(r), u, q) && WholePass(u, Start(r), |Since(v, u)|)
    ensures Leads(w, Start(p), u, q) && WholePass(u, Start(p), |Since(w, u)|)
  {
    hide Standing;
  }
}
