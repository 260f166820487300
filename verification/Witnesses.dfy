/** The ends nobody intended, each reached from a new campaign: a replan that cannot be walked, a budget stop that
    gets out of run, a process killed in the reference wave, and a retrieval lane that goes and comes back. */
module Witnesses {
  import opened Wrappers
  import opened Transitions
  import opened EventLog
  import opened Controller
  import opened Walk
  import opened Process
  import opened Resume
  import opened Runs
  import opened Restarts
  import opened Progress
  import T = Terminal

  // The first process of a campaign that was just created.
  function NewWorld(): (w: World) {
    World(Create(), NOTHING_STORED, [], 1, false, 0, {}, [])
  }

  lemma NewCampaignStands()
    ensures Standing(NewWorld(), InReference(0)) && !Over(NewWorld())
    ensures InWave(NewWorld().c.row.state, NewWorld().c.steps, 0)
  {
    assert SPINE[0] == Created;
  }

  // Every handler finds a query and a candidate, and every pass learns something.
  const EAGER := Signal(
    cancel := false, cancelAt := AfterEvent, flagOnly := false, crash := false, crashAt := AfterEvent, reach := Whole,
    torn := false, wallExceeded := false, fault := None, said := [],
    disk := NOTHING_STORED.(queries := ["q"], candidates := 1), lanes := {}, fellBack := false, stop := false,
    learned := true, query := "q", reason := "")

  lemma EagerIsSmooth()
    ensures Smooth(EAGER) && WantsMore(EAGER) && !EAGER.wallExceeded
  {}

  /** A replan does complete: with a second round allowed, a campaign that nothing disturbs and that always
      learns something walks its whole first pass, is sent back, and ends FAILED. */
  lemma ReplanSendsANewCampaignToFailed(setup: Setup) returns (env: Env)
    requires setup.maxRounds > 1
    ensures RunsSmoothly(env) && AlwaysWantsMore(env)
    ensures var e := Run(setup, NewWorld(), env);
            && e.outcome == Finished && e.w.c.row.state == Failed && e.cause == Raised(NO_SECOND_ROUND)
            && HandledTheRest(NewWorld(), 0, e.w)
  {
    hide Run, Standing, HandledTheRest;
    env := (t: nat) => EAGER;
    EagerIsSmooth();
    forall t: nat ensures Smooth(env(t)) && WantsMore(env(t)) && !env(t).wallExceeded {}
    assert InTime(env) && RunsSmoothly(env);
    NewCampaignStands();
    SmoothRun(setup, NewWorld(), InReference(0), env);
  }

  // ---------------------------------------------------------------- a run that starts too late

  ghost predicate OutOfTime(env: Env) {
    forall t :: env(t).wallExceeded
  }

  // Where the wall clock is first looked at: the wave does not look.
  function Reached(w: World, p: Place): (state: CampaignState) {
    if p.InReference? then PlanningQueries else w.c.row.state
  }

  // A stage is left to be handled.
  predicate MoreToDo(w: World, p: Place) {
    Walkable(p) && (p.Stage? ==> p.k < |Plan(w)|)
  }

  lemma LateBody(setup: Setup, w: World, p: Place, env: Env)
    requires RunsSmoothly(env) && OutOfTime(env) && Standing(w, p) && MoreToDo(w, p) && !w.flag && !Over(w)
    requires (!p.InReference? ==> GuardsOpen(w.disk)) && w.round <= setup.maxRounds
    ensures var body := Body(setup, w, env);
            && body.status == Raised(BudgetExceeded) && body.w.c.row.state == Reached(w, p) && !Over(body.w)
            && !body.w.flag && body.w.ran == w.ran
  {
    hide Standing, Sequence, EnsureReference, GuardsOpen, MayStart, NextStage, Smooth, Explained;
    var begun := w.(lanes := w.lanes + setup.blockedAtOpen);
    StandsOn(w, p, begun);
    LateReference(begun, p, env);
    var pass := EnsureReference(begun, env).w;
    SmoothIsQuiet(env);
    SmoothMayStart(pass, false, env);
    var may := pass.(clock := pass.clock + 1);
    SmoothMayStart(may, true, env);
    StandsOn(pass, WalkFrom(p), may);
    StageIsNext(may, WalkFrom(p));
    assert Pipeline(may, env, {}) == MayStart(may, true, env);
  }

  lemma LateReference(w: World, p: Place, env: Env)
    requires RunsSmoothly(env) && Standing(w, p) && Walkable(p) && !w.flag && !Over(w)
    requires !p.InReference? ==> GuardsOpen(w.disk)
    ensures var after := EnsureReference(w, env);
            && after.status == Done && !after.w.flag && Standing(after.w, WalkFrom(p)) && !Over(after.w)
            && after.w.ran == w.ran && after.w.round == w.round
            && (if p.InReference? then after.w.c.row.state == PlanningQueries else after.w == w)
  {
    hide Standing, GuardsOpen, EnsureReference, Wave, Smooth, Explained;
    if p.InReference? {
      SmoothReference(w, p, env);
    } else {
      var q := EnsureReferenceResumes(w, p, env);
    }
  }

  lemma StageIsNext(w: World, p: Place)
    requires Standing(w, p) && (p == Skipped || (p.Stage? && (p.k == 0 || p.k < |Plan(w)|)))
    ensures NextStage(w).Some? && !Over(w)
  {
    if p.Stage? {
      SequenceIsPlan(HasCandidates(w));
      NextStageAt(w, p.k);
    } else {
      FineMatchingIsNext(w);
    }
  }

  /** A run that starts with its time spent, exactly: after discovery the campaign ends PARTIAL, before it
      the refused transition gets out of run and the campaign is left where it was. */
  lemma LateRun(setup: Setup, w: World, p: Place, env: Env)
    requires RunsSmoothly(env) && OutOfTime(env) && Standing(w, p) && MoreToDo(w, p) && !w.flag && !Over(w)
    requires (!p.InReference? ==> GuardsOpen(w.disk)) && w.round <= setup.maxRounds
    ensures var e := Run(setup, w, env);
            && e.cause == Raised(BudgetExceeded) && e.w.ran == w.ran
            && (if AfterDiscovery(Reached(w, p)) then e.outcome == Finished && e.w.c.row.state == Partial
                else e.outcome == Escaped(Exn.Refused(IllegalTransition(Reached(w, p), Partial)))
                     && e.w.c.row.state == Reached(w, p))
  {
    hide Body, Stop, Standing, AfterDiscovery, Reached;
    LateBody(setup, w, p, env);
    LateStop(setup, Body(setup, w, env).w, env);
  }

  lemma LateStop(setup: Setup, w: World, env: Env)
    requires RunsSmoothly(env) && !w.flag && !Over(w)
    ensures var after := Stop(setup, w, BudgetExceeded, env);
            && after.w.ran == w.ran
            && (if AfterDiscovery(w.c.row.state) then after.status == Done && after.w.c.row.state == Partial
                else after.status == EdgeRefused(w, Partial) && after.w.c == w.c)
  {
    hide Terminate, T.TerminalFor, Forward, AfterDiscovery;
    assert Smooth(env(w.clock)) && Smooth(env(w.clock + 1)) && Smooth(env(w.clock + 2)) && Smooth(env(w.clock + 3));
    TerminateExactly(setup, w, Some(Partial), env);
    ForcedVerdict(FactsOf(setup, w), w.c.row.state);
    PartialListedIffDiscovered(w.c.row.state);
  }

  /** So does a new campaign whose time is spent: the exception escapes. */
  lemma BudgetStopEscapesANewCampaign(setup: Setup) returns (env: Env)
    requires setup.maxRounds > 0
    ensures OutOfTime(env)
    ensures Run(setup, NewWorld(), env).outcome == Escaped(Exn.Refused(IllegalTransition(PlanningQueries, Partial)))
  {
    hide Run, Standing;
    env := (t: nat) => EAGER.(wallExceeded := true);
    forall t: nat ensures Smooth(env(t)) && env(t).wallExceeded {}
    NewCampaignStands();
    LateRun(setup, NewWorld(), InReference(0), env);
  }

  // ---------------------------------------------------------------- killed in the reference wave

  // Everything goes well until a beat in which something else happens.
  function Until(n: nat, last: Signal): (env: Env) {
    (t: nat) => if t == n then last else EAGER
  }

  lemma UntilIsSmooth(w: World, beats: nat, n: nat, last: Signal)
    requires w.clock + beats <= n
    ensures SmoothFor(w, beats, Until(n, last)) && Until(n, last)(n) == last
    ensures forall t: nat :: !last.wallExceeded ==> !Until(n, last)(t).wallExceeded
  {
    EagerIsSmooth();
  }

  // The process dies after the row of a transition is written and before its event is.
  const KILLED := EAGER.(crash := true, crashAt := BeforeEvent)

  lemma KilledBeforeTheEvent(w: World, target: CampaignState, ctx: TransitionContext, env: Env)
    requires TransitionCheck(w.c.row.state, false, target, ctx) == Pass && !w.flag && env(w.clock) == KILLED
    ensures Entered(w, target, ctx, env)
            == After(w.(clock := w.clock + 1, c := Committed(w.c, target, ctx, Never)), Crashed)
  {
    hide TransitionCheck, Controller.Written;
  }

  /** A process that is killed in the second step of the wave leaves the campaign where no process can go on. */
  lemma KilledInTheWave(setup: Setup) returns (env: Env)
    ensures var e := Run(setup, NewWorld(), env);
            && e.outcome == Died && Standing(e.w, InReference(2)) && !e.w.flag && e.w.c.row.version == 2
            && |e.w.c.commits| == 3 && e.w.c.commits[2] == Commit(IngestingReferences, Never)
  {
    hide InWave, WaveStep, ContextFromDisk, TransitionCheck, Forward, GuardsOpen, Smooth;
    env := Until(4, KILLED);
    NewCampaignStands();
    var w := NewWorld().(lanes := setup.blockedAtOpen);
    assert w == NewWorld().(lanes := NewWorld().lanes + setup.blockedAtOpen);
    UntilIsSmooth(w, 4, 4, KILLED);
    FirstStepOfTheWave(w, env);
    var first := WaveStep(w, 1, env).w;
    var ctx := ContextFromDisk(first.c.row, first.disk);
    SecondEdge(ctx);
    KilledBeforeTheEvent(first, IngestingReferences, ctx, env);
    KilledStep(first, ctx, env);
    var killed := WaveStep(first, 2, env);
    IngestingStands(first, killed.w);
    assert Wave(w, 1, env) == Wave(first, 2, env) == killed;
    assert Body(setup, NewWorld(), env) == killed;
  }

  lemma FirstStepOfTheWave(w: World, env: Env)
    requires w.c == Create() && w.clock == 0 && !w.flag && SmoothFor(w, 4, env)
    ensures var after := WaveStep(w, 1, env);
            && after.status == Done && !after.w.flag && after.w.clock == 4 && !Over(after.w)
            && InWave(after.w.c.row.state, after.w.c.steps, 1) && after.w.c.row.version == 1 && |after.w.c.commits| == 2
            && PlanningQueries !in after.w.c.steps && after.w.c.row.state == ValidatingInput
  {
    hide HandleAndFinish, ContextFromDisk, TransitionCheck, GuardsOpen, Smooth, Entered, Mark;
    assert SPINE[0] == Created && SPINE[1] == ValidatingInput;
    var ctx := ContextFromDisk(w.c.row, w.disk);
    SmoothWaveStep(w, 1, 0, env);
    WaveOpens(Created, 1, ctx);
    SmoothEntered(w, ValidatingInput, ctx, env);
    EnteringWrites(w, ValidatingInput, ctx, env);
    SmoothHandling(Entered(w, ValidatingInput, ctx, env).w, ValidatingInput, env);
  }

  lemma SecondEdge(ctx: TransitionContext)
    ensures TransitionCheck(ValidatingInput, false, IngestingReferences, ctx) == Pass && SPINE[2] == IngestingReferences
  {}

  lemma KilledStep(w: World, ctx: TransitionContext, env: Env)
    requires w.c.row.state == ValidatingInput && ctx == ContextFromDisk(w.c.row, w.disk)
    requires Entered(w, IngestingReferences, ctx, env).status == Crashed
    ensures WaveStep(w, 2, env) == Entered(w, IngestingReferences, ctx, env)
  {
    hide Entered, HandleAndFinish, ContextFromDisk;
    assert SPINE[2] == IngestingReferences;
  }

  lemma IngestingStands(w: World, v: World)
    requires InWave(w.c.row.state, w.c.steps, 1) && v.c.row.state == IngestingReferences && v.c.steps == w.c.steps
    requires PlanningQueries !in w.c.steps
    ensures Standing(v, InReference(2)) && !Over(v)
  {
    assert SPINE[2] == IngestingReferences;
  }

  // ---------------------------------------------------------------- the retrieval lane goes and comes back

  // The stages up to BROAD_RETRIEVAL, in a pass that nothing disturbs so far.
  lemma {:induction false} EarlyWalk(w: World, k: nat, env: Env, seen: set<CampaignState>)
    returns (v: World, later: set<CampaignState>)
    requires AtStage(w, k) && k <= 6 && !w.flag && GuardsOpen(w.disk) && InTime(env) && SmoothFor(w, 5 * (6 - k), env)
    requires forall t: nat :: env(t).disk.candidates > 0
    requires w.c.row.state == (if k == 0 then PlanningQueries else EARLY[k - 1]) && (k == 6 ==> HasCandidates(w))
    requires forall s :: s in seen ==> s in w.c.steps
    ensures Pipeline(w, env, seen) == Pipeline(v, env, later)
    ensures AtStage(v, 6) && v.c.row.state == BroadRetrieval && HasCandidates(v) && !v.flag && GuardsOpen(v.disk)
    ensures v.clock == w.clock + 5 * (6 - k) && (T.Routing in v.lanes <==> T.Routing in w.lanes)
    ensures forall s :: s in later ==> s in v.c.steps
    decreases 6 - k
  {
    hide At, Sequence, MayStart, RunStage, SkipMatching, Explained, GuardsOpen, Smooth, CandidatesAfter, Pipeline,
         Remaining, IsEarly;
    if k == 6 {
      v, later := w, seen;
    } else {
      NextStageAt(w, k);
      EarlyStages(w, k);
      LateIsNotEarly(w, k);
      var stage := Plan(w)[k];
      SmoothMayStart(w, true, env);
      var may := MayStart(w, true, env);
      SmoothStage(may.w, k, env);
      StageSteadyAt(may.w, k, env);
      SeenPipeline(w, env, seen, stage);
      v, later := EarlyWalk(RunStage(may.w, stage, env).w, k + 1, env, seen + {stage});
    }
  }

  lemma EarlyStages(w: World, k: nat)
    requires k < 6
    ensures k < |Plan(w)| && Plan(w)[k] == EARLY[k] && EARLY[k] !in MATCH_STAGES
    ensures k > 0 ==> EARLY[k] != EARLY[k - 1]
    ensures EARLY[k] != PlanningQueries
  {
    SequenceIsPlan(HasCandidates(w));
  }

  lemma KilledAtTheSkip(w: World, env: Env)
    requires AtStage(w, 6) && w.c.row.state == BroadRetrieval && HasCandidates(w) && !w.flag
    requires SmoothFor(w, 3, env) && env(w.clock + 3).crash && !env(w.clock + 3).cancel
    ensures var after := SkipMatching(w, BroadRetrieval, env);
            after.status == Crashed && Standing(after.w, Skipped) && !after.w.flag
  {
    hide At, Sequence, Forward, Entered, Handle, FinishStage, ContextFromDisk, Mark, GuardsOpen, Smooth, IsTerminal,
         Standing, Explained, CandidatesAfter;
    GapAnalysisFollows();
    GapAnalysisIsOpen(ContextFromDisk(w.c.row, w.disk));
    SmoothEntered(w, GapAnalysis, ContextFromDisk(w.c.row, w.disk), env);
    NextStageAt(w, 6);
    var begun := EnterStage(w, GapAnalysis, env).w;
    begun := begun.(ran := begun.ran + [GapAnalysis]);
    SmoothHandle(begun, GapAnalysis, env);
    var handled := Handle(begun, GapAnalysis, env);
    FinishExactly(handled.w, GapAnalysis, env);
    var q := SkipResumes(w, env);
    FinishKeeps(handled.w, GapAnalysis, env);
  }

  /** A process without the retrieval lane that is killed before its verdict leaves the campaign past the matching
      stages. */
  lemma KilledPastTheMatching(setup: Setup) returns (env: Env)
    requires setup.maxRounds > 0 && T.Routing in setup.blockedAtOpen
    ensures var e := Run(setup, NewWorld(), env);
            e.outcome == Died && Standing(e.w, Skipped) && !e.w.flag && e.w.round == 1
  {
    hide InWave, Wave, Pipeline, At, Sequence, GuardsOpen, Smooth, Standing, Explained, MayStart;
    env := Until(59, EAGER.(crash := true));
    NewCampaignStands();
    var w := NewWorld().(lanes := setup.blockedAtOpen);
    assert w == NewWorld().(lanes := NewWorld().lanes + setup.blockedAtOpen);
    UntilIsSmooth(w, 24, 59, EAGER.(crash := true));
    SmoothWave(w, 1, 0, env);
    WaveSteady(w, 1, env);
    var walk := Wave(w, 1, env).w;
    NextStageAt(walk, 0);
    UntilIsSmooth(walk, 35, 59, EAGER.(crash := true));
    SmoothMayStart(walk, false, env);
    var begun := MayStart(walk, false, env).w;
    KilledPass(begun, env);
    PipelineSteady(begun, env, {});
    assert Round(setup, walk, 1, env).0 == Pipeline(begun, env, {});
    assert Body(setup, NewWorld(), env) == Pipeline(begun, env, {});
  }

  lemma KilledPass(w: World, env: Env)
    requires AtStage(w, 0) && w.c.row.state == PlanningQueries && w.clock == 25 && !w.flag && GuardsOpen(w.disk)
    requires T.Routing in w.lanes && env == Until(59, EAGER.(crash := true))
    ensures var after := Pipeline(w, env, {}); after.status == Crashed && Standing(after.w, Skipped) && !after.w.flag
  {
    hide At, Sequence, GuardsOpen, Smooth, Standing, MayStart, SkipMatching, RunStage, Explained;
    UntilIsSmooth(w, 30, 59, EAGER.(crash := true));
    var v, later := EarlyWalk(w, 0, env, {});
    NextStageAt(v, 6);
    PlanLengths(true);
    LateIsNotEarly(v, 6);
    UntilIsSmooth(v, 4, 59, EAGER.(crash := true));
    SmoothMayStart(v, true, env);
    var may := MayStart(v, true, env);
    UntilIsSmooth(may.w, 3, 59, EAGER.(crash := true));
    KilledAtTheSkip(may.w, env);
  }
}
