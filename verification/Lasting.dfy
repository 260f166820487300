/** What lasts through a run, and through any number of processes: the lanes found blocked, the request to cancel, and,
    once a discovery fell back, that its fallback is not a search that was carried out. */
module Lasting {
  import opened Wrappers
  import opened Transitions
  import opened EventLog
  import opened Controller
  import opened Walk
  import opened Process
  import opened Resume
  import opened Runs
  import opened Restarts
  import opened Witnesses
  import opened Lifetimes
  import opened Untold
  import T = Terminal

  predicate Hollow(w: World) {
    T.IsHollow(w.disk.coverage)
  }

  // Every discovery finds its lane blocked and falls back.
  ghost predicate FallsBack(env: Env) {
    forall t :: env(t).fellBack && T.Discovery in env(t).lanes
  }

  // A handler runs out of budget.
  ghost predicate RunsOut(env: Env) {
    exists t :: env(t).fault == Some(OutOfBudget)
  }

  // What any call does: it forgets no blocked lane, hollow coverage stays hollow unless DISCOVERING was handled and
  // did not fall back, and the wall clock stops only what nobody has asked to cancel.
  ghost predicate Onward(env: Env, w: World, after: After) {
    && w.ran <= after.w.ran && w.lanes <= after.w.lanes
    && (Hollow(w) && (FallsBack(env) || Discovering !in after.w.ran[|w.ran|..]) ==> Hollow(after.w))
    && (after.status == Raised(BudgetExceeded) && !RunsOut(env) ==> !after.w.flag)
  }

  lemma OnwardFrom(env: Env, w: World, a: After, b: After)
    requires Onward(env, w, a) && Onward(env, a.w, b)
    ensures Onward(env, w, b)
  {
    hide Hollow, FallsBack, RunsOut;
    assert b.w.ran[|w.ran|..] == a.w.ran[|w.ran|..] + b.w.ran[|a.w.ran|..];
  }

  lemma SameCoverage(env: Env, w: World, v: World, status: Status)
    requires v.ran == w.ran && v.disk.coverage == w.disk.coverage && w.lanes <= v.lanes
    requires status == Raised(BudgetExceeded) ==> !v.flag
    ensures Onward(env, w, After(v, status))
  {}

  // ---------------------------------------------------------------- handlers

  // No transition is stopped by the budget.
  lemma EnteringSpendsNothing(w: World, target: CampaignState, ctx: TransitionContext, env: Env)
    ensures Entered(w, target, ctx, env).status != Raised(BudgetExceeded)
    ensures EnterStage(w, target, env).status != Raised(BudgetExceeded)
    ensures OpenStage(w, target, env).status != Raised(BudgetExceeded)
  {
    hide Meanwhile, FromRead, ContextFromDisk, Emit;
    var read := Meanwhile(w.(clock := w.clock + 1), env(w.clock), BeforeRead);
    MeanwhileKeeps(w.(clock := w.clock + 1), env(w.clock), BeforeRead);
    WritingSpendsNothing(read.w, target, ctx, env(w.clock));
    WritingSpendsNothing(read.w, target, ContextFromDisk(w.c.row, w.disk), env(w.clock));
  }

  lemma WritingSpendsNothing(w: World, target: CampaignState, ctx: TransitionContext, sig: Signal)
    ensures FromRead(w, target, ctx, sig).status != Raised(BudgetExceeded)
  {
    hide TransitionCheck, Landed, Committed, Told;
  }

  /** A discovery that comes back from a blocked lane fallen back leaves hollow coverage, whatever was stored before. */
  lemma FallingBackIsHollow(w: World, env: Env)
    requires Handle(w, Discovering, env).status == Done
    requires env(w.clock).fellBack && T.Discovery in env(w.clock).lanes
    ensures Hollow(Handle(w, Discovering, env).w)
  {
    hide Beat, Said, Faulted;
    BeatKeeps(w, env);
    BeatKeeps(Handled(Beat(w, env).w, Discovering, env(w.clock)).w, env);
  }

  lemma HandleStaysHollow(w: World, stage: CampaignState, env: Env)
    requires Hollow(w) && (stage != Discovering || FallsBack(env))
    ensures Hollow(Handle(w, stage, env).w) && Handle(w, stage, env).w.ran == w.ran
  {
    hide Beat, Said, Faulted;
    BeatKeeps(w, env);
    BeatKeeps(Handled(Beat(w, env).w, stage, env(w.clock)).w, env);
    assert FallsBack(env) ==> env(w.clock).fellBack && T.Discovery in env(w.clock).lanes;
  }

  /** A lane that a handler finds blocked stays on record, and with it every lane blocked before. */
  lemma LanesAreKept(w: World, stage: CampaignState, env: Env)
    ensures var after := Handle(w, stage, env);
            && w.lanes <= after.w.lanes && (after.status == Done ==> env(w.clock).lanes - {T.Routing} <= after.w.lanes)
            && (after.status == Raised(BudgetExceeded) ==> RunsOut(env))
  {
    hide Beat, Said, CoverageAfter, CandidatesAfter;
    BeatKeeps(w, env);
    BeatKeeps(Handled(Beat(w, env).w, stage, env(w.clock)).w, env);
  }

  lemma HandlingStaysHollow(w: World, stage: CampaignState, env: Env)
    ensures var after := HandleAndFinish(w, stage, env);
            && after.w.ran == w.ran && w.lanes <= after.w.lanes
            && (after.status == Raised(BudgetExceeded) ==> RunsOut(env))
    ensures Hollow(w) && (stage != Discovering || FallsBack(env)) ==> Hollow(HandleAndFinish(w, stage, env).w)
  {
    hide Handle, FinishStage, Explained, FallsBack;
    HandleKeeps(w, stage, env);
    LanesAreKept(w, stage, env);
    FinishKeeps(Handle(w, stage, env).w, stage, env);
    if Hollow(w) && (stage != Discovering || FallsBack(env)) {
      HandleStaysHollow(w, stage, env);
    }
  }

  // After an opening, or after entering alone, the handler, on record.
  lemma HandledOnward(env: Env, w: World, open: After, stage: CampaignState)
    requires open.w.ran == w.ran && open.w.disk.coverage == w.disk.coverage && open.w.lanes == w.lanes
    ensures Onward(env, w, HandleAndFinish(open.w.(ran := open.w.ran + [stage]), stage, env))
  {
    hide HandleAndFinish, FallsBack, RunsOut;
    var begun := open.w.(ran := open.w.ran + [stage]);
    HandlingStaysHollow(begun, stage, env);
    assert HandleAndFinish(begun, stage, env).w.ran[|w.ran|..] == [stage];
  }

  // ---------------------------------------------------------------- a pass

  lemma StageOnward(w: World, stage: CampaignState, env: Env)
    requires !IsTerminal(stage)
    ensures Onward(env, w, RunStage(w, stage, env))
  {
    hide OpenStage, HandleAndFinish, Explained, Onward;
    OpenKeeps(w, stage, env);
    EnteringSpendsNothing(w, stage, ContextFromDisk(w.c.row, w.disk), env);
    var open := OpenStage(w, stage, env);
    SameCoverage(env, w, open.w, open.status);
    HandledOnward(env, w, open, stage);
  }

  lemma SkipOnward(w: World, state: CampaignState, env: Env)
    ensures Onward(env, w, SkipMatching(w, state, env))
  {
    hide EnterStage, HandleAndFinish, Explained, Onward;
    GapAnalysisFollows();
    SameCoverage(env, w, w, Done);
    EnterKeeps(w, GapAnalysis, env);
    EnteringSpendsNothing(w, GapAnalysis, ContextFromDisk(w.c.row, w.disk), env);
    var entered := EnterStage(w, GapAnalysis, env);
    SameCoverage(env, w, entered.w, entered.status);
    HandledOnward(env, w, entered, GapAnalysis);
  }

  lemma WallClockWaits(w: World, timed: bool, env: Env)
    ensures var may := MayStart(w, timed, env); may.status == Raised(BudgetExceeded) ==> !may.w.flag
  {
    hide Beat;
    BeatKeeps(w, env);
  }

  lemma {:induction false} PipelineOnward(w: World, env: Env, seen: set<CampaignState>)
    ensures Onward(env, w, Pipeline(w, env, seen))
    decreases STAGES - seen
  {
    hide NextStage, MayStart, RunStage, SkipMatching, Onward, Explained;
    SameCoverage(env, w, w, Done);
    var next := NextStage(w);
    NextIsActive(w);
    if !Over(w) && next.Some? && next.value !in seen {
      MayStartKeeps(w, true, env);
      WallClockWaits(w, true, env);
      var may := MayStart(w, true, env);
      SameCoverage(env, w, may.w, may.status);
      if may.status == Done {
        if Skips(w, next.value) {
          SkipOnward(may.w, w.c.row.state, env);
          OnwardFrom(env, w, may, SkipMatching(may.w, w.c.row.state, env));
        } else {
          StageOnward(may.w, next.value, env);
          var run := RunStage(may.w, next.value, env);
          OnwardFrom(env, w, may, run);
          if run.status == Done {
            PipelineOnward(run.w, env, seen + {next.value});
            OnwardFrom(env, w, run, Pipeline(run.w, env, seen + {next.value}));
          }
        }
      }
    }
  }

  // ---------------------------------------------------------------- the rest of a run

  lemma WaveStepOnward(w: World, n: nat, env: Env)
    requires 1 <= n <= 6
    ensures Onward(env, w, WaveStep(w, n, env))
  {
    hide Entered, HandleAndFinish, Explained, ContextFromDisk, FallsBack, Hollow;
    WaveHasNoDiscovery(n);
    EnteredKeeps(w, SPINE[n], env);
    EnteringSpendsNothing(w, SPINE[n], ContextFromDisk(w.c.row, w.disk), env);
    var entered := if w.c.row.state == SPINE[n] then After(w, Done)
                   else Entered(w, SPINE[n], ContextFromDisk(w.c.row, w.disk), env);
    HandlingStaysHollow(entered.w, SPINE[n], env);
    SameHollow(w, entered.w);
  }

  lemma WaveHasNoDiscovery(n: nat)
    requires 1 <= n <= 6
    ensures SPINE[n] != Discovering
  {}

  lemma SameHollow(w: World, v: World)
    requires v.disk.coverage == w.disk.coverage
    ensures Hollow(v) <==> Hollow(w)
  {}

  lemma {:induction false} WaveOnward(w: World, n: nat, env: Env)
    requires 1 <= n <= 7
    ensures Onward(env, w, Wave(w, n, env))
    decreases 7 - n
  {
    hide WaveStep, Onward;
    SameCoverage(env, w, w, Done);
    if n < 7 {
      WaveStepOnward(w, n, env);
      var step := WaveStep(w, n, env);
      if step.status == Done {
        WaveOnward(step.w, n + 1, env);
        OnwardFrom(env, w, step, Wave(step.w, n + 1, env));
      }
    }
  }

  lemma SendingBackSpendsNothing(w: World, query: string, env: Env)
    ensures SendBack(w, query, env).status != Raised(BudgetExceeded)
  {
    hide OpenStage, Beat, EnterStage, FinishStage, ContextFromDisk;
    var open := OpenStage(WithQuery(w, query), Replanning, env);
    EnteringSpendsNothing(WithQuery(w, query), Replanning, ContextFromDisk(w.c.row, w.disk), env);
    BeatKeeps(open.w, env);
    var cleared := Cleared(Beat(open.w, env).w);
    FinishKeeps(cleared, Replanning, env);
    EnteringSpendsNothing(FinishStage(cleared, Replanning, env).w, Discovering,
                          ContextFromDisk(w.c.row, w.disk), env);
  }

  lemma ReplanOnward(w: World, mayGoOn: bool, env: Env)
    ensures Onward(env, w, Replan(w, mayGoOn, env).0)
  {
    hide Beat, SendBack, Explained;
    BeatKeeps(w, env);
    SendBackSteady(Beat(w, env).w, env(w.clock).query, env);
    SendingBackSpendsNothing(Beat(w, env).w, env(w.clock).query, env);
  }

  lemma RoundStored(env: Env, w: World, end: After, round: nat)
    requires Onward(env, w, end)
    ensures Onward(env, w, end.(w := end.w.(round := round)))
  {}

  lemma RoundOnward(setup: Setup, w: World, round: nat, env: Env)
    ensures Onward(env, w, Round(setup, w, round, env).0)
  {
    hide MayStart, Pipeline, Replan, Onward, Explained;
    MayStartKeeps(w, false, env);
    WallClockWaits(w, false, env);
    var may := MayStart(w, false, env);
    SameCoverage(env, w, may.w, may.status);
    if may.status == Done {
      PipelineOnward(may.w, env, {});
      var pass := Pipeline(may.w, env, {});
      OnwardFrom(env, w, may, pass);
      ReplanOnward(pass.w, round < setup.maxRounds, env);
      var end := Replan(pass.w, round < setup.maxRounds, env).0;
      OnwardFrom(env, w, pass, end);
      RoundStored(env, w, end, round + 1);
    }
  }

  lemma TerminateOnward(setup: Setup, w: World, forced: Option<CampaignState>, env: Env)
    requires forced in {None, Some(Partial)}
    ensures Onward(env, w, Terminate(setup, w, forced, env))
  {
    hide Terminate, T.TerminalFor, Forward;
    if Over(w) {
      TerminatesNothing(setup, w, forced, env);
    } else {
      TerminateExactly(setup, w, forced, env);
    }
  }

  lemma TerminatesNothing(setup: Setup, w: World, forced: Option<CampaignState>, env: Env)
    requires Over(w)
    ensures Terminate(setup, w, forced, env) == After(w, Done)
  {}

  lemma {:induction false} RoundsOnward(setup: Setup, w: World, round: nat, env: Env)
    ensures Onward(env, w, Rounds(setup, w, round, env))
    decreases setup.maxRounds - round
  {
    hide Round, Terminate, Onward;
    if round > setup.maxRounds {
      TerminateOnward(setup, w, None, env);
    } else {
      RoundOnward(setup, w, round, env);
      var (end, replanned) := Round(setup, w, round, env);
      if end.status == Done && !Over(end.w) {
        if replanned {
          RoundsOnward(setup, end.w, round + 1, env);
          OnwardFrom(env, w, end, Rounds(setup, end.w, round + 1, env));
        } else {
          TerminateOnward(setup, end.w, None, env);
          OnwardFrom(env, w, end, Terminate(setup, end.w, None, env));
        }
      }
    }
  }

  lemma StopOnward(setup: Setup, w: World, exn: Exn, env: Env)
    ensures Onward(env, w, Stop(setup, w, exn, env))
  {
    hide Terminate, RecordFailure, Beat;
    TerminateOnward(setup, w, Some(Partial), env);
    FailureOnward(w, env);
  }

  lemma FailureOnward(w: World, env: Env)
    ensures Onward(env, w, RecordFailure(w, env))
  {
    hide RecordFailure;
    if Over(w) {
      FailsNothing(w, env);
    } else {
      FailExactly(w, env);
    }
  }

  lemma FailsNothing(w: World, env: Env)
    requires Over(w)
    ensures RecordFailure(w, env) == Beat(w, env) && SameElse(w, Beat(w, env).w)
  {}

  lemma BodyOnward(setup: Setup, w: World, env: Env)
    ensures Onward(env, w.(lanes := w.lanes + setup.blockedAtOpen), Body(setup, w, env))
  {
    hide Wave, Rounds, Onward;
    var begun := w.(lanes := w.lanes + setup.blockedAtOpen);
    SameCoverage(env, begun, begun, Done);
    WaveOnward(begun, 1, env);
    var referenced := EnsureReference(begun, env);
    RoundsOnward(setup, referenced.w, w.round, env);
    OnwardFrom(env, begun, referenced, Rounds(setup, referenced.w, w.round, env));
  }

  lemma RunOnward(setup: Setup, w: World, env: Env)
    ensures var e := Run(setup, w, env);
            && Onward(env, w, After(e.w, Done)) && (!Over(w) ==> setup.blockedAtOpen <= e.w.lanes)
  {
    hide Body, Stop, Onward;
    var begun, body := w.(lanes := w.lanes + setup.blockedAtOpen), Body(setup, w, env);
    SameCoverage(env, w, w, Done);
    SameCoverage(env, w, begun, Done);
    BodyOnward(setup, w, env);
    KeepsLanes(env, begun, body);
    OnwardFrom(env, w, After(begun, Done), body);
    if body.status.Raised? {
      var stopped := Stop(setup, body.w, body.status.exn, env);
      StopOnward(setup, body.w, body.status.exn, env);
      KeepsLanes(env, body.w, stopped);
      OnwardFrom(env, w, body, stopped);
      HowItCameBack(env, w, stopped, Done);
    }
    HowItCameBack(env, w, body, Done);
  }

  lemma KeepsLanes(env: Env, w: World, after: After)
    requires Onward(env, w, after)
    ensures w.lanes <= after.w.lanes
  {}

  lemma HowItCameBack(env: Env, w: World, a: After, status: Status)
    requires Onward(env, w, a) && status != Raised(BudgetExceeded)
    ensures Onward(env, w, After(a.w, status))
  {}

  /** A request to cancel goes before the wall clock: unless a handler itself runs out of budget, a run is stopped by
      the budget only while nobody has asked to cancel. */
  lemma CancelGoesFirst(setup: Setup, w: World, env: Env)
    requires !Over(w) && !RunsOut(env)
    ensures Run(setup, w, env).cause == Raised(BudgetExceeded) ==> !Body(setup, w, env).w.flag
  {
    hide Body, Stop, RunsOut;
    BodyOnward(setup, w, env);
  }

  /** No lane found blocked is forgotten before the verdict: a run that ends COMPLETE with one is saturated, or has
      candidates and no card. */
  lemma BlockedLanesCount(setup: Setup, w: World, env: Env)
    requires !Over(w)
    ensures var e := Run(setup, w, env);
            && setup.blockedAtOpen <= e.w.lanes
            && (e.w.c.row.state == Complete && e.w.lanes != {} ==>
                  || e.w.disk.realCount >= setup.saturationReal
                  || (e.w.disk.realCount <= 0 && e.w.disk.possiblyRealCount <= 0 && e.w.disk.candidates > 0))
  {
    hide Run, Body, Explained, T.TerminalFor, SaysItsReason, AfterDiscovery, FlagKept;
    RunOnward(setup, w, env);
    RunEnds(setup, w, env);
    var e := Run(setup, w, env);
    if e.w.disk.realCount < setup.saturationReal {
      T.VerdictOnTheFacts(FactsOf(setup, e.w));
    }
  }

  // ---------------------------------------------------------------- any number of processes

  // Its discovery fell back, if it had one.
  ghost predicate NothingFound(life: Life, e: Ending) {
    FallsBack(life.env) || Discovering !in e.w.ran
  }

  predicate Unsaturated(life: Life, e: Ending) {
    e.w.disk.realCount < life.setup.saturationReal
  }

  lemma HollowLife(w: World, life: Life)
    requires Hollow(w) && w.c.row.state != Complete
    requires NothingFound(life, Live(w, life)) && Unsaturated(life, Live(w, life))
    ensures Hollow(Live(w, life).w) && Live(w, life).w.c.row.state != Complete
  {
    hide Run, Explained, T.TerminalFor, FallsBack, SaysItsReason, AfterDiscovery;
    var found, e := Restarted(w, life), Live(w, life);
    RunOnward(life.setup, found, life.env);
    assert e.w.ran[|found.ran|..] == e.w.ran;
    RunEnds(life.setup, found, life.env);
    T.FallbackIsNeverExhaustion(FactsOf(life.setup, e.w));
  }

  /** Once nothing but a fallback is on record, no number of processes whose discoveries fall back, or that have none,
      ends the campaign COMPLETE without the cards for it, and a fallback is still all there is. */
  lemma {:induction false} FallenBackIsNeverExhausted(w: World, lives: seq<Life>, i: nat)
    requires Hollow(w) && w.c.row.state != Complete && i < |lives|
    requires forall j :: 0 <= j <= i ==>
               NothingFound(lives[j], Lived(w, lives)[j]) && Unsaturated(lives[j], Lived(w, lives)[j])
    ensures Hollow(Lived(w, lives)[i].w) && Lived(w, lives)[i].w.c.row.state != Complete
    decreases |lives|
  {
    hide Live, NothingFound, Hollow, Unsaturated;
    var v := Live(w, lives[0]).w;
    assert Lived(w, lives)[0] == Live(w, lives[0]);
    HollowLife(w, lives[0]);
    if i > 0 {
      forall j | 0 <= j <= i - 1
        ensures NothingFound(lives[1..][j], Lived(v, lives[1..])[j])
                && Unsaturated(lives[1..][j], Lived(v, lives[1..])[j])
      {
        FoundLater(w, lives, j + 1);
      }
      FallenBackIsNeverExhausted(v, lives[1..], i - 1);
      FoundLater(w, lives, i);
    }
  }

  /** A new campaign has no coverage at all, so this holds from its creation on. */
  lemma NeverExhaustedFromCreation(lives: seq<Life>, i: nat)
    requires i < |lives|
    requires forall j :: 0 <= j <= i ==> NothingFound(lives[j], Lived(NewWorld(), lives)[j])
                                         && Unsaturated(lives[j], Lived(NewWorld(), lives)[j])
    ensures Lived(NewWorld(), lives)[i].w.c.row.state != Complete
  {
    hide Lived, NothingFound, Unsaturated;
    FallenBackIsNeverExhausted(NewWorld(), lives, i);
  }
}
