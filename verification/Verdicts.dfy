/** What a run ends with, from one end to the other: the verdict is taken on the coverage that discovery left and the
    counts of the last stage, the row says why, and a discovery that fell back never counts as exhausted. */
module Verdicts {
  import opened Wrappers
  import opened Transitions
  import opened EventLog
  import opened Controller
  import opened Walk
  import opened Process
  import opened Resume
  import opened Runs
  import opened Restarts
  import opened Progress
  import opened Witnesses
  import opened Lifetimes
  import opened Retelling
  import opened Untold
  import T = Terminal

  // ---------------------------------------------------------------- what a row says of its end

  /** From its creation on, through any processes: an active row gives no reason, a cancelled one names the operator, a
      failed one has the fixed sentence, and a verdict gives one of its own and carries a receipt. */
  lemma RowsSayTheirEnd(lives: seq<Life>, i: nat)
    requires i < |lives|
    ensures Speaks(Lived(NewWorld(), lives)[i].w.c.row)
  {
    hide Lived, Intact, Speaks;
    LivesSpeak(NewWorld(), lives, i);
  }

  lemma {:induction false} LivesSpeak(w: World, lives: seq<Life>, i: nat)
    requires i < |lives|
    ensures Intact(w.c) && Speaks(w.c.row) ==> Speaks(Lived(w, lives)[i].w.c.row)
    ensures Intact(NewWorld().c) && Speaks(NewWorld().c.row)
    decreases |lives|
  {
    NewIsIntact();
    NewSpeaks();
    hide Intact, Run, Speaks;
    if Intact(w.c) && Speaks(w.c.row) {
      RunGoesOn(lives[0].setup, Restarted(w, lives[0]), lives[0].env);
      if i > 0 {
        LivesSpeak(Live(w, lives[0]).w, lives[1..], i - 1);
        FoundLater(w, lives, i);
      }
    }
  }

  lemma NewSpeaks()
    ensures Speaks(NewWorld().c.row)
  {}

  /** A run that ends COMPLETE says which of the two it is, and its row carries the receipt it stored. */
  lemma CompleteSaysWhy(setup: Setup, w: World, env: Env)
    requires !Over(w) && Run(setup, w, env).w.c.row.state == Complete
    ensures var e := Run(setup, w, env);
            && e.w.c.row.reason == (if e.w.disk.realCount >= setup.saturationReal then "success saturation"
                                    else "coverage exhausted")
            && e.w.c.row.exhaustionReceipt == Some(RECEIPT_ID)
  {
    hide Run, Body, Explained, T.TerminalFor, SaysWhy, AfterDiscovery, FlagKept;
    RunEnds(setup, w, env);
    var e := Run(setup, w, env);
    var reason := T.TerminalFor(FactsOf(setup, e.w), None).reason;
    CompleteReasons(FactsOf(setup, e.w));
    var ofTheLane :| SaysWhy(e.w.c.row, reason, ofTheLane);
    SayingWhy(e.w.c.row, reason, ofTheLane);
  }

  lemma CompleteReasons(f: T.Facts)
    ensures T.TerminalFor(f, None).target == Complete ==>
              T.TerminalFor(f, None).reason
              == if f.realCount >= f.saturationReal then T.SuccessSaturation else T.CoverageExhausted
  {
    hide T.AnyUsable, T.AnyUnresolved, T.Outcomes;
  }

  lemma SayingWhy(row: Row, reason: T.Reason, ofTheLane: string)
    requires SaysWhy(row, reason, ofTheLane) && reason in {T.SuccessSaturation, T.CoverageExhausted}
    ensures row.exhaustionReceipt == Some(RECEIPT_ID)
    ensures row.reason == if reason == T.SuccessSaturation then "success saturation" else "coverage exhausted"
  {
    var sentence := T.Sentence(reason, ofTheLane);
    assert |sentence| == 18 && sentence != "";
  }

  // ---------------------------------------------------------------- what a smooth run leaves

  // What one handler has left: everything it found, and of the coverage only what DISCOVERING found.
  predicate Left(w: World, v: World, stage: CampaignState, sig: Signal) {
    && v.disk.queries == sig.disk.queries && v.disk.realCount == sig.disk.realCount
    && v.disk.possiblyRealCount == sig.disk.possiblyRealCount && v.disk.coverage.hidden == sig.disk.coverage.hidden
    && v.lanes == w.lanes
    && var found := if stage == Discovering then sig.disk.coverage else w.disk.coverage;
       && v.disk.coverage.completed == found.completed && v.disk.coverage.blocked == found.blocked
       && v.disk.coverage.pagesFetched == found.pagesFetched
  }

  // Handlers that find no lane blocked, and candidates or none.
  ghost predicate Plain(env: Env, has: bool) {
    forall t :: env(t).lanes == {} && (env(t).disk.candidates > 0 <==> has)
  }

  lemma HandleLeaves(w: World, stage: CampaignState, has: bool, env: Env)
    requires SmoothFor(w, 2, env) && !w.flag && Plain(env, has) && w.lanes == {}
    requires !IsEarly(stage) ==> HasCandidates(w) == has
    ensures var v := Handle(w, stage, env).w;
            Left(w, v, stage, env(w.clock)) && v.disk.candidates == env(w.clock).disk.candidates
  {
    hide Said, GuardsOpen;
    assert Smooth(env(w.clock)) && Smooth(env(w.clock + 1));
  }

  lemma HandlingLeaves(w: World, stage: CampaignState, has: bool, env: Env)
    requires SmoothFor(w, 3, env) && !w.flag && Plain(env, has) && w.lanes == {} && w.c.row.state == stage
    requires !IsEarly(stage) ==> HasCandidates(w) == has
    ensures var v := HandleAndFinish(w, stage, env).w;
            Left(w, v, stage, env(w.clock)) && v.disk.candidates == env(w.clock).disk.candidates
  {
    hide Handle, FinishStage, Left, GuardsOpen, Smooth, Mark;
    SmoothHandle(w, stage, env);
    HandleLeaves(w, stage, has, env);
    SmoothFinish(Handle(w, stage, env).w, stage, env);
    LeftStays(w, Handle(w, stage, env).w, FinishStage(Handle(w, stage, env).w, stage, env).w, stage, env(w.clock));
  }

  lemma LeftStays(w: World, v: World, u: World, stage: CampaignState, sig: Signal)
    requires Left(w, v, stage, sig) && u.disk == v.disk && u.lanes == v.lanes
    ensures Left(w, u, stage, sig)
  {}

  lemma StageOpens(w: World, k: nat, env: Env)
    requires SmoothFor(w, 4, env) && AtStage(w, k) && k < |Plan(w)| && !w.flag && GuardsOpen(w.disk)
    requires w.c.row.state != Plan(w)[k]
    ensures var open := OpenStage(w, Plan(w)[k], env);
            && open.status == Done && SameElse(w, open.w) && !open.w.flag && open.w.clock == w.clock + 1
            && open.w.c.row.state == Plan(w)[k]
  {
    hide At, Sequence, GuardHolds, Forward, Entered, ContextFromDisk, GuardsOpen, Smooth, TransitionCheck, IsTerminal,
         Emit;
    var stage, ctx := Plan(w)[k], ContextFromDisk(w.c.row, w.disk);
    GuardsHold(w, k);
    NextEdge(w.c.row.state, w.c.steps, HasCandidates(w), k);
    NextStageAt(w, k);
    OpensWhenGuarded(w.c.row.state, stage, ctx);
    SmoothEntered(w, stage, ctx, env);
  }

  lemma StageLeaves(w: World, k: nat, has: bool, env: Env)
    requires SmoothFor(w, 4, env) && AtStage(w, k) && k < |Plan(w)| && !w.flag && GuardsOpen(w.disk)
    requires Plain(env, has) && w.lanes == {} && w.c.row.state != Plan(w)[k]
    requires IsEarly(Plan(w)[k]) || HasCandidates(w) == has
    ensures var v := RunStage(w, Plan(w)[k], env).w;
            && Left(w, v, Plan(w)[k], env(w.clock + 1)) && v.disk.candidates == env(w.clock + 1).disk.candidates
            && v.lanes == {} && HasCandidates(v) == has
  {
    hide At, Sequence, OpenStage, HandleAndFinish, GuardsOpen, Smooth, Left, IsEarly;
    StageOpens(w, k, env);
    var open, stage := OpenStage(w, Plan(w)[k], env), Plan(w)[k];
    var begun := open.w.(ran := open.w.ran + [stage]);
    HandlingLeaves(begun, stage, has, env);
    var v := HandleAndFinish(begun, stage, env).w;
    LeftOf(begun, v, stage, env(begun.clock));
    LeftFrom(begun, w, v, stage, env(begun.clock));
  }

  lemma LeftOf(w: World, v: World, stage: CampaignState, sig: Signal)
    requires Left(w, v, stage, sig)
    ensures v.lanes == w.lanes
  {}

  lemma LeftFrom(w: World, u: World, v: World, stage: CampaignState, sig: Signal)
    requires Left(w, v, stage, sig) && u.disk == w.disk && u.lanes == w.lanes
    ensures Left(u, v, stage, sig)
  {}

  // ---------------------------------------------------------------- a whole pass of a new campaign

  // When the handler of the k-th stage of its pass is called, if nothing disturbs it.
  function HandledAt(k: nat): (t: nat) {
    27 + 5 * k
  }

  // After k stages: what DISCOVERING left of the coverage, and what the last handler left of the rest.
  predicate LeftAfter(w: World, k: nat, env: Env)
    requires k >= 2
  {
    var last, found := env(HandledAt(k - 1)).disk, env(HandledAt(1)).disk.coverage;
    && w.disk.queries == last.queries && w.disk.realCount == last.realCount
    && w.disk.possiblyRealCount == last.possiblyRealCount && w.disk.candidates == last.candidates
    && w.disk.coverage == T.Coverage(found.completed, found.blocked, found.pagesFetched, last.coverage.hidden)
    && w.lanes == {}
  }

  lemma LeftAfterOneMore(w: World, v: World, k: nat, stage: CampaignState, env: Env)
    requires Left(w, v, stage, env(HandledAt(k))) && w.lanes == {}
    requires v.disk.candidates == env(HandledAt(k)).disk.candidates
    requires k >= 2 && stage != Discovering && LeftAfter(w, k, env)
    ensures LeftAfter(v, k + 1, env)
  {}

  lemma LeftAfterDiscovery(w: World, v: World, env: Env)
    requires Left(w, v, Discovering, env(HandledAt(1))) && w.lanes == {}
    requires v.disk.candidates == env(HandledAt(1)).disk.candidates
    ensures LeftAfter(v, 2, env)
  {}

  lemma StageIsNew(has: bool, k: nat)
    requires k < |Sequence(has)|
    ensures Sequence(has)[k] != (if k == 0 then PlanningQueries else Sequence(has)[k - 1])
    ensures Sequence(has)[k] == Discovering <==> k == 1
  {
    SequenceIsPlan(has);
    assert EARLY[1] == Discovering && Sequence(has)[1] == EARLY[1];
  }

  // Where the pass of a new campaign stands before its k-th stage.
  ghost predicate Passing(w: World, k: nat, has: bool, env: Env) {
    && AtStage(w, k) && !w.flag && GuardsOpen(w.disk) && w.lanes == {} && w.clock == 25 + 5 * k
    && HasCandidates(w) == (has && k > 0) && k <= |Plan(w)|
    && w.c.row.state == (if k == 0 then PlanningQueries else Plan(w)[k - 1])
    && (k >= 2 ==> LeftAfter(w, k, env))
  }

  lemma PassStep(w: World, k: nat, has: bool, env: Env)
    requires RunsSmoothly(env) && InTime(env) && Plain(env, has) && Passing(w, k, has, env) && k < |Plan(w)|
    ensures var may := MayStart(w, true, env);
            var run := RunStage(may.w, Plan(w)[k], env);
            && may.status == Done && run.status == Done && Passing(run.w, k + 1, has, env)
            && may.w == w.(clock := w.clock + 1) && run.w.c.steps == Mark(w.c.steps, Plan(w)[k])
  {
    hide At, Sequence, MayStart, RunStage, GuardsOpen, Smooth, Left, LeftAfter, IsEarly, Mark;
    SmoothIsQuiet(env);
    SmoothMayStart(w, true, env);
    var may, stage := MayStart(w, true, env), Plan(w)[k];
    StageIsNew(HasCandidates(w), k);
    LateIsNotEarly(w, k);
    SmoothStage(may.w, k, env);
    StageLeaves(may.w, k, has, env);
    var run := RunStage(may.w, stage, env);
    LeftFrom(may.w, w, run.w, stage, env(HandledAt(k)));
    SameStages(w, run.w, k, has);
    if k == 1 {
      LeftAfterDiscovery(w, run.w, env);
    } else if k >= 2 {
      LeftAfterOneMore(w, run.w, k, stage, env);
    }
  }

  lemma SameStages(w: World, v: World, k: nat, has: bool)
    requires HasCandidates(w) == (has && k > 0) && HasCandidates(v) == has && k < |Plan(w)|
    ensures k + 1 <= |Plan(v)| && Plan(v)[k] == Plan(w)[k]
  {
    PlanLengths(true);
    PlanLengths(false);
  }

  lemma {:induction false} PassLeaves(w: World, k: nat, has: bool, env: Env, seen: set<CampaignState>)
    requires RunsSmoothly(env) && InTime(env) && Plain(env, has) && Passing(w, k, has, env)
    requires forall s :: s in seen ==> s in w.c.steps
    ensures LeftAfter(Pipeline(w, env, seen).w, |Sequence(has)|, env)
    decreases STAGES - seen
  {
    hide At, Sequence, MayStart, RunStage, SkipMatching, GuardsOpen, LeftAfter;
    PlanLengths(has);
    PlanLengths(HasCandidates(w));
    NextStageAt(w, k);
    if k < |Plan(w)| {
      PassStep(w, k, has, env);
      hide Passing;
      var stage := Plan(w)[k];
      SeenPipeline(w, env, seen, stage);
      PassLeaves(RunStage(MayStart(w, true, env).w, stage, env).w, k + 1, has, env, seen + {stage});
    }
  }

  lemma HandlingFindsNothing(w: World, stage: CampaignState, has: bool, env: Env)
    requires SmoothFor(w, 3, env) && !w.flag && Plain(env, has) && w.lanes == {} && w.c.row.state == stage && !Over(w)
    requires !IsEarly(stage) && !HasCandidates(w)
    ensures var v := HandleAndFinish(w, stage, env).w; v.lanes == {} && !HasCandidates(v)
  {
    HandleAndFinishKeeps(w, stage, env);
    hide FinishStage, Said, GuardsOpen, Mark, CandidatesAfter, CoverageAfter, Explained;
    assert Smooth(env(w.clock)) && Smooth(env(w.clock + 1));
    FinishKeeps(Handle(w, stage, env).w, stage, env);
  }

  lemma WaveStepLeaves(w: World, n: nat, has: bool, env: Env)
    requires SmoothFor(w, 4, env) && 1 <= n <= 6 && InWave(w.c.row.state, w.c.steps, n - 1) && !w.flag
    requires Plain(env, has) && w.lanes == {} && !HasCandidates(w)
    ensures var v := WaveStep(w, n, env).w; v.lanes == {} && !HasCandidates(v)
  {
    hide InWave, HandleAndFinish, ContextFromDisk, TransitionCheck, Forward, GuardsOpen, Entered, Mark, Smooth;
    var ctx := ContextFromDisk(w.c.row, w.disk);
    WaveEntryIsLegal(w, n, n - 1);
    Progress.WaveOpens(w.c.row.state, n, ctx);
    SmoothEntered(w, SPINE[n], ctx, env);
    SpineIsNew(w, n);
    HandlingFindsNothing(Entered(w, SPINE[n], ctx, env).w, SPINE[n], has, env);
  }

  lemma SpineIsNew(w: World, n: nat)
    requires 1 <= n <= 6 && InWave(w.c.row.state, w.c.steps, n - 1)
    ensures w.c.row.state != SPINE[n] && !IsEarly(SPINE[n])
  {}

  lemma {:induction false} WaveLeaves(w: World, n: nat, has: bool, env: Env)
    requires 1 <= n <= 7 && InWave(w.c.row.state, w.c.steps, n - 1) && SmoothFor(w, 4 * (7 - n), env)
    requires !w.flag && Plain(env, has) && w.lanes == {} && !HasCandidates(w)
    ensures var v := Wave(w, n, env).w; v.lanes == {} && !HasCandidates(v)
    decreases 7 - n
  {
    hide InWave, WaveStep, GuardsOpen, Smooth, Plain;
    if n < 7 {
      SmoothWaveStep(w, n, n - 1, env);
      WaveStepLeaves(w, n, has, env);
      WaveLeaves(WaveStep(w, n, env).w, n + 1, has, env);
    }
  }

  // ---------------------------------------------------------------- a whole run of a new campaign

  // The facts a smooth run of one round is judged on, read off what its handlers found.
  function FactsFound(setup: Setup, has: bool, env: Env): (facts: T.Facts) {
    var last, found := env(HandledAt(if has then 11 else 6)).disk, env(HandledAt(1)).disk.coverage;
    T.Facts(last.realCount, last.possiblyRealCount, setup.saturationReal,
            T.Coverage(found.completed, found.blocked, found.pagesFetched, last.coverage.hidden),
            last.candidates, {}, last.queries)
  }

  lemma NewPassLeaves(setup: Setup, has: bool, env: Env)
    requires RunsSmoothly(env) && InTime(env) && Plain(env, has) && setup.blockedAtOpen == {} && setup.maxRounds == 1
    ensures var pass := Round(setup, EnsureReference(NewWorld(), env).w, 1, env);
            && pass.0.status == Done && !pass.1 && !Over(pass.0.w)
            && FactsOf(setup, pass.0.w) == FactsFound(setup, has, env)
  {
    hide InWave, Wave, Pipeline, MayStart, At, Sequence, GuardsOpen, Smooth, LeftAfter, Plain, Standing;
    SmoothIsQuiet(env);
    NewCampaignStands();
    var w := NewWorld();
    SmoothWave(w, 1, 0, env);
    WaveLeaves(w, 1, has, env);
    WaveSteady(w, 1, env);
    var walk := Wave(w, 1, env).w;
    NextStageAt(walk, 0);
    SmoothMayStart(walk, false, env);
    var begun := MayStart(walk, false, env).w;
    var q := SmoothPipeline(begun, 0, env, {});
    PassLeaves(begun, 0, has, env, {});
    PlanLengths(has);
    RestMayReplan(Pipeline(begun, env, {}).w, q);
    FactsAfter(setup, Pipeline(begun, env, {}).w, has, env);
  }

  lemma FactsAfter(setup: Setup, w: World, has: bool, env: Env)
    requires LeftAfter(w, if has then 12 else 7, env)
    ensures FactsOf(setup, w) == FactsFound(setup, has, env)
  {}

  /** A run of one round of a new campaign that nothing disturbs is judged on what its handlers found: the coverage
      that DISCOVERING left, and the queries, candidates and cards that the last stage left. */
  lemma JudgedOnWhatWasFound(setup: Setup, has: bool, env: Env)
    requires RunsSmoothly(env) && InTime(env) && Plain(env, has) && setup.blockedAtOpen == {} && setup.maxRounds == 1
    ensures var e := Run(setup, NewWorld(), env);
            && e.outcome == Finished && e.cause == Done && FactsOf(setup, e.w) == FactsFound(setup, has, env)
            && e.w.c.row.state == T.TerminalFor(FactsFound(setup, has, env), None).target
  {
    hide Round, Terminate, EnsureReference, Standing, T.TerminalFor, FactsOf, FactsFound, HandledTheRest, GuardsOpen,
         Smooth, Plain, Free;
    NewCampaignStands();
    NewIsFree(setup);
    SmoothRun(setup, NewWorld(), InReference(0), env);
    NewPassLeaves(setup, has, env);
    SmoothReference(NewWorld(), InReference(0), env);
    var walk := EnsureReference(NewWorld(), env).w;
    var pass := Round(setup, walk, 1, env).0.w;
    assert NewWorld().(lanes := NewWorld().lanes + setup.blockedAtOpen) == NewWorld();
    UnfoldVerdict(setup, walk, 1, env);
    TerminateExactly(setup, pass, None, env);
    assert Body(setup, NewWorld(), env) == Terminate(setup, pass, None, env);
  }

  lemma NewIsFree(setup: Setup)
    ensures Free(NewWorld().(lanes := NewWorld().lanes + setup.blockedAtOpen), InReference(0))
    ensures Free(NewWorld(), InReference(0))
  {}

  /** So a search that was carried out and found nothing is COMPLETE exactly if every source that DISCOVERING asked
      answered at last, and PARTIAL otherwise. */
  lemma EmptySearchIsCompleteIffAnswered(setup: Setup, env: Env)
    requires RunsSmoothly(env) && InTime(env) && Plain(env, false) && setup.blockedAtOpen == {} && setup.maxRounds == 1
    requires var last := env(HandledAt(6)).disk;
             && last.realCount == last.possiblyRealCount == 0 && setup.saturationReal > 0
             && exists i :: 0 <= i < |last.queries| && !T.IsBlank(last.queries[i])
    requires var found := env(HandledAt(1)).disk.coverage; found.completed != [] && found.pagesFetched > 0
    ensures var found := env(HandledAt(1)).disk.coverage;
            Run(setup, NewWorld(), env).w.c.row.state
            == if T.UnansweredAtLast(found.completed + found.blocked) then Partial else Complete
  {
    hide Run, T.TerminalFor, T.UnansweredAtLast, RunsSmoothly, InTime;
    JudgedOnWhatWasFound(setup, false, env);
    T.VerdictOnTheFacts(FactsFound(setup, false, env));
    T.UsableQuery(env(HandledAt(6)).disk.queries);
  }
}
