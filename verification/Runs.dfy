/** How a run ends, for every stored campaign and every environment: src/searcher/campaigns/orchestrator.py's
    run from its first line to its except clauses. */
module Runs {
  import opened Wrappers
  import opened Transitions
  import opened EventLog
  import opened Controller
  import opened Walk
  import opened Process
  import opened Resume
  import T = Terminal

  // ---------------------------------------------------------------- the try block, step by step

  lemma HandlingIsSteady(w: World, stage: CampaignState, env: Env)
    requires Over(w) || w.c.row.state == stage
    ensures Steady(w, HandleAndFinish(w, stage, env), env) && HandleAndFinish(w, stage, env).w.ran == w.ran
  {
    hide HandleAndFinish, Explained, Mark, IsEarly;
    if Over(w) {
      OverIsHandled(w, stage, env);
    } else {
      HandleAndFinishKeeps(w, stage, env);
    }
  }

  lemma StageSteady(w: World, stage: CampaignState, env: Env)
    requires !IsTerminal(stage)
    ensures Steady(w, RunStage(w, stage, env), env)
  {
    hide OpenStage, HandleAndFinish, Explained, Mark, Forward, IsTerminal;
    OpenKeeps(w, stage, env);
    var open := OpenStage(w, stage, env);
    if open.status == Done {
      HandlingIsSteady(open.w.(ran := open.w.ran + [stage]), stage, env);
    }
  }

  lemma SkipSteady(w: World, state: CampaignState, env: Env)
    ensures Steady(w, SkipMatching(w, state, env), env)
  {
    hide EnterStage, HandleAndFinish, Explained, Mark, Forward, IsTerminal;
    GapAnalysisFollows();
    EnterKeeps(w, GapAnalysis, env);
    DoneIsExplained(env, w);
    var entered := EnterStage(w, GapAnalysis, env);
    if entered.status == Done {
      HandlingIsSteady(entered.w.(ran := entered.w.ran + [GapAnalysis]), GapAnalysis, env);
    }
  }

  lemma NextIsActive(w: World)
    ensures NextStage(w).Some? ==> !IsTerminal(NextStage(w).value)
  {
    RemainingAreStages(HasCandidates(w), w.c.steps);
  }

  lemma {:induction false} PipelineSteady(w: World, env: Env, seen: set<CampaignState>)
    ensures var after := Pipeline(w, env, seen);
            Steady(w, after, env) && (after.status == Done && !Over(after.w) ==> !Over(w))
    decreases STAGES - seen
  {
    hide NextStage, MayStart, RunStage, SkipMatching, Explained;
    DoneIsExplained(env, w);
    var next := NextStage(w);
    NextIsActive(w);
    if !Over(w) && next.Some? && next.value !in seen {
      MayStartKeeps(w, true, env);
      var may := MayStart(w, true, env);
      if may.status == Done {
        SkipSteady(may.w, w.c.row.state, env);
        StageSteady(may.w, next.value, env);
        var run := RunStage(may.w, next.value, env);
        if !Skips(w, next.value) && run.status == Done {
          PipelineSteady(run.w, env, seen + {next.value});
          if Over(run.w) {
            assert Pipeline(run.w, env, seen + {next.value}) == After(run.w, Done);
          }
          SteadyOn(w, run, Pipeline(run.w, env, seen + {next.value}), env);
        }
      }
    }
  }

  lemma WaveStepSteady(w: World, n: nat, env: Env)
    requires 1 <= n <= 6
    ensures var after := WaveStep(w, n, env); Steady(w, after, env) && after.w.ran == w.ran
    ensures Over(w) ==> WaveStep(w, n, env).status != Done
  {
    hide Entered, HandleAndFinish, Explained, ContextFromDisk, Mark, Forward, IsTerminal;
    WaveEdges(n - 1);
    DoneIsExplained(env, w);
    EnteredKeeps(w, SPINE[n], env);
    var entered := if w.c.row.state == SPINE[n] then After(w, Done)
                   else Entered(w, SPINE[n], ContextFromDisk(w.c.row, w.disk), env);
    if entered.status == Done {
      CancelledIsOver(entered.w);
      HandlingIsSteady(entered.w, SPINE[n], env);
    }
  }

  lemma {:induction false} WaveSteady(w: World, n: nat, env: Env)
    requires 1 <= n <= 7
    ensures var after := Wave(w, n, env); Steady(w, after, env) && after.w.ran == w.ran
    decreases 7 - n
  {
    hide WaveStep, Explained;
    DoneIsExplained(env, w);
    if n < 7 {
      WaveStepSteady(w, n, env);
      var step := WaveStep(w, n, env);
      if step.status == Done {
        WaveSteady(step.w, n + 1, env);
        SteadyOn(w, step, Wave(step.w, n + 1, env), env);
      }
    }
  }

  // ---------------------------------------------------------------- replanning

  lemma BackSteady(w: World, env: Env)
    ensures var after := BackToDiscovery(w, env);
            && Steady(w, after, env) && after.w.ran == w.ran && after.w.disk == w.disk && after.w.lanes == w.lanes
            && (Over(w) ==> !after.status.Raised?)
  {
    hide FinishStage, EnterStage, Explained, Forward, Mark;
    FinishKeeps(w, Replanning, env);
    EnterKeeps(FinishStage(w, Replanning, env).w, Discovering, env);
  }

  lemma SendBackSteady(w: World, query: string, env: Env)
    ensures var after := SendBack(w, query, env);
            && Steady(w, after, env) && after.w.ran == w.ran && after.w.disk == WithQuery(w, query).disk
            && after.w.lanes == w.lanes
  {
    hide OpenStage, Beat, BackToDiscovery, Explained, Forward;
    var open := OpenStage(WithQuery(w, query), Replanning, env);
    OpenKeeps(WithQuery(w, query), Replanning, env);
    BeatKeeps(open.w, env);
    BackSteady(Cleared(Beat(open.w, env).w), env);
  }

  lemma ReplanSteady(w: World, mayGoOn: bool, env: Env)
    ensures var (after, replanned) := Replan(w, mayGoOn, env);
            && Steady(w, after, env) && after.w.ran == w.ran && HasCandidates(after.w) == HasCandidates(w)
            && (replanned ==> mayGoOn && after.status == Done)
  {
    hide Beat, SendBack, Explained;
    DoneIsExplained(env, w);
    BeatKeeps(w, env);
    DoneIsExplained(env, Beat(w, env).w);
    SendBackSteady(Beat(w, env).w, env(w.clock).query, env);
  }

  // ---------------------------------------------------------------- the verdict

  // The flag as the beat leaves it.
  predicate FlaggedAfter(w: World, env: Env) {
    w.flag || env(w.clock).cancel
  }

  lemma BeatExactly(w: World, env: Env)
    ensures var after := Beat(w, env);
            && after.status == (if env(w.clock).crash then Crashed else Done) && after.w.flag == FlaggedAfter(w, env)
            && after.w.(c := w.c, flag := w.flag, checkpoints := w.checkpoints, clock := w.clock) == w
            && after.w.clock == w.clock + 1
            && (if Over(w) || !env(w.clock).cancel || env(w.clock).flagOnly then after.w.c == w.c
                else after.w.c.row.state == Cancelled)
  {}

  // Neither a crash nor the row of a cancel() comes before the write of the transition under this signal.
  predicate LetsPass(sig: Signal) {
    && (sig.crash ==> sig.crashAt != BeforeRead && sig.crashAt != BeforeWrite)
    && !LandsAt(sig, BeforeRead) && !LandsAt(sig, BeforeWrite)
  }

  // Nothing comes before its read.
  predicate LetsRead(sig: Signal) {
    !DiesAt(sig, BeforeRead) && !LandsAt(sig, BeforeRead)
  }

  // Whether this end is one the state reaches, the facts aside.
  predicate Settled(state: CampaignState, target: CampaignState, ctx: TransitionContext) {
    && IsTerminal(target)
    && forall s :: s == state || s == Cancelled ==>
         TransitionCheck(s, false, target, ctx)
         == if !IsTerminal(s) && target in Forward(s) then Pass else Fail(Error.Refused(IllegalTransition(s, target)))
  }

  function EdgeRefused(w: World, target: CampaignState): (status: Status) {
    Raised(Exn.Refused(IllegalTransition(w.c.row.state, target)))
  }

  // A cancel() ended the campaign between the flag check of a transition and its write.
  predicate CameTooLate(after: After, target: CampaignState) {
    && Over(after.w) && after.w.flag
    && (after.status == Raised(Stale) || after.status == EdgeRefused(after.w, target))
  }

  // From its read on: it happens unless something comes before its write, if the state that was read reaches it.
  lemma EndingFromRead(w: World, target: CampaignState, ctx: TransitionContext, sig: Signal)
    requires IsTerminal(target) && target !in Forward(Cancelled)
    requires TransitionCheck(w.c.row.state, false, target, ctx)
             == if !Over(w) && target in Forward(w.c.row.state) then Pass
                else Fail(Error.Refused(IllegalTransition(w.c.row.state, target)))
    ensures var after := FromRead(w, target, ctx, sig);
            && SameElse(w, after.w) && (w.flag ==> after.w.flag) && (after.w.flag ==> w.flag || sig.cancel)
            && after.w.clock == w.clock
            && (if Over(w) || target !in Forward(w.c.row.state) then after == After(w, EdgeRefused(w, target))
                else if DiesAt(sig, BeforeWrite) || LandsAt(sig, BeforeWrite)
                then && Kept(w, after.w)
                     && after.status == (if DiesAt(sig, BeforeWrite) then Crashed else Raised(Stale))
                     && (after.status == Raised(Stale) ==> Over(after.w) && after.w.flag)
                else && CameTo(w, after.w, target) && after.w.c.row == Controller.Written(w.c.row, target, ctx)
                     && after.status == (if DiesAt(sig, BeforeEvent) || DiesAt(sig, AfterEvent) then Crashed else Done))
  {
    hide TransitionCheck, Forward, FromWrite, Meanwhile, IsTerminal;
    MeanwhileKeeps(w, sig, BeforeWrite);
    MeanwhileQuiet(w, sig, BeforeWrite);
    var late := Meanwhile(w, sig, BeforeWrite);
    FromWriteKeeps(late.w, target, ctx, sig);
  }

  /** A transition to an end, exactly: it happens if and only if nobody has cancelled, nothing comes before its
      write, and the state reaches it; then nothing undoes it. */
  lemma EndingExactly(w: World, target: CampaignState, ctx: TransitionContext, env: Env)
    requires Settled(w.c.row.state, target, ctx) && !Over(w)
    ensures var after := Entered(w, target, ctx, env);
            && SameElse(w, after.w) && (w.flag ==> after.w.flag) && (after.w.flag ==> w.flag || env(w.clock).cancel)
            && w.clock <= after.w.clock <= w.clock + 1
            && (if w.flag then after == After(w, Raised(CancelledError))
                else if LetsPass(env(w.clock)) && target in Forward(w.c.row.state)
                then CameTo(w, after.w, target) && after.w.clock == w.clock + 1
                     && after.w.c.row == Controller.Written(w.c.row, target, ctx)
                     && after.status == (if env(w.clock).crash then Crashed else Done)
                else && Kept(w, after.w) && after.status != Done
                     && (after.status == Crashed ==> env(w.clock).crash)
                     && (after.status.Raised? ==>
                           after.status == EdgeRefused(w, target) || CameTooLate(after, target))
                     && (after.status == EdgeRefused(w, target)
                         <==> LetsRead(env(w.clock)) && target !in Forward(w.c.row.state))
                     && (after.status == EdgeRefused(w, target) ==> after.w.c == w.c))
  {
    hide TransitionCheck, Forward, FromRead, Meanwhile, Settled, IsTerminal;
    if !w.flag {
      var sig, ticked := env(w.clock), w.(clock := w.clock + 1);
      MeanwhileKeeps(ticked, sig, BeforeRead);
      MeanwhileQuiet(ticked, sig, BeforeRead);
      var read := Meanwhile(ticked, sig, BeforeRead);
      SettledChecks(w.c.row.state, target, ctx, read.w.c.row.state);
      if read.status == Done {
        CancelledIsOver(read.w);
        EndingFromRead(read.w, target, ctx, sig);
      }
    }
  }

  lemma SettledChecks(state: CampaignState, target: CampaignState, ctx: TransitionContext, s: CampaignState)
    requires Settled(state, target, ctx) && (s == state || s == Cancelled)
    ensures IsTerminal(target) && IsTerminal(Cancelled) && target !in Forward(Cancelled)
    ensures TransitionCheck(s, false, target, ctx)
            == if !IsTerminal(s) && target in Forward(s) then Pass
               else Fail(Error.Refused(IllegalTransition(s, target)))
  {}

  // Where no cancel() lands nothing of the campaign changes, and where one lands an active campaign is over.
  lemma MeanwhileQuiet(w: World, sig: Signal, at: Moment)
    ensures !LandsAt(sig, at) ==>
              Meanwhile(w, sig, at).w == w.(flag := w.flag || CancelsAt(sig, at))
    ensures LandsAt(sig, at) ==> Over(Meanwhile(w, sig, at).w) && Meanwhile(w, sig, at).w.flag
    ensures LandsAt(sig, at) && !Over(w) ==> Meanwhile(w, sig, at).w.c.row.version == w.c.row.version + 1
  {}

  lemma VerdictSettled(w: World, choice: T.Choice, row: Row, disk: Disk, reason: string)
    requires choice.target in {Complete, Partial, Blocked}
    ensures Settled(w.c.row.state, choice.target, VerdictContext(row, disk, choice, reason))
  {
    hide TransitionCheck, VerdictContext, Forward;
    VerdictCheck(w.c.row.state, false, choice, row, disk, reason);
    VerdictCheck(Cancelled, false, choice, row, disk, reason);
  }

  lemma FailureSettled(w: World, row: Row, disk: Disk)
    requires !Over(w)
    ensures Settled(w.c.row.state, Failed, FailContext(row, disk)) && Failed in Forward(w.c.row.state)
  {
    hide FailContext, GuardHolds;
    FailureCheck(w.c.row.state, false, row, disk);
    AllMayFail(w.c.row.state);
  }

  lemma AllMayFail(s: CampaignState)
    ensures !IsTerminal(s) ==> Failed in Forward(s)
  {}

  // A recorded verdict has its receipt and gives its own sentence; that of a blocked lane is what the lane says.
  predicate SaysWhy(row: Row, reason: T.Reason, ofTheLane: string) {
    && row.exhaustionReceipt == Some(RECEIPT_ID)
    && (T.Sentence(reason, ofTheLane) != "" ==> row.reason == T.Sentence(reason, ofTheLane))
  }

  lemma WrittenSaysWhy(row: Row, disk: Disk, choice: T.Choice, ofTheLane: string)
    requires IsTerminal(choice.target)
    ensures SaysWhy(Controller.Written(row, choice.target, VerdictContext(row, disk, choice, ofTheLane)),
                    choice.reason, ofTheLane)
  {}

  /** Recording a verdict: what the state admits is committed unless something comes before its write, and only a
      crash can keep the rest from following. */
  lemma RecordExactly(w: World, choice: T.Choice, reason: string, env: Env)
    requires choice.target in {Complete, Partial, Blocked} && !Over(w)
    ensures var after := Record(w, choice, reason, env);
            && SameElse(w, after.w) && (w.flag ==> after.w.flag)
            && (if w.flag then after == After(w, Raised(CancelledError))
                else if LetsPass(env(w.clock)) && choice.target in Forward(w.c.row.state)
                then after.w.c.row.state == choice.target && SaysWhy(after.w.c.row, choice.reason, reason)
                     && after.status == (if env(w.clock).crash || env(w.clock + 1).crash || env(w.clock + 2).crash
                                         then Crashed else Done)
                else && Kept(w, after.w) && after.status != Done
                     && (after.status == Crashed ==> env(w.clock).crash)
                     && (after.status.Raised? ==>
                           after.status == EdgeRefused(w, choice.target) || CameTooLate(after, choice.target))
                     && (after.status == EdgeRefused(w, choice.target)
                         <==> LetsRead(env(w.clock)) && choice.target !in Forward(w.c.row.state))
                     && (after.status == EdgeRefused(w, choice.target) ==> after.w.c == w.c))
  {
    WrittenSaysWhy(w.c.row, w.disk, choice, reason);
    hide Beat, TransitionCheck, VerdictContext, Emit, Entered, Checkpointing, Settled, Forward, Controller.Written,
         SaysWhy;
    VerdictSettled(w, choice, w.c.row, w.disk, reason);
    var ctx := VerdictContext(w.c.row, w.disk, choice, reason);
    EndingExactly(w, choice.target, ctx, env);
    var entered := Entered(w, choice.target, ctx, env);
    if entered.status == Done {
      BeatExactly(entered.w, env);
      CheckpointingOver(Beat(entered.w, env).w, AtEnd, env);
    }
  }

  lemma CheckpointingOver(w: World, at: Label, env: Env)
    requires Over(w)
    ensures var after := Checkpointing(w, at, env);
            && SameElse(w, after.w) && after.w.c.row == w.c.row && (w.flag ==> after.w.flag)
            && after.status == (if env(w.clock).crash then Crashed else Done) && after.w.clock == w.clock + 1
  {}

  // After the end of a campaign a beat leaves it and its checkpoints alone.
  lemma BeatAfterTheEnd(w: World, env: Env)
    requires Over(w)
    ensures Beat(w, env).w.c == w.c && Beat(w, env).w.checkpoints == w.checkpoints
  {}

  // What a transition writes that is not undone: its commit and its event, and whatever a cancel() adds after it.
  lemma EndingWrites(w: World, target: CampaignState, ctx: TransitionContext, env: Env)
    requires Entered(w, target, ctx, env).status == Done && IsTerminal(target)
    ensures var after := Entered(w, target, ctx, env);
            after.w.c == Enter(w.c, target, ctx) && after.w.checkpoints == w.checkpoints
  {
    hide TransitionCheck, FromWrite, Meanwhile, IsTerminal;
    var sig, ticked := env(w.clock), w.(clock := w.clock + 1);
    MeanwhileKeeps(ticked, sig, BeforeRead);
    var read := Meanwhile(ticked, sig, BeforeRead);
    PassIsLegal(read.w.c.row.state, target, ctx);
    MeanwhileChecked(ticked, sig, BeforeRead);
    MeanwhileChecked(read.w, sig, BeforeWrite);
    var late := Meanwhile(read.w, sig, BeforeWrite);
    FromWriteToAnEnd(late.w, target, ctx, sig);
  }

  lemma MeanwhileChecked(w: World, sig: Signal, at: Moment)
    ensures !Over(Meanwhile(w, sig, at).w) || Meanwhile(w, sig, at).w.c.row.version == w.c.row.version ==>
              Meanwhile(w, sig, at).w.c == w.c && Meanwhile(w, sig, at).w.checkpoints == w.checkpoints
  {}

  lemma FromWriteToAnEnd(w: World, target: CampaignState, ctx: TransitionContext, sig: Signal)
    requires IsTerminal(target) && FromWrite(w, target, ctx, sig).status == Done
    ensures FromWrite(w, target, ctx, sig).w.c == Enter(w.c, target, ctx)
    ensures FromWrite(w, target, ctx, sig).w.checkpoints == w.checkpoints
  {
    hide Emit;
  }

  /** What is written for a verdict that is recorded: one commit, one checkpoint and the closing event, whatever
      is cancelled meanwhile. */
  lemma VerdictWrites(w: World, choice: T.Choice, reason: string, env: Env)
    requires choice.target in {Complete, Partial, Blocked} && Record(w, choice, reason, env).status == Done
    ensures var after := Record(w, choice, reason, env);
            && after.w.c == EndedBy(w.c, choice.target, VerdictContext(w.c.row, w.disk, choice, reason))
            && after.w.checkpoints == w.checkpoints + [Checkpoint(choice.target, w.c.row.version + 1, AtEnd)]
  {
    hide Beat, TransitionCheck, VerdictContext, Emit, Entered, IsTerminal;
    var ctx := VerdictContext(w.c.row, w.disk, choice, reason);
    VerdictsAreTerminal(choice.target);
    EndingWrites(w, choice.target, ctx, env);
    var entered := Entered(w, choice.target, ctx, env);
    BeatAfterTheEnd(entered.w, env);
    var committed := Beat(entered.w, env);
    CrashIsTold(Checkpointed(committed.w, AtEnd), env);
    var stored := committed.w.c.row;
    CrashIsTold(committed.w.(checkpoints := committed.w.checkpoints
                                            + [Checkpoint(stored.state, stored.version, AtEnd)]), env);
    BeatAfterTheEnd(Checkpointed(committed.w, AtEnd), env);
  }

  lemma VerdictsAreTerminal(s: CampaignState)
    ensures s in {Complete, Partial, Blocked} ==> IsTerminal(s)
  {}

  /** What is written for a failure that is recorded: one commit and the closing event, and no checkpoint. */
  lemma FailureWrites(w: World, env: Env)
    requires !Over(w) && RecordFailure(w, env).w.c.row.state == Failed && RecordFailure(w, env).status == Done
    ensures var after := RecordFailure(w, env);
            var entered := Enter(w.c, Failed, FailContext(w.c.row, w.disk));
            && after.w.c == entered.(log := Emit(entered.log, SearchComplete, entered.row.version, Some(Failed)))
            && after.w.checkpoints == w.checkpoints
  {
    hide TransitionCheck, FailContext, Emit, Entered, Beat, Forward;
    var beat := Beat(w, env);
    BeatExactly(w, env);
    BeatWhileActive(w, env);
    if beat.status == Done && !Over(beat.w) {
      var ctx := FailContext(beat.w.c.row, beat.w.disk);
      FailureSettled(beat.w, beat.w.c.row, beat.w.disk);
      EndingExactly(beat.w, Failed, ctx, env);
      var entered := Entered(beat.w, Failed, ctx, env);
      if entered.status == Done {
        EndingWrites(beat.w, Failed, ctx, env);
        BeatAfterTheEnd(entered.w, env);
      }
    }
  }

  // A beat that leaves a campaign active has at most put the flag up.
  lemma BeatWhileActive(w: World, env: Env)
    requires !Over(Beat(w, env).w)
    ensures Beat(w, env).w == w.(clock := w.clock + 1, flag := FlaggedAfter(w, env))
  {}

  lemma HandlingWrites(w: World, stage: CampaignState, env: Env)
    requires Handle(w, stage, env).status == Done && !Over(Handle(w, stage, env).w)
    ensures var after := Handle(w, stage, env);
            && after.w.c == w.c.(log := Said(w.c.log, w.c.row.version, env(w.clock).said))
            && after.w.checkpoints == w.checkpoints && !Over(w)
  {
    hide Beat, Faulted, CandidatesAfter, CoverageAfter, LanesAfter, Said;
    var handled := Handled(Beat(w, env).w, stage, env(w.clock));
    BeatWhileActive(handled.w, env);
    BeatWhileActive(w, env);
  }

  lemma EnteringWrites(w: World, target: CampaignState, ctx: TransitionContext, env: Env)
    requires Entered(w, target, ctx, env).status == Done && !Over(Entered(w, target, ctx, env).w) && !Over(w)
    ensures Entered(w, target, ctx, env).w.c == Enter(w.c, target, ctx)
    ensures Entered(w, target, ctx, env).w.checkpoints == w.checkpoints
  {
    hide TransitionCheck, FromWrite, Meanwhile, IsTerminal;
    var sig, ticked := env(w.clock), w.(clock := w.clock + 1);
    var read := Meanwhile(ticked, sig, BeforeRead);
    MeanwhileKeeps(ticked, sig, BeforeRead);
    PassIsLegal(read.w.c.row.state, target, ctx);
    MeanwhileChecked(ticked, sig, BeforeRead);
    MeanwhileChecked(read.w, sig, BeforeWrite);
    FromWriteActive(Meanwhile(read.w, sig, BeforeWrite).w, target, ctx, sig);
  }

  lemma FromWriteActive(w: World, target: CampaignState, ctx: TransitionContext, sig: Signal)
    requires FromWrite(w, target, ctx, sig).status == Done && !Over(FromWrite(w, target, ctx, sig).w)
    ensures FromWrite(w, target, ctx, sig).w.c == Enter(w.c, target, ctx)
    ensures FromWrite(w, target, ctx, sig).w.checkpoints == w.checkpoints
  {
    hide Emit, Meanwhile;
    var committed := w.(c := Committed(w.c, target, ctx, TellingOf(sig, target)));
    MeanwhileChecked(committed, sig, BeforeEvent);
    MeanwhileKeeps(committed, sig, BeforeEvent);
    var raced := Meanwhile(committed, sig, BeforeEvent);
    MeanwhileQuiet(committed, sig, BeforeEvent);
    var told := raced.w.(c := Told(raced.w.c, w.c.row.version + 1, target));
    MeanwhileChecked(told, sig, AfterEvent);
    MeanwhileKeeps(told, sig, AfterEvent);
    CancelledIsOver(raced.w);
  }

  /** A handler that is not killed comes out as it ended, whatever stage it is of: out of budget, broken, cancelled if
      it was asked to stop and noticed it, and otherwise back. */
  lemma FaultsComeOut(w: World, stage: CampaignState, env: Env)
    requires !env(w.clock).crash
    ensures var (status, fault) := (Handle(w, stage, env).status, env(w.clock).fault);
            && (status == Raised(BudgetExceeded) <==> fault == Some(OutOfBudget))
            && (status == Raised(OtherError) <==> fault == Some(Broken))
            && (status == Raised(CancelledError) <==> fault == Some(Interrupted) && FlaggedAfter(w, env))
            && (status.Raised? ==> status.exn in {BudgetExceeded, OtherError, CancelledError})
  {
    hide Said, CandidatesAfter, CoverageAfter, LanesAfter, Beat;
    BeatExactly(w, env);
    BeatKeeps(Handled(Beat(w, env).w, stage, env(w.clock)).w, env);
  }

  /** What is written for a stage that comes back: the commit of entering it unless it was entered before, the
      progress event, what its handler announces, and one checkpoint and one completed step under its name. */
  lemma StageWrites(w: World, stage: CampaignState, env: Env)
    requires !Over(w) && RunStage(w, stage, env).status == Done && !Over(RunStage(w, stage, env).w)
    ensures var after := RunStage(w, stage, env);
            var entered := if w.c.row.state == stage then w.c else Enter(w.c, stage, ContextFromDisk(w.c.row, w.disk));
            && (exists names :: after.w.c == entered.(
                  log := Said(Emit(entered.log, SearchProgress, entered.row.version, None), entered.row.version, names),
                  steps := Mark(w.c.steps, stage)))
            && after.w.checkpoints == w.checkpoints + [Checkpoint(stage, entered.row.version, ForStage(stage))]
  {
    hide Beat, Entered, ContextFromDisk, Emit, Handle, Said;
    if w.c.row.state != stage {
      var ctx := ContextFromDisk(w.c.row, w.disk);
      if Entered(w, stage, ctx, env).status == Done && !Over(Entered(w, stage, ctx, env).w) {
        EnteringWrites(w, stage, ctx, env);
      }
    }
    var open := OpenStage(w, stage, env);
    var begun := open.w.(ran := open.w.ran + [stage]);
    var handled := Handle(begun, stage, env);
    FinishWrites(handled.w, stage, env);
    HandlingWrites(begun, stage, env);
  }

  lemma FinishWrites(w: World, stage: CampaignState, env: Env)
    requires FinishStage(w, stage, env).status == Done && !Over(FinishStage(w, stage, env).w)
    ensures FinishStage(w, stage, env).w.c == w.c.(steps := Mark(Mark(w.c.steps, w.c.row.state), stage)) && !Over(w)
    ensures FinishStage(w, stage, env).w.checkpoints
            == w.checkpoints + [Checkpoint(w.c.row.state, w.c.row.version, ForStage(stage))]
  {
    hide Beat;
    CrashIsTold(w.(checkpoints := w.checkpoints + [Checkpoint(w.c.row.state, w.c.row.version, ForStage(stage))]), env);
    BeatWhileActive(Checkpointed(w, ForStage(stage)), env);
  }

  function VerdictOf(setup: Setup, w: World, forced: Option<CampaignState>): (target: CampaignState) {
    T.TerminalFor(FactsOf(setup, w), forced).target
  }

  // A campaign that is to be ended is reached: nobody cancelled, the process lives, and nothing comes before the write.
  predicate ReachesTheVerdict(w: World, env: Env) {
    !env(w.clock).crash && !FlaggedAfter(w, env) && LetsPass(env(w.clock + 1))
  }

  // Or at least it is read.
  predicate ReachesTheCheck(w: World, env: Env) {
    !env(w.clock).crash && !FlaggedAfter(w, env) && LetsRead(env(w.clock + 1))
  }

  /** _terminate on an active campaign: it records the verdict the stored facts earn exactly when it comes to it
      before a crash or a cancellation does, and the state reaches it. */
  lemma TerminateExactly(setup: Setup, w: World, forced: Option<CampaignState>, env: Env)
    requires forced in {None, Some(Partial)} && !Over(w)
    ensures var after := Terminate(setup, w, forced, env);
            var target := VerdictOf(setup, w, forced);
            && FactsOf(setup, after.w) == FactsOf(setup, w) && after.w.lanes == w.lanes
            && after.w.ran == w.ran && after.w.round == w.round && (w.flag ==> after.w.flag)
            && (if ReachesTheVerdict(w, env) && target in Forward(w.c.row.state)
                then after.w.c.row.state == target
                     && SaysWhy(after.w.c.row, T.TerminalFor(FactsOf(setup, w), forced).reason, env(w.clock).reason)
                     && after.status == (if env(w.clock + 1).crash || env(w.clock + 2).crash || env(w.clock + 3).crash
                                         then Crashed else Done)
                else && Kept(w, after.w) && after.status != Done
                     && (after.status == Crashed ==> env(w.clock).crash || env(w.clock + 1).crash)
                     && (after.status.Raised? ==>
                           || (after.status == Raised(CancelledError) && after.w.flag)
                           || after.status == EdgeRefused(w, target)
                           || (CameTooLate(after, target) && !w.flag))
                     && (after.status == Raised(CancelledError) <==> !env(w.clock).crash && FlaggedAfter(w, env))
                     && (after.status == EdgeRefused(w, target)
                         <==> ReachesTheCheck(w, env) && target !in Forward(w.c.row.state))
                     && (after.status == EdgeRefused(w, target) ==> after.w.c == w.c))
  {
    hide Beat, Record, T.TerminalFor, Forward, SaysWhy;
    VerdictTargets(FactsOf(setup, w), forced);
    BeatExactly(w, env);
    BeatKeeps(w, env);
    BeatLeavesActive(w, env);
    var beat := Beat(w, env);
    if beat.status == Done {
      if Over(beat.w) {
        RecordOver(WithReceipt(beat.w), T.TerminalFor(FactsOf(setup, beat.w), forced), env(w.clock).reason, env);
      } else {
        RecordExactly(WithReceipt(beat.w), T.TerminalFor(FactsOf(setup, beat.w), forced), env(w.clock).reason, env);
      }
    }
  }

  /** Its receipt is on disk before it tries to record the verdict, and stays there whatever becomes of it. */
  lemma ReceiptComesFirst(setup: Setup, w: World, forced: Option<CampaignState>, env: Env)
    requires forced in {None, Some(Partial)} && !Over(w)
    ensures Terminate(setup, w, forced, env).w.disk
            == if env(w.clock).crash then w.disk else w.disk.(exhaustionReceipt := Some(RECEIPT_ID))
  {
    hide Beat, Record, T.TerminalFor, Forward, SaysWhy;
    VerdictTargets(FactsOf(setup, w), forced);
    BeatExactly(w, env);
    BeatKeeps(w, env);
    BeatLeavesActive(w, env);
    var beat := Beat(w, env);
    if beat.status == Done {
      if Over(beat.w) {
        RecordOver(WithReceipt(beat.w), T.TerminalFor(FactsOf(setup, beat.w), forced), env(w.clock).reason, env);
      } else {
        RecordExactly(WithReceipt(beat.w), T.TerminalFor(FactsOf(setup, beat.w), forced), env(w.clock).reason, env);
      }
    }
  }

  lemma BeatLeavesActive(w: World, env: Env)
    requires !Over(w)
    ensures Over(Beat(w, env).w) ==> Beat(w, env).w.flag
    ensures !env(w.clock).cancel ==> Beat(w, env).w == w.(clock := w.clock + 1)
  {}

  // A campaign that was cancelled is not recorded on.
  lemma RecordOver(w: World, choice: T.Choice, reason: string, env: Env)
    requires w.flag
    ensures Record(w, choice, reason, env) == After(w, Raised(CancelledError))
  {}

  /** _fail on an active campaign: FAILED is recorded exactly when it comes to it before a crash or a cancellation. */
  lemma FailExactly(w: World, env: Env)
    requires !Over(w)
    ensures var after := RecordFailure(w, env);
            && SameElse(w, after.w) && (w.flag ==> after.w.flag) && !after.status.Raised?
            && (if ReachesTheVerdict(w, env)
                then after.w.c.row.state == Failed
                     && after.status == (if env(w.clock + 1).crash || env(w.clock + 2).crash then Crashed else Done)
                else && Kept(w, after.w)
                     && (after.status == Crashed ==> env(w.clock).crash || env(w.clock + 1).crash)
                     && (after.status == Done ==> after.w.flag))
  {
    hide Beat, TransitionCheck, FailContext, Emit, Entered, Forward, Settled;
    BeatExactly(w, env);
    BeatKeeps(w, env);
    BeatLeavesActive(w, env);
    var beat := Beat(w, env);
    if beat.status == Done && !Over(beat.w) {
      FailureSettled(beat.w, beat.w.c.row, beat.w.disk);
      EndingExactly(beat.w, Failed, FailContext(beat.w.c.row, beat.w.disk), env);
      var entered := Entered(beat.w, Failed, FailContext(beat.w.c.row, beat.w.disk), env);
      if entered.status == Done {
        BeatExactly(entered.w, env);
      }
    }
  }

  /** The except clauses, exactly: an illegal edge gets out of run if and only if a spent budget stops an
      active campaign before discovery; from discovery on it is PARTIAL, any other exception FAILED. */
  lemma StopExactly(setup: Setup, w: World, exn: Exn, env: Env)
    requires !Over(w) && exn != CancelledError
    ensures var after := Stop(setup, w, exn, env);
            && (after.status == EdgeRefused(w, Partial)
                <==> exn == BudgetExceeded && ReachesTheCheck(w, env) && !AfterDiscovery(w.c.row.state))
            && (after.status == Raised(CancelledError)
                <==> exn == BudgetExceeded && !env(w.clock).crash && FlaggedAfter(w, env))
            && (after.status.Raised? ==>
                  || after.status == Raised(CancelledError) || after.status == EdgeRefused(w, Partial)
                  || (exn == BudgetExceeded && CameTooLate(after, Partial)))
            && (after.w.c.row.state == Partial
                <==> exn == BudgetExceeded && ReachesTheVerdict(w, env) && AfterDiscovery(w.c.row.state))
            && (after.w.c.row.state == Failed <==> exn != BudgetExceeded && ReachesTheVerdict(w, env))
            && (after.status == Crashed ==> Crashes(env))
            && (after.status == EdgeRefused(w, Partial) ==> after.w.c == w.c)
            && (after.w.c.row.state == Partial || after.w.c.row.state == Failed || Kept(w, after.w))
            && (after.status == Done ==> Over(after.w) || after.w.flag)
            && (after.status == Raised(CancelledError) ==> after.w.flag)
            && after.w.ran == w.ran && after.w.round == w.round && (w.flag ==> after.w.flag)
            && after.w.disk.candidates == w.disk.candidates && after.w.lanes == w.lanes
  {
    hide Terminate, RecordFailure, T.TerminalFor, LetsPass, LetsRead, FlaggedAfter;
    TerminateExactly(setup, w, Some(Partial), env);
    FailExactly(w, env);
    ForcedVerdict(FactsOf(setup, w), w.c.row.state);
    PartialListedIffDiscovered(w.c.row.state);
  }

  lemma StopOver(setup: Setup, w: World, exn: Exn, env: Env)
    requires Over(w)
    ensures var after := Stop(setup, w, exn, env);
            && after.w.c == w.c && after.w.ran == w.ran && after.w.round == w.round && after.w.disk == w.disk
            && after.w.lanes == w.lanes && FlagKept(w, after.w, env)
            && (after.status == Done || (after.status == Crashed && Crashes(env)))
  {
    hide Beat;
    BeatExactly(w, env);
    if env(w.clock).crash {
      assert Crashes(env);
    }
    if env(w.clock).cancel {
      assert Cancels(env);
    }
  }

  // A stop that ends nothing leaves the campaign where it was.
  lemma StopKeepsSteps(setup: Setup, w: World, exn: Exn, env: Env)
    requires !Over(w) && exn != CancelledError
    ensures var after := Stop(setup, w, exn, env);
            && (!Over(after.w) ==> after.w.c.row == w.c.row && after.w.c.steps == w.c.steps)
            && (exn != BudgetExceeded && ReachesTheVerdict(w, env) ==>
                  after.status == if env(w.clock + 1).crash || env(w.clock + 2).crash then Crashed else Done)
  {
    hide Terminate, RecordFailure, T.TerminalFor, Forward, LetsPass, LetsRead, FlaggedAfter;
    TerminateExactly(setup, w, Some(Partial), env);
    ForcedVerdict(FactsOf(setup, w), w.c.row.state);
    FailExactly(w, env);
  }

  // ---------------------------------------------------------------- only a cancel() puts the flag up

  lemma EnteredFlag(w: World, target: CampaignState, ctx: TransitionContext, env: Env)
    ensures FlagKept(w, Entered(w, target, ctx, env).w, env)
  {
    hide TransitionCheck, FromWrite, Meanwhile;
    var sig, ticked := env(w.clock), w.(clock := w.clock + 1);
    MeanwhileKeeps(ticked, sig, BeforeRead);
    var read := Meanwhile(ticked, sig, BeforeRead);
    MeanwhileKeeps(read.w, sig, BeforeWrite);
    FromWriteKeeps(Meanwhile(read.w, sig, BeforeWrite).w, target, ctx, sig);
  }

  lemma CheckpointingFlag(w: World, at: Label, env: Env)
    ensures FlagKept(w, Checkpointing(w, at, env).w, env)
  {
    hide Checkpointing;
    CheckpointingKeeps(w, at, env);
  }

  lemma RecordFlag(w: World, choice: T.Choice, reason: string, env: Env)
    ensures FlagKept(w, Record(w, choice, reason, env).w, env)
  {
    hide Entered, Beat, Checkpointing, VerdictContext;
    var ctx := VerdictContext(w.c.row, w.disk, choice, reason);
    EnteredFlag(w, choice.target, ctx, env);
    var entered := Entered(w, choice.target, ctx, env);
    BeatKeeps(entered.w, env);
    CheckpointingFlag(Beat(entered.w, env).w, AtEnd, env);
  }

  lemma TerminateFlag(setup: Setup, w: World, forced: Option<CampaignState>, env: Env)
    ensures FlagKept(w, Terminate(setup, w, forced, env).w, env)
  {
    hide Record, Beat, T.TerminalFor;
    BeatKeeps(w, env);
    var beat := Beat(w, env);
    RecordFlag(WithReceipt(beat.w), T.TerminalFor(FactsOf(setup, beat.w), forced), env(w.clock).reason, env);
  }

  lemma FailureFlag(w: World, env: Env)
    ensures FlagKept(w, RecordFailure(w, env).w, env)
  {
    hide Entered, Beat, FailContext;
    BeatKeeps(w, env);
    var beat := Beat(w, env);
    EnteredFlag(beat.w, Failed, FailContext(beat.w.c.row, beat.w.disk), env);
    BeatKeeps(Entered(beat.w, Failed, FailContext(beat.w.c.row, beat.w.disk), env).w, env);
  }

  lemma StopFlag(setup: Setup, w: World, exn: Exn, env: Env)
    ensures FlagKept(w, Stop(setup, w, exn, env).w, env)
  {
    hide Terminate, RecordFailure;
    TerminateFlag(setup, w, Some(Partial), env);
    FailureFlag(w, env);
  }

  lemma TerminateExplained(setup: Setup, w: World, env: Env)
    ensures Explained(env, Terminate(setup, w, None, env))
    ensures Terminate(setup, w, None, env).status == Done ==> Over(Terminate(setup, w, None, env).w)
  {
    hide Terminate, T.TerminalFor, Forward;
    if Over(w) {
      TerminateOver(setup, w, env);
    } else {
      TerminateExactly(setup, w, None, env);
      VerdictTargets(FactsOf(setup, w), None);
      TerminateFlag(setup, w, None, env);
      if env(w.clock).crash || env(w.clock + 1).crash || env(w.clock + 2).crash || env(w.clock + 3).crash {
        assert Crashes(env);
      }
    }
  }

  lemma TerminateOver(setup: Setup, w: World, env: Env)
    requires Over(w)
    ensures Terminate(setup, w, None, env) == After(w, Done)
  {}

  // ---------------------------------------------------------------- whole runs

  // One round of the loop: steady but for the stored round, which counts the replans.
  lemma RoundSteady(setup: Setup, w: World, round: nat, env: Env)
    ensures var (end, replanned) := Round(setup, w, round, env);
            && Steady(w, end.(w := end.w.(round := w.round)), env)
            && end.w.round == (if replanned then round + 1 else w.round)
            && (replanned ==> round < setup.maxRounds && end.status == Done)
  {
    hide MayStart, Pipeline, Replan, Explained;
    MayStartKeeps(w, false, env);
    var may := MayStart(w, false, env);
    PipelineSteady(may.w, env, {});
    var pass := Pipeline(may.w, env, {});
    ReplanSteady(pass.w, round < setup.maxRounds, env);
    ExplainedWhateverTheRound(env, Replan(pass.w, round < setup.maxRounds, env).0, round + 1);
    ExplainedWhateverTheRound(env, Replan(pass.w, round < setup.maxRounds, env).0, w.round);
    ExplainedWhateverTheRound(env, pass, w.round);
    ExplainedWhateverTheRound(env, may, w.round);
    if may.status == Done {
      SteadyOn(w, may, pass, env);
    }
  }

  lemma ExplainedWhateverTheRound(env: Env, after: After, round: nat)
    requires Explained(env, after)
    ensures Explained(env, after.(w := after.w.(round := round)))
  {}

  // How the try block may leave an active campaign ended: cancelled, or with the verdict its facts earned.
  ghost predicate EndsFairly(setup: Setup, w: World, after: After) {
    Over(after.w) && !Over(w) ==>
      (after.w.c.row.state == Cancelled && after.w.flag)
      || (after.w.c.row.state == VerdictOf(setup, after.w, None) && !after.status.Raised?
          && SaysItsReason(after.w.c.row, T.TerminalFor(FactsOf(setup, after.w), None).reason))
  }

  // The same without what the lane says.
  ghost predicate SaysItsReason(row: Row, reason: T.Reason) {
    exists ofTheLane :: SaysWhy(row, reason, ofTheLane)
  }

  lemma SameFacts(setup: Setup, w: World, v: World)
    requires FactsOf(setup, w) == FactsOf(setup, v)
    ensures VerdictOf(setup, w, None) == VerdictOf(setup, v, None) && w.disk.candidates == v.disk.candidates
  {}

  lemma TerminateEndsFairly(setup: Setup, w: World, env: Env)
    ensures var after := Terminate(setup, w, None, env);
            && EndsFairly(setup, w, after) && FlagKept(w, after.w, env) && after.w.round == w.round
            && after.w.ran == w.ran
            && after.w.disk.candidates == w.disk.candidates
            && (Over(w) ==> after.w.c.row == w.c.row)
  {
    hide Terminate, T.TerminalFor, Forward, LetsPass, LetsRead, FlaggedAfter, SaysWhy;
    TerminateFlag(setup, w, None, env);
    if Over(w) {
      TerminateOver(setup, w, env);
    } else {
      TerminateExactly(setup, w, None, env);
      SameFacts(setup, w, Terminate(setup, w, None, env).w);
    }
  }

  lemma {:induction false} RoundsEnd(setup: Setup, w: World, round: nat, env: Env)
    ensures var after := Rounds(setup, w, round, env);
            && Explained(env, after) && EndsFairly(setup, w, after) && (after.status == Done ==> Over(after.w))
            && FlagKept(w, after.w, env) && (w.round <= setup.maxRounds ==> after.w.round <= setup.maxRounds)
    decreases setup.maxRounds - round
  {
    hide Round, Terminate, Explained, VerdictOf, SaysItsReason, T.TerminalFor;
    if round > setup.maxRounds {
      TerminateEndsFairly(setup, w, env);
      TerminateExplained(setup, w, env);
    } else {
      RoundSteady(setup, w, round, env);
      var (end, replanned) := Round(setup, w, round, env);
      ExplainedWhateverTheRound(env, end.(w := end.w.(round := w.round)), end.w.round);
      if end.status == Done && !Over(end.w) {
        if replanned {
          RoundsEnd(setup, end.w, round + 1, env);
        } else {
          TerminateEndsFairly(setup, end.w, env);
          TerminateExplained(setup, end.w, env);
        }
      }
    }
  }

  lemma BodyEnds(setup: Setup, w: World, env: Env)
    requires !Over(w)
    ensures var after := Body(setup, w, env);
            && Explained(env, after) && EndsFairly(setup, w, after) && (after.status == Done ==> Over(after.w))
            && FlagKept(w, after.w, env) && (w.round <= setup.maxRounds ==> after.w.round <= setup.maxRounds)
  {
    hide Wave, Rounds, Explained, VerdictOf, SaysItsReason, T.TerminalFor;
    var begun := w.(lanes := w.lanes + setup.blockedAtOpen);
    DoneIsExplained(env, begun);
    WaveSteady(begun, 1, env);
    RoundsEnd(setup, EnsureReference(begun, env).w, w.round, env);
  }

  /** How a run ends, whatever campaign it finds and whatever the environment does. It returns only with the
      campaign ended or being cancelled; it dies only in a crash; what gets out of it is a cancellation, one that
      overtook a budget stop, or a budget stop before discovery; and an end is the cancellation, the verdict the
      stored facts earn, PARTIAL for a spent budget or FAILED for another exception. */
  lemma RunEnds(setup: Setup, w: World, env: Env)
    ensures var e := Run(setup, w, env);
            && (Over(w) ==> e == Ending(w, Finished, Done))
            && (!Over(w) ==> e.cause == Body(setup, w, env).status && Explained(env, Body(setup, w, env)))
            && (e.outcome == Finished ==> Over(e.w) || e.w.flag)
            && (e.outcome == Died ==> Crashes(env))
            && (e.outcome.Escaped? ==>
                  (e.outcome.exn == CancelledError && e.w.flag && e.cause == Raised(BudgetExceeded))
                  || (e.outcome.exn == Exn.Refused(IllegalTransition(e.w.c.row.state, Partial)) && !Over(e.w)
                      && !AfterDiscovery(e.w.c.row.state) && e.cause == Raised(BudgetExceeded))
                  || (e.cause == Raised(BudgetExceeded) && CameTooLate(After(e.w, Raised(e.outcome.exn)), Partial)))
            && (e.cause == Raised(BudgetExceeded) ==> SpendsBudget(env))
            && (e.cause == Raised(OtherError) ==> Breaks(env))
            && (Overtaken(e.cause) ==> e.w.c.row.state == Cancelled && e.w.flag)
            && (Over(e.w) && !Over(w) ==>
                  || (e.w.c.row.state == Cancelled && e.w.flag)
                  || (e.w.c.row.state == VerdictOf(setup, e.w, None) && !e.cause.Raised?
                      && SaysItsReason(e.w.c.row, T.TerminalFor(FactsOf(setup, e.w), None).reason))
                  || (e.w.c.row.state == Partial && e.cause == Raised(BudgetExceeded))
                  || (e.w.c.row.state == Failed && e.cause.Raised? && e.cause != Raised(BudgetExceeded)))
            && FlagKept(w, e.w, env) && (w.round <= setup.maxRounds ==> e.w.round <= setup.maxRounds)
  {
    hide Body, Stop, VerdictOf, Explained, AfterDiscovery, ReachesTheVerdict, ReachesTheCheck, FlaggedAfter,
         SaysItsReason, T.TerminalFor;
    if !Over(w) {
      var body := Body(setup, w, env);
      if body.status.Raised? {
        StopFlag(setup, body.w, body.status.exn, env);
      }
      BodyEnds(setup, w, env);
      WhatExplainedSays(env, body);
      if body.status.Raised? && body.status != Raised(CancelledError) {
        if Over(body.w) {
          StopOver(setup, body.w, body.status.exn, env);
        } else {
          StopExactly(setup, body.w, body.status.exn, env);
        }
      }
    }
  }

  lemma WhatExplainedSays(env: Env, after: After)
    requires Explained(env, after)
    ensures after.status == Crashed ==> Crashes(env)
    ensures after.status == Raised(BudgetExceeded) ==> SpendsBudget(env)
    ensures after.status == Raised(OtherError) ==> Breaks(env)
    ensures after.status == Raised(CancelledError) ==> after.w.flag
    ensures Overtaken(after.status) ==> Over(after.w)
  {}
}
