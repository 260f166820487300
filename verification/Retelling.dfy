/** The event log over whole runs: which versions of a campaign its processes leave untold, however they are killed,
    cancelled and stopped. */
module Retelling {
  import opened Wrappers
  import opened Transitions
  import opened EventLog
  import opened Controller
  import opened Stories
  import opened Walk
  import opened Process
  import opened Resume
  import opened Runs
  import opened Restarts
  import opened Witnesses
  import opened Lifetimes
  import T = Terminal

  const OF_COMPLETE: set<string> := {"success saturation", "coverage exhausted"}

  const OF_PARTIAL: set<string> :=
    {"budget exhausted", "useful coverage remains incomplete; some sources blocked",
     "one or more lanes degraded; results are incomplete", "a planned source did not answer; coverage is incomplete"}

  // What a row says of its end.
  predicate Speaks(row: Row) {
    && (row.state == Cancelled ==> row.reason == "cancelled by operator")
    && (row.state == Failed ==> row.reason == INTERNAL_ERROR)
    && (row.state == Complete ==> row.reason in OF_COMPLETE && Given(row.exhaustionReceipt))
    && (row.state == Partial ==> row.reason in OF_PARTIAL && Given(row.exhaustionReceipt))
    && (!IsTerminal(row.state) ==> row.reason == "")
  }

  // What a context must bring along for that.
  predicate Fits(target: CampaignState, ctx: TransitionContext) {
    && (target == Cancelled ==> ctx.reason == "cancelled by operator")
    && (target == Failed ==> ctx.reason == INTERNAL_ERROR)
    && (target == Complete ==> ctx.reason in OF_COMPLETE && Given(ctx.exhaustionReceipt))
    && (target == Partial ==> ctx.reason in OF_PARTIAL && Given(ctx.exhaustionReceipt))
  }

  lemma WrittenSpeaks(row: Row, target: CampaignState, ctx: TransitionContext)
    requires Speaks(row) && Fits(target, ctx) && target in Forward(row.state)
    ensures Speaks(Written(row, target, ctx))
  {
    assert !IsTerminal(row.state);
  }

  lemma CancelledSpeaks(c: Campaign, disk: Disk, reach: Reach)
    requires Speaks(c.row) && !IsTerminal(c.row.state)
    ensures Speaks(CancelledUpTo(c, CancelContext(c.row, disk), reach).row)
  {
    hide Speaks, Controller.Written, Emit, Mark;
    CancelOpenIffActive(c.row.state, CancelContext(c.row, disk));
    WrittenSpeaks(c.row, Cancelled, CancelContext(c.row, disk));
  }

  lemma StagesFit(target: CampaignState, ctx: TransitionContext)
    requires !IsTerminal(target)
    ensures Fits(target, ctx)
  {}

  lemma FailureFits(row: Row, disk: Disk)
    ensures Fits(Failed, FailContext(row, disk))
  {}

  lemma VerdictFits(facts: T.Facts, forced: Option<CampaignState>, row: Row, disk: Disk, ofTheLane: string)
    requires forced in {None, Some(Partial)}
    ensures var choice := T.TerminalFor(facts, forced);
            Fits(choice.target, VerdictContext(row, disk, choice, ofTheLane))
  {
    hide T.AnyUnresolved, T.AnyUsable, T.Outcomes;
  }

  // The log tells the row's past as far as it was announced, and no completed step is listed twice.
  ghost predicate Intact(c: Campaign) {
    Retold(c) && NoRepeats(c.steps)
  }

  // A call has gone on from here: versions were added, and left untold only in its death between two writes, among
  // the last two; and if its contexts fit, a row that spoke still does.
  ghost predicate GoesOnIf(fits: bool, env: Env, w: World, after: After) {
    && Intact(after.w.c) && w.c.commits <= after.w.c.commits
    && (forall k :: |w.c.commits| <= k < |after.w.c.commits| && after.w.c.commits[k].telling == Never ==>
          after.status == Crashed && k + 2 >= |after.w.c.commits| && Severs(env))
    && (fits && Speaks(w.c.row) ==> Speaks(after.w.c.row))
  }

  ghost predicate GoesOn(env: Env, w: World, after: After) {
    GoesOnIf(true, env, w, after)
  }

  // The process dies between the two writes of a transition, or of a cancel().
  predicate Severed(sig: Signal) {
    sig.crash && (sig.crashAt == BeforeEvent || (sig.cancel && sig.reach == JustWritten))
  }

  ghost predicate Severs(env: Env) {
    exists t :: Severed(env(t))
  }

  lemma SignalSevers(env: Env, t: nat)
    ensures Severed(env(t)) ==> Severs(env)
  {}

  lemma GoesOnFromIf(fits: bool, env: Env, w: World, a: After, b: After)
    requires GoesOnIf(fits, env, w, a) && a.status != Crashed && GoesOnIf(fits, env, a.w, b)
    ensures GoesOnIf(fits, env, w, b)
  {
    hide Intact, Speaks;
    forall k | |w.c.commits| <= k < |a.w.c.commits| ensures b.w.c.commits[k] == a.w.c.commits[k] {}
  }

  lemma GoesOnFrom(env: Env, w: World, a: After, b: After)
    requires GoesOn(env, w, a) && a.status != Crashed && GoesOn(env, a.w, b)
    ensures GoesOn(env, w, b)
  {
    GoesOnFromIf(true, env, w, a, b);
  }

  lemma SameCampaign(env: Env, w: World, v: World, status: Status)
    requires Intact(w.c) && v.c == w.c
    ensures GoesOn(env, w, After(v, status))
  {}

  // What matters of how a call came back is whether its process died.
  lemma HoweverItCameBack(env: Env, w: World, a: After, v: World, status: Status)
    requires GoesOn(env, w, a) && v.c == a.w.c && (a.status == Crashed ==> status == Crashed)
    ensures GoesOn(env, w, After(v, status))
  {
    hide Intact;
  }

  // Nothing but the campaign itself matters of where a call begins.
  lemma WhereverItBegan(env: Env, w: World, v: World, a: After)
    requires GoesOn(env, v, a) && v.c.commits == w.c.commits && v.c.row == w.c.row
    ensures GoesOn(env, w, a)
  {
    hide Intact;
  }

  // ---------------------------------------------------------------- controller calls

  lemma MarkedTwiceIsMarkedOnce(c: Campaign, s: CampaignState)
    requires Intact(c)
    ensures Intact(c.(steps := Mark(c.steps, s)))
  {
    hide Retold;
    StepsDoNotMatter(c, Mark(c.steps, s));
  }

  lemma MarkingGoesOn(env: Env, w: World, s: CampaignState)
    requires Intact(w.c)
    ensures GoesOn(env, w, After(Marked(w, s), Done))
  {
    hide Intact, Mark;
    MarkedTwiceIsMarkedOnce(w.c, s);
  }

  lemma SayingGoesOn(env: Env, w: World, name: EventName, entered: Option<CampaignState>)
    requires Intact(w.c) && name != SearchState
    ensures GoesOn(env, w, After(Process.Announced(w, name, entered), Done))
  {
    hide Retold, NoRepeats, Speaks, Emit;
    OtherEventRetold(w.c, name, w.c.row.version, entered);
  }

  lemma {:induction false} SaidRetold(c: Campaign, version: nat, names: seq<EventName>)
    requires Retold(c)
    ensures Retold(c.(log := Said(c.log, version, names)))
    decreases |names|
  {
    hide Retold, Emit;
    if names == [] {
      assert c.(log := Said(c.log, version, names)) == c;
    } else {
      if names[0] != SearchState {
        OtherEventRetold(c, names[0], version, None);
      }
      var log := if names[0] == SearchState then c.log else Emit(c.log, names[0], version, None);
      assert names[0] == SearchState ==> c.(log := log) == c;
      SaidRetold(c.(log := log), version, names[1..]);
    }
  }

  lemma CancellingGoesOn(env: Env, w: World, reach: Reach, status: Status)
    requires Intact(w.c) && (reach == JustWritten ==> status == Crashed && Severs(env))
    ensures GoesOn(env, w, After(CancelIn(w, reach), status))
  {
    hide Retold, Speaks, CancelContext, Emit, Mark, Controller.Written;
    if !Over(w) {
      var ctx := CancelContext(w.c.row, w.disk);
      if Speaks(w.c.row) {
        CancelledSpeaks(w.c, w.disk, reach);
      }
      Stories.CancelledRetold(w.c, ctx, reach);
      CancelledSteps(w.c, ctx, reach);
      CancelledCommits(w.c, ctx, reach);
    }
  }

  lemma CancelledSteps(c: Campaign, ctx: TransitionContext, reach: Reach)
    requires NoRepeats(c.steps)
    ensures NoRepeats(CancelledUpTo(c, ctx, reach).steps)
  {}

  lemma CancelledCommits(c: Campaign, ctx: TransitionContext, reach: Reach)
    ensures CancelledUpTo(c, ctx, reach).commits
            == c.commits + [Commit(Cancelled, if reach == JustWritten then Never else AtOnce)]
  {}

  lemma BeatGoesOn(w: World, env: Env)
    requires Intact(w.c)
    ensures GoesOn(env, w, Beat(w, env))
  {
    hide Intact, CancelIn;
    SignalSevers(env, w.clock);
    var sig, ticked := env(w.clock), w.(clock := w.clock + 1);
    SameCampaign(env, w, ticked, if sig.crash then Crashed else Done);
    if sig.cancel {
      CancellingGoesOn(env, ticked, if sig.crash then sig.reach else Whole, if sig.crash then Crashed else Done);
    }
  }

  lemma MeanwhileGoesOn(env: Env, w: World, sig: Signal, at: Moment)
    requires Severed(sig) ==> Severs(env)
    requires Intact(w.c)
    ensures GoesOn(env, w, Meanwhile(w, sig, at))
  {
    hide Intact, CancelIn;
    var status := if DiesAt(sig, at) then Crashed else Done;
    SameCampaign(env, w, w, status);
    SameCampaign(env, w, w.(flag := true), status);
    if CancelsAt(sig, at) {
      CancellingGoesOn(env, w, if DiesAt(sig, at) then sig.reach else Whole, status);
    }
  }

  // ---------------------------------------------------------------- a transition

  // A process that dies before the event leaves its version untold, and perhaps that of a cancel() it died in.
  lemma KilledGoesOn(env: Env, w: World, target: CampaignState, ctx: TransitionContext, sig: Signal)
    requires Severed(sig) ==> Severs(env)
    requires Intact(w.c) && target in Forward(w.c.row.state) && DiesAt(sig, BeforeEvent)
    ensures GoesOnIf(Fits(target, ctx), env, w, FromWrite(w, target, ctx, sig))
  {
    hide Retold, Forward, CancelIn, Controller.Written, Speaks, Fits;
    UntoldRetold(w.c, target, ctx);
    if Speaks(w.c.row) && Fits(target, ctx) {
      WrittenSpeaks(w.c.row, target, ctx);
    }
    var killed := w.(c := Committed(w.c, target, ctx, Never));
    assert Intact(killed.c);
    CancelOnce(killed, sig);
    MeanwhileGoesOn(env, killed, sig, BeforeEvent);
  }

  lemma CancelOnce(w: World, sig: Signal)
    ensures |Meanwhile(w, sig, BeforeEvent).w.c.commits| <= |w.c.commits| + 1
  {}

  // One that is overtaken by a cancel() comes after it.
  lemma OvertakenGoesOn(env: Env, w: World, target: CampaignState, ctx: TransitionContext, sig: Signal)
    requires Severed(sig) ==> Severs(env)
    requires Intact(w.c) && target in Forward(w.c.row.state) && !IsTerminal(target)
    requires !DiesAt(sig, BeforeEvent) && LandsAt(sig, BeforeEvent)
    ensures GoesOnIf(Fits(target, ctx), env, w, FromWrite(w, target, ctx, sig))
  {
    hide Retold, Forward, CancelContext, Mark, Emit, IsTerminal, Controller.Written, Speaks, Fits;
    var late := Committed(w.c, target, ctx, Late);
    WrittenVerdict(w.c.row, target, ctx);
    if Speaks(w.c.row) && Fits(target, ctx) {
      WrittenSpeaks(w.c.row, target, ctx);
    }
    if Speaks(late.row) {
      CancelledSpeaks(late, w.disk, Whole);
    }
    var cancel := CancelContext(late.row, w.disk);
    OvertakenRetold(w.c, target, ctx, cancel);
    CancelledSteps(late, cancel, Whole);
    CancelledCommits(late, cancel, Whole);
    var told := Told(CancelledBy(late, cancel), w.c.row.version + 1, target);
    LandedOvertaking(w, target, ctx, sig);
    assert Intact(told);
  }

  lemma LandedOvertaking(w: World, target: CampaignState, ctx: TransitionContext, sig: Signal)
    requires !IsTerminal(target) && !DiesAt(sig, BeforeEvent) && LandsAt(sig, BeforeEvent)
    ensures var late := Committed(w.c, target, ctx, Late);
            var after := FromWrite(w, target, ctx, sig);
            after.w.c == Told(CancelledBy(late, CancelContext(late.row, w.disk)), w.c.row.version + 1, target)
            && after.status == if DiesAt(sig, AfterEvent) then Crashed else Done
  {
    hide CancelContext, EndedBy, Emit;
  }

  // Otherwise the event comes at once.
  lemma ToldGoesOn(env: Env, w: World, target: CampaignState, ctx: TransitionContext, sig: Signal)
    requires Severed(sig) ==> Severs(env)
    requires Intact(w.c) && target in Forward(w.c.row.state) && TellingOf(sig, target) == AtOnce
    ensures GoesOnIf(Fits(target, ctx), env, w, FromWrite(w, target, ctx, sig))
  {
    hide Retold, Forward, Emit, Controller.Written, Meanwhile, Speaks, Fits;
    EnterRetells(w.c, target, ctx);
    if Speaks(w.c.row) && Fits(target, ctx) {
      WrittenSpeaks(w.c.row, target, ctx);
    }
    var raced := Meanwhile(w.(c := Committed(w.c, target, ctx, AtOnce)), sig, BeforeEvent);
    NothingLands(w, target, ctx, sig);
    var told := raced.w.(c := Told(raced.w.c, w.c.row.version + 1, target));
    assert told.c == Enter(w.c, target, ctx) && Intact(told.c);
    MeanwhileGoesOn(env, told, sig, AfterEvent);
    GoesOnFromIf(Fits(target, ctx), env, w, After(told, Done), Meanwhile(told, sig, AfterEvent));
  }

  lemma NothingLands(w: World, target: CampaignState, ctx: TransitionContext, sig: Signal)
    requires TellingOf(sig, target) == AtOnce
    ensures var committed := w.(c := Committed(w.c, target, ctx, AtOnce));
            && Meanwhile(committed, sig, BeforeEvent).w.c == committed.c
            && Meanwhile(committed, sig, BeforeEvent).status == Done
  {}

  lemma EnteredGoesOn(w: World, target: CampaignState, ctx: TransitionContext, env: Env)
    requires Intact(w.c)
    ensures GoesOnIf(Fits(target, ctx), env, w, Entered(w, target, ctx, env))
  {
    hide Intact, TransitionCheck, Meanwhile, FromWrite, Forward, IsTerminal, Fits;
    SignalSevers(env, w.clock);
    var sig, ticked := env(w.clock), w.(clock := w.clock + 1);
    SameCampaign(env, w, w, Raised(CancelledError));
    MeanwhileGoesOn(env, ticked, sig, BeforeRead);
    var read := Meanwhile(ticked, sig, BeforeRead);
    WhereverItBegan(env, w, ticked, read);
    if !w.flag && read.status == Done {
      FromReadGoesOn(env, read.w, target, ctx, sig);
      GoesOnFromIf(Fits(target, ctx), env, w, read, FromRead(read.w, target, ctx, sig));
    }
  }

  lemma FromReadGoesOn(env: Env, w: World, target: CampaignState, ctx: TransitionContext, sig: Signal)
    requires Severed(sig) ==> Severs(env)
    requires Intact(w.c)
    ensures GoesOnIf(Fits(target, ctx), env, w, FromRead(w, target, ctx, sig))
  {
    hide Intact, TransitionCheck, Meanwhile, FromWrite, Forward, IsTerminal, TellingOf, Fits;
    PassIsLegal(w.c.row.state, target, ctx);
    match TransitionCheck(w.c.row.state, false, target, ctx) {
      case Fail(error) => SameCampaign(env, w, w, Raised(Thrown(error)));
      case Pass =>
        MeanwhileGoesOn(env, w, sig, BeforeWrite);
        MeanwhileKeeps(w, sig, BeforeWrite);
        var late := Meanwhile(w, sig, BeforeWrite);
        if late.status == Done {
          if late.w.c.row.version != w.c.row.version {
            HoweverItCameBack(env, w, late, late.w, Raised(Stale));
          } else {
            FromWriteGoesOn(env, late.w, target, ctx, sig);
            GoesOnFromIf(Fits(target, ctx), env, w, late, FromWrite(late.w, target, ctx, sig));
          }
        }
    }
  }

  lemma FromWriteGoesOn(env: Env, w: World, target: CampaignState, ctx: TransitionContext, sig: Signal)
    requires Severed(sig) ==> Severs(env)
    requires Intact(w.c) && target in Forward(w.c.row.state)
    ensures GoesOnIf(Fits(target, ctx), env, w, FromWrite(w, target, ctx, sig))
  {
    hide Intact, FromWrite, Forward, IsTerminal, Fits;
    if DiesAt(sig, BeforeEvent) {
      KilledGoesOn(env, w, target, ctx, sig);
    } else if LandsAt(sig, BeforeEvent) && !IsTerminal(target) {
      OvertakenGoesOn(env, w, target, ctx, sig);
    } else {
      ToldGoesOn(env, w, target, ctx, sig);
    }
  }

  lemma EnterStageGoesOn(w: World, target: CampaignState, env: Env)
    requires Intact(w.c) && !IsTerminal(target)
    ensures GoesOn(env, w, EnterStage(w, target, env))
  {
    hide Intact, Entered, ContextFromDisk;
    SameCampaign(env, w, w, Done);
    StagesFit(target, ContextFromDisk(w.c.row, w.disk));
    EnteredGoesOn(w, target, ContextFromDisk(w.c.row, w.disk), env);
  }

  // ---------------------------------------------------------------- stages

  lemma HandleGoesOn(w: World, stage: CampaignState, env: Env)
    requires Intact(w.c)
    ensures GoesOn(env, w, Handle(w, stage, env))
  {
    hide Retold, NoRepeats, Speaks, Beat, CandidatesAfter, CoverageAfter, LanesAfter, Faulted, Said;
    BeatGoesOn(w, env);
    var begun := Beat(w, env);
    if begun.status == Done {
      var handled := Handled(begun.w, stage, env(w.clock));
      SaidRetold(begun.w.c, begun.w.c.row.version, env(w.clock).said);
      GoesOnFrom(env, w, begun, handled);
      BeatGoesOn(handled.w, env);
      if handled.status == Done {
        GoesOnFrom(env, w, handled, Beat(handled.w, env));
      }
    }
  }

  lemma CheckpointingGoesOn(w: World, at: Label, env: Env)
    requires Intact(w.c)
    ensures GoesOn(env, w, Checkpointing(w, at, env))
  {
    hide Intact, Beat, Mark;
    MarkedTwiceIsMarkedOnce(w.c, w.c.row.state);
    var torn := w.(checkpoints := w.checkpoints + [Checkpoint(w.c.row.state, w.c.row.version, at)]);
    BeatGoesOn(torn, env);
    WhereverItBegan(env, w, torn, Beat(torn, env));
    BeatGoesOn(Checkpointed(w, at), env);
    WhereverItBegan(env, w, Checkpointed(w, at), Beat(Checkpointed(w, at), env));
  }

  lemma FinishGoesOn(w: World, stage: CampaignState, env: Env)
    requires Intact(w.c)
    ensures GoesOn(env, w, FinishStage(w, stage, env))
  {
    hide Intact, Checkpointing, Marked;
    CheckpointingGoesOn(w, ForStage(stage), env);
    var stored := Checkpointing(w, ForStage(stage), env);
    MarkingGoesOn(env, stored.w, stage);
    if stored.status == Done {
      GoesOnFrom(env, w, stored, After(Marked(stored.w, stage), Done));
    }
  }

  lemma HandlingGoesOn(w: World, stage: CampaignState, env: Env)
    requires Intact(w.c)
    ensures GoesOn(env, w, HandleAndFinish(w, stage, env))
  {
    hide Intact, Handle, FinishStage;
    HandleGoesOn(w, stage, env);
    var handled := Handle(w, stage, env);
    if handled.status == Done {
      FinishGoesOn(handled.w, stage, env);
      GoesOnFrom(env, w, handled, FinishStage(handled.w, stage, env));
    }
  }

  lemma OpenGoesOn(w: World, stage: CampaignState, env: Env)
    requires Intact(w.c) && !IsTerminal(stage)
    ensures GoesOn(env, w, OpenStage(w, stage, env))
  {
    hide Intact, EnterStage, Process.Announced;
    EnterStageGoesOn(w, stage, env);
    var entered := EnterStage(w, stage, env);
    SayingGoesOn(env, entered.w, SearchProgress, None);
    if entered.status == Done {
      GoesOnFrom(env, w, entered, After(Process.Announced(entered.w, SearchProgress, None), Done));
    }
  }

  // After an opening, or after entering alone, the handler.
  lemma HandledAfterOpening(w: World, open: After, stage: CampaignState, env: Env)
    requires GoesOn(env, w, open) && open.status == Done
    ensures GoesOn(env, w, HandleAndFinish(open.w.(ran := open.w.ran + [stage]), stage, env))
  {
    hide Retold, NoRepeats, Speaks, HandleAndFinish;
    var begun := open.w.(ran := open.w.ran + [stage]);
    HandlingGoesOn(begun, stage, env);
    WhereverItBegan(env, open.w, begun, HandleAndFinish(begun, stage, env));
    GoesOnFrom(env, w, open, HandleAndFinish(begun, stage, env));
  }

  lemma StageGoesOn(w: World, stage: CampaignState, env: Env)
    requires Intact(w.c) && !IsTerminal(stage)
    ensures GoesOn(env, w, RunStage(w, stage, env))
  {
    hide Intact, OpenStage, HandleAndFinish, GoesOn;
    OpenGoesOn(w, stage, env);
    if OpenStage(w, stage, env).status == Done {
      HandledAfterOpening(w, OpenStage(w, stage, env), stage, env);
    }
  }

  lemma SkipGoesOn(w: World, state: CampaignState, env: Env)
    requires Intact(w.c)
    ensures GoesOn(env, w, SkipMatching(w, state, env))
  {
    hide Intact, EnterStage, HandleAndFinish, GoesOn;
    SameCampaign(env, w, w, Done);
    EnterStageGoesOn(w, GapAnalysis, env);
    if EnterStage(w, GapAnalysis, env).status == Done {
      HandledAfterOpening(w, EnterStage(w, GapAnalysis, env), GapAnalysis, env);
    }
  }

  lemma MayStartGoesOn(w: World, timed: bool, env: Env)
    requires Intact(w.c)
    ensures GoesOn(env, w, MayStart(w, timed, env))
  {
    hide Intact, Beat, GoesOn;
    BeatGoesOn(w, env);
    var beat := Beat(w, env);
    if beat.status == Done {
      HoweverItCameBack(env, w, beat, beat.w, MayStart(w, timed, env).status);
    }
  }

  lemma {:induction false} PipelineGoesOn(w: World, env: Env, seen: set<CampaignState>)
    requires Intact(w.c)
    ensures GoesOn(env, w, Pipeline(w, env, seen))
    decreases STAGES - seen
  {
    hide Intact, NextStage, MayStart, RunStage, SkipMatching;
    SameCampaign(env, w, w, Done);
    var next := NextStage(w);
    NextIsActive(w);
    if !Over(w) && next.Some? && next.value !in seen {
      MayStartGoesOn(w, true, env);
      var may := MayStart(w, true, env);
      if may.status == Done {
        if Skips(w, next.value) {
          SkipGoesOn(may.w, w.c.row.state, env);
          GoesOnFrom(env, w, may, SkipMatching(may.w, w.c.row.state, env));
        } else {
          StageGoesOn(may.w, next.value, env);
          var run := RunStage(may.w, next.value, env);
          GoesOnFrom(env, w, may, run);
          if run.status == Done {
            PipelineGoesOn(run.w, env, seen + {next.value});
            GoesOnFrom(env, w, run, Pipeline(run.w, env, seen + {next.value}));
          }
        }
      }
    }
  }

  lemma WaveStepGoesOn(w: World, n: nat, env: Env)
    requires Intact(w.c) && 1 <= n <= 6
    ensures GoesOn(env, w, WaveStep(w, n, env))
  {
    hide Intact, Entered, HandleAndFinish, ContextFromDisk;
    SameCampaign(env, w, w, Done);
    WaveEdges(n - 1);
    StagesFit(SPINE[n], ContextFromDisk(w.c.row, w.disk));
    EnteredGoesOn(w, SPINE[n], ContextFromDisk(w.c.row, w.disk), env);
    var entered := if w.c.row.state == SPINE[n] then After(w, Done)
                   else Entered(w, SPINE[n], ContextFromDisk(w.c.row, w.disk), env);
    if entered.status == Done {
      HandlingGoesOn(entered.w, SPINE[n], env);
      GoesOnFrom(env, w, entered, HandleAndFinish(entered.w, SPINE[n], env));
    }
  }

  lemma {:induction false} WaveGoesOn(w: World, n: nat, env: Env)
    requires Intact(w.c) && 1 <= n <= 7
    ensures GoesOn(env, w, Wave(w, n, env))
    decreases 7 - n
  {
    hide Intact, WaveStep;
    SameCampaign(env, w, w, Done);
    if n < 7 {
      WaveStepGoesOn(w, n, env);
      var step := WaveStep(w, n, env);
      if step.status == Done {
        WaveGoesOn(step.w, n + 1, env);
        GoesOnFrom(env, w, step, Wave(step.w, n + 1, env));
      }
    }
  }

  // ---------------------------------------------------------------- replanning and ending

  lemma BackGoesOn(w: World, env: Env)
    requires Intact(w.c)
    ensures GoesOn(env, w, BackToDiscovery(w, env))
  {
    hide Intact, FinishStage, EnterStage;
    FinishGoesOn(w, Replanning, env);
    var finished := FinishStage(w, Replanning, env);
    if finished.status == Done {
      EnterStageGoesOn(finished.w, Discovering, env);
      GoesOnFrom(env, w, finished, EnterStage(finished.w, Discovering, env));
    }
  }

  lemma ClearedIsIntact(w: World)
    requires Intact(w.c)
    ensures Intact(Cleared(w).c)
  {
    hide Retold;
    StepsDoNotMatter(w.c, Cleared(w).c.steps);
  }

  lemma SendBackGoesOn(w: World, query: string, env: Env)
    requires Intact(w.c)
    ensures GoesOn(env, w, SendBack(w, query, env))
  {
    hide Intact, OpenStage, Beat, BackToDiscovery;
    OpenGoesOn(WithQuery(w, query), Replanning, env);
    var open := OpenStage(WithQuery(w, query), Replanning, env);
    WhereverItBegan(env, w, WithQuery(w, query), open);
    if open.status == Done {
      BeatGoesOn(open.w, env);
      var beat := Beat(open.w, env);
      GoesOnFrom(env, w, open, beat);
      if beat.status == Done {
        ClearedIsIntact(beat.w);
        BackGoesOn(Cleared(beat.w), env);
        WhereverItBegan(env, beat.w, Cleared(beat.w), BackToDiscovery(Cleared(beat.w), env));
        GoesOnFrom(env, w, beat, BackToDiscovery(Cleared(beat.w), env));
      }
    }
  }

  lemma ReplanGoesOn(w: World, mayGoOn: bool, env: Env)
    requires Intact(w.c)
    ensures GoesOn(env, w, Replan(w, mayGoOn, env).0)
  {
    hide Intact, Beat, SendBack;
    SameCampaign(env, w, w, Done);
    BeatGoesOn(w, env);
    var beat := Beat(w, env);
    if beat.status == Done {
      SendBackGoesOn(beat.w, env(w.clock).query, env);
      GoesOnFrom(env, w, beat, SendBack(beat.w, env(w.clock).query, env));
    }
  }

  lemma RecordGoesOn(w: World, choice: T.Choice, reason: string, env: Env)
    requires Intact(w.c) && Fits(choice.target, VerdictContext(w.c.row, w.disk, choice, reason))
    ensures GoesOn(env, w, Record(w, choice, reason, env))
  {
    hide Intact, Entered, Beat, Checkpointing, Process.Announced, VerdictContext;
    var ctx := VerdictContext(w.c.row, w.disk, choice, reason);
    EnteredGoesOn(w, choice.target, ctx, env);
    var entered := Entered(w, choice.target, ctx, env);
    if entered.status == Done {
      BeatGoesOn(entered.w, env);
      var committed := Beat(entered.w, env);
      GoesOnFrom(env, w, entered, committed);
      if committed.status == Done {
        CheckpointingGoesOn(committed.w, AtEnd, env);
        var stored := Checkpointing(committed.w, AtEnd, env);
        GoesOnFrom(env, w, committed, stored);
        if stored.status == Done {
          SayingGoesOn(env, stored.w, SearchComplete, Some(choice.target));
          GoesOnFrom(env, w, stored, After(Process.Announced(stored.w, SearchComplete, Some(choice.target)), Done));
        }
      }
    }
  }

  lemma TerminateGoesOn(setup: Setup, w: World, forced: Option<CampaignState>, env: Env)
    requires Intact(w.c) && forced in {None, Some(Partial)}
    ensures GoesOn(env, w, Terminate(setup, w, forced, env))
  {
    hide Intact, Beat, Record, T.TerminalFor;
    SameCampaign(env, w, w, Done);
    BeatGoesOn(w, env);
    var beat := Beat(w, env);
    if beat.status == Done {
      var choice := T.TerminalFor(FactsOf(setup, beat.w), forced);
      VerdictFits(FactsOf(setup, beat.w), forced, beat.w.c.row, WithReceipt(beat.w).disk, env(w.clock).reason);
      RecordGoesOn(WithReceipt(beat.w), choice, env(w.clock).reason, env);
      WhereverItBegan(env, beat.w, WithReceipt(beat.w), Record(WithReceipt(beat.w), choice, env(w.clock).reason, env));
      GoesOnFrom(env, w, beat, Record(WithReceipt(beat.w), choice, env(w.clock).reason, env));
    }
  }

  lemma FailureGoesOn(w: World, env: Env)
    requires Intact(w.c)
    ensures GoesOn(env, w, RecordFailure(w, env))
  {
    hide Intact, Beat, Entered, Process.Announced, FailContext;
    BeatGoesOn(w, env);
    var beat := Beat(w, env);
    if beat.status == Done && !Over(beat.w) {
      var ctx := FailContext(beat.w.c.row, beat.w.disk);
      FailureFits(beat.w.c.row, beat.w.disk);
      EnteredGoesOn(beat.w, Failed, ctx, env);
      var entered := Entered(beat.w, Failed, ctx, env);
      GoesOnFrom(env, w, beat, entered);
      if entered.status.Raised? {
        HoweverItCameBack(env, w, entered, entered.w, Done);
      } else if entered.status == Done {
        BeatGoesOn(entered.w, env);
        var committed := Beat(entered.w, env);
        GoesOnFrom(env, w, entered, committed);
        SayingGoesOn(env, committed.w, SearchComplete, Some(Failed));
        if committed.status == Done {
          GoesOnFrom(env, w, committed, After(Process.Announced(committed.w, SearchComplete, Some(Failed)), Done));
        }
      }
    }
  }

  // ---------------------------------------------------------------- runs

  lemma RoundGoesOn(setup: Setup, w: World, round: nat, env: Env)
    requires Intact(w.c)
    ensures GoesOn(env, w, Round(setup, w, round, env).0)
  {
    hide Intact, MayStart, Pipeline, Replan;
    MayStartGoesOn(w, false, env);
    var may := MayStart(w, false, env);
    if may.status == Done {
      PipelineGoesOn(may.w, env, {});
      var pass := Pipeline(may.w, env, {});
      GoesOnFrom(env, w, may, pass);
      if pass.status == Done {
        ReplanGoesOn(pass.w, round < setup.maxRounds, env);
        var end := Replan(pass.w, round < setup.maxRounds, env).0;
        GoesOnFrom(env, w, pass, end);
        HoweverItCameBack(env, w, end, end.w.(round := round + 1), end.status);
      }
    }
  }

  lemma WentOnIntact(env: Env, w: World, after: After)
    requires GoesOn(env, w, after)
    ensures Intact(after.w.c)
  {}

  lemma {:induction false} RoundsGoOn(setup: Setup, w: World, round: nat, env: Env)
    requires Intact(w.c)
    ensures GoesOn(env, w, Rounds(setup, w, round, env))
    decreases setup.maxRounds - round
  {
    hide Intact, Round, Terminate, GoesOn;
    if round > setup.maxRounds {
      TerminateGoesOn(setup, w, None, env);
    } else {
      RoundGoesOn(setup, w, round, env);
      var (end, replanned) := Round(setup, w, round, env);
      WentOnIntact(env, w, end);
      if end.status == Done && !Over(end.w) {
        if replanned {
          RoundsGoOn(setup, end.w, round + 1, env);
          GoesOnFrom(env, w, end, Rounds(setup, end.w, round + 1, env));
        } else {
          TerminateGoesOn(setup, end.w, None, env);
          GoesOnFrom(env, w, end, Terminate(setup, end.w, None, env));
        }
      }
    }
  }

  lemma BodyGoesOn(setup: Setup, w: World, env: Env)
    requires Intact(w.c)
    ensures GoesOn(env, w, Body(setup, w, env))
  {
    hide Intact, Wave, Rounds;
    var begun := w.(lanes := w.lanes + setup.blockedAtOpen);
    WaveGoesOn(begun, 1, env);
    SameCampaign(env, w, begun, Done);
    WhereverItBegan(env, w, begun, Wave(begun, 1, env));
    var referenced := EnsureReference(begun, env);
    if referenced.status == Done && !Over(referenced.w) {
      RoundsGoOn(setup, referenced.w, w.round, env);
      GoesOnFrom(env, w, referenced, Rounds(setup, referenced.w, w.round, env));
    }
  }

  // A run, seen from its end.
  function EndOf(e: Ending): (after: After) {
    After(e.w, if e.outcome == Died then Crashed else Done)
  }

  lemma RunGoesOn(setup: Setup, w: World, env: Env)
    requires Intact(w.c)
    ensures GoesOn(env, w, EndOf(Run(setup, w, env)))
  {
    hide Intact, Body, Stop, GoesOn;
    SameCampaign(env, w, w, Done);
    BodyGoesOn(setup, w, env);
    var body := Body(setup, w, env);
    if body.status == Done || body.status == Raised(CancelledError) || body.status == Crashed {
      HoweverItCameBack(env, w, body, body.w, if body.status == Crashed then Crashed else Done);
    } else {
      StopGoesOn(setup, body.w, body.status.exn, env, w, body);
      var stopped := Stop(setup, body.w, body.status.exn, env);
      HoweverItCameBack(env, w, stopped, stopped.w, if stopped.status == Crashed then Crashed else Done);
    }
  }

  lemma StopGoesOn(setup: Setup, v: World, exn: Exn, env: Env, w: World, body: After)
    requires GoesOn(env, w, body) && body.w == v && body.status != Crashed
    ensures GoesOn(env, w, Stop(setup, v, exn, env))
  {
    hide Retold, NoRepeats, Speaks, Terminate, RecordFailure;
    TerminateGoesOn(setup, v, Some(Partial), env);
    FailureGoesOn(v, env);
    GoesOnFrom(env, w, body, Stop(setup, v, exn, env));
  }
}
