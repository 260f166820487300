/** Where the runs of Process leave a campaign, however they are cut short: every end has its cause in
    the environment, a killed campaign is picked up at its first uncompleted stage, and a replanned one
    is never worked on again. */
module Resume {
  import opened Wrappers
  import opened Transitions
  import opened EventLog
  import opened Controller
  import opened Walk
  import opened Process
  import T = Terminal

  // ---------------------------------------------------------------- why a call did not come back

  ghost predicate Crashes(env: Env) {
    exists t :: env(t).crash
  }

  ghost predicate Cancels(env: Env) {
    exists t :: env(t).cancel
  }

  ghost predicate SpendsBudget(env: Env) {
    exists t :: env(t).wallExceeded || env(t).fault == Some(OutOfBudget)
  }

  ghost predicate Breaks(env: Env) {
    exists t :: env(t).fault == Some(Broken)
  }

  // Every way of not coming back has its reason: a crash, a spent budget, a cancellation, a broken
  // handler, or a guard that is false of what is stored.
  ghost predicate Explained(env: Env, after: After) {
    match after.status
    case Done => true
    case Crashed => Crashes(env)
    case Raised(BudgetExceeded) => SpendsBudget(env)
    case Raised(CancelledError) => after.w.flag
    case Raised(OtherError) => Breaks(env)
    case Raised(Stale) => Over(after.w) && after.w.flag && Cancels(env)
    case Raised(Refused(IllegalTransition(source, target))) =>
      source == after.w.c.row.state && (IsTerminal(source) || target !in Forward(source))
    case Raised(Refused(InvariantViolation(s))) => !GuardHolds(s, ContextFromDisk(after.w.c.row, after.w.disk))
  }

  // A flag that is up stays up, and only a cancel() puts it up.
  ghost predicate FlagKept(w: World, v: World, env: Env) {
    (w.flag ==> v.flag) && (v.flag ==> w.flag || Cancels(env))
  }

  // What beats and handlers leave alone: row and steps, unless the campaign was cancelled.
  predicate Kept(w: World, v: World) {
    && (w.flag ==> v.flag) && v.round == w.round
    && ((v.c.row == w.c.row && v.c.steps == w.c.steps) || (v.c.row.state == Cancelled && v.flag && !Over(w)))
  }

  // A cancel() moves the row, the steps, the log and the checkpoints of an active campaign, and the flag.
  lemma CancelKeeps(w: World, reach: Reach)
    ensures var v := CancelIn(w, reach);
            && v.flag && Over(v) && v.(c := w.c, flag := w.flag, checkpoints := w.checkpoints) == w
            && (if Over(w) then v.c == w.c else v.c.row.state == Cancelled && v.c.row.version == w.c.row.version + 1)
  {}

  lemma BeatKeeps(w: World, env: Env)
    ensures var after := Beat(w, env);
            && Kept(w, after.w) && FlagKept(w, after.w, env) && Explained(env, after)
            && after.w.disk == w.disk && after.w.lanes == w.lanes && after.w.ran == w.ran
            && after.w.clock == w.clock + 1
            && (after.status == Done || after.status == Crashed)
  {
    hide CancelIn;
    CancelKeeps(w.(clock := w.clock + 1), if env(w.clock).crash then env(w.clock).reach else Whole);
    if env(w.clock).crash {
      assert Crashes(env);
    }
  }

  lemma HandleKeeps(w: World, stage: CampaignState, env: Env)
    ensures var after := Handle(w, stage, env);
            && Kept(w, after.w) && FlagKept(w, after.w, env) && Explained(env, after)
            && after.w.ran == w.ran && (T.Routing in after.w.lanes <==> T.Routing in w.lanes)
            && !IllegalRaise(after.status) && !Overtaken(after.status)
            && (!IsEarly(stage) ==> HasCandidates(after.w) == HasCandidates(w))
  {
    hide Beat, Said;
    var begun := Beat(w, env);
    BeatKeeps(w, env);
    if begun.status == Done {
      var handled := Handled(begun.w, stage, env(w.clock));
      BeatKeeps(handled.w, env);
    }
  }

  // A checkpoint marks the state the row shows, unless the process dies in it.
  lemma CheckpointingKeeps(w: World, at: Label, env: Env)
    ensures var after := Checkpointing(w, at, env);
            && Explained(env, after) && (after.status == Done || after.status == Crashed)
            && FlagKept(w, after.w, env) && after.w.round == w.round
            && after.w.disk == w.disk && after.w.lanes == w.lanes && after.w.ran == w.ran
            && after.w.clock == w.clock + 1
            && (if Over(after.w) && !Over(w) then after.w.c.row.state == Cancelled && after.w.flag
                else && after.w.c.row == w.c.row
                     && (after.w.c.steps == Mark(w.c.steps, w.c.row.state)
                         || (after.w.c.steps == w.c.steps && after.status == Crashed)))
  {
    hide Beat, Explained;
    var torn := w.(checkpoints := w.checkpoints + [Checkpoint(w.c.row.state, w.c.row.version, at)]);
    BeatKeeps(torn, env);
    BeatKeeps(Checkpointed(w, at), env);
    CrashIsTold(torn, env);
  }

  lemma CrashIsTold(w: World, env: Env)
    ensures Beat(w, env).status == if env(w.clock).crash then Crashed else Done
  {}

  lemma FinishKeeps(w: World, stage: CampaignState, env: Env)
    ensures var after := FinishStage(w, stage, env);
            && Explained(env, after) && (after.status == Done || after.status == Crashed)
            && FlagKept(w, after.w, env) && after.w.round == w.round
            && after.w.disk == w.disk && after.w.lanes == w.lanes && after.w.ran == w.ran
            && (if Over(after.w) && !Over(w) then after.w.c.row.state == Cancelled && after.w.flag
                else && after.w.c.row == w.c.row
                     && (w.c.row.state == stage ==>
                           after.w.c.steps == Mark(w.c.steps, stage)
                           || (after.w.c.steps == w.c.steps && after.status == Crashed)))
  {
    hide Checkpointing;
    CheckpointingKeeps(w, ForStage(stage), env);
  }

  lemma HandleAndFinishKeeps(w: World, stage: CampaignState, env: Env)
    requires w.c.row.state == stage && !Over(w)
    ensures var after := HandleAndFinish(w, stage, env);
            && Explained(env, after) && !IllegalRaise(after.status) && !Overtaken(after.status)
            && FlagKept(w, after.w, env) && after.w.round == w.round && after.w.ran == w.ran
            && (T.Routing in after.w.lanes <==> T.Routing in w.lanes)
            && (!IsEarly(stage) ==> HasCandidates(after.w) == HasCandidates(w))
            && (if Over(after.w) then after.w.c.row.state == Cancelled && after.w.flag
                else && after.w.c.row == w.c.row
                     && (after.w.c.steps == Mark(w.c.steps, stage)
                         || (after.w.c.steps == w.c.steps && after.status != Done)))
  {
    hide Handle, FinishStage, Explained, Mark, IsEarly;
    HandleKeeps(w, stage, env);
    FinishKeeps(Handle(w, stage, env).w, stage, env);
  }

  // What a refusal says is true.
  lemma RefusalIsTrue(state: CampaignState, cancelRequested: bool, target: CampaignState, ctx: TransitionContext)
    ensures match TransitionCheck(state, cancelRequested, target, ctx)
            case Pass => true
            case Fail(CampaignCancelled) => cancelRequested
            case Fail(Refused(IllegalTransition(s, t))) =>
              s == state && t == target && (IsTerminal(s) || t !in Forward(s))
            case Fail(Refused(InvariantViolation(t))) => t == target && !GuardHolds(t, ctx)
  {
    hide GuardHolds, Forward, IsTerminal;
    if target == Cancelled || !cancelRequested {
      if AssertLegal(state, target).Pass? {
        assert AssertInvariants(target, ctx)
               == if GuardHolds(target, ctx) then Pass else Fail(InvariantViolation(target));
      } else {
        assert TransitionCheck(state, cancelRequested, target, ctx)
               == Fail(Error.Refused(IllegalTransition(state, target)));
      }
    }
  }

  // What can come in between the writes of a transition.
  lemma MeanwhileKeeps(w: World, sig: Signal, at: Moment)
    ensures var after := Meanwhile(w, sig, at);
            && Kept(w, after.w) && (after.w.flag ==> w.flag || sig.cancel)
            && after.w.(c := w.c, flag := w.flag, checkpoints := w.checkpoints) == w
            && after.status == (if DiesAt(sig, at) then Crashed else Done)
            && (if after.w.c.row.version == w.c.row.version then after.w.c == w.c
                else !Over(w) && after.w.c.row.state == Cancelled && after.w.flag && sig.cancel)
  {
    hide CancelIn;
    CancelKeeps(w, if DiesAt(sig, at) then sig.reach else Whole);
  }

  // The campaign has come to this state, by one transition.
  predicate CameTo(w: World, v: World, target: CampaignState) {
    && v.c.row.state == target && v.c.steps == w.c.steps && v.round == w.round && v.c.row.version == w.c.row.version + 1
  }

  // What a transition leaves alone.
  predicate SameElse(w: World, v: World) {
    v.disk == w.disk && v.lanes == w.lanes && v.ran == w.ran && v.round == w.round
  }

  // From its write on a transition has happened, unless a cancel() ends the campaign right after it.
  lemma FromWriteKeeps(w: World, target: CampaignState, ctx: TransitionContext, sig: Signal)
    ensures var after := FromWrite(w, target, ctx, sig);
            && SameElse(w, after.w) && (after.w.flag ==> w.flag || sig.cancel) && (w.flag ==> after.w.flag)
            && (CameTo(w, after.w, target)
                || (!IsTerminal(target) && after.w.c.row.state == Cancelled && after.w.flag && sig.cancel))
            && after.status == (if DiesAt(sig, BeforeEvent) || DiesAt(sig, AfterEvent) then Crashed else Done)
            && after.w.clock == w.clock
            && (IsTerminal(target) ==> after.w.c.row == Controller.Written(w.c.row, target, ctx))
  {
    hide Meanwhile, TellingOf, Emit, IsTerminal;
    var committed := w.(c := Committed(w.c, target, ctx, TellingOf(sig, target)));
    MeanwhileKeeps(committed, sig, BeforeEvent);
    var raced := Meanwhile(committed, sig, BeforeEvent);
    var told := raced.w.(c := Told(raced.w.c, w.c.row.version + 1, target));
    MeanwhileKeeps(told, sig, AfterEvent);
    CancelledIsOver(raced.w);
  }

  lemma CancelledIsOver(w: World)
    ensures w.c.row.state == Cancelled ==> Over(w)
  {}

  /** transition(), whatever comes in between: it has happened, or the campaign was cancelled, or nothing was
      changed and the reason given is the case. */
  lemma EnteredKeeps(w: World, target: CampaignState, env: Env)
    ensures var after := Entered(w, target, ContextFromDisk(w.c.row, w.disk), env);
            && Explained(env, after) && FlagKept(w, after.w, env) && SameElse(w, after.w)
            && (Kept(w, after.w)
                || (!Over(w) && (CameTo(w, after.w, target)
                                 || (!IsTerminal(target) && after.w.c.row.state == Cancelled && after.w.flag))))
            && (after.status == Done ==>
                  && !w.flag && !Over(w) && target in Forward(w.c.row.state)
                  && (CameTo(w, after.w, target)
                      || (!IsTerminal(target) && after.w.c.row.state == Cancelled && after.w.flag)))
            && (after.status.Raised? ==> Kept(w, after.w))
            && (IllegalRaise(after.status) ==>
                  && after.status == Raised(Exn.Refused(IllegalTransition(w.c.row.state, target)))
                  && target !in Forward(w.c.row.state) && !w.flag && after.w.c == w.c)
            && (Overtaken(after.status) ==> Over(after.w))
            && (target !in Forward(w.c.row.state) ==> Kept(w, after.w))
            && w.clock <= after.w.clock <= w.clock + 1
  {
    hide TransitionCheck, GuardHolds, Forward, IsTerminal, ContextFromDisk, FromWrite, Meanwhile, Explained;
    var ctx, sig := ContextFromDisk(w.c.row, w.disk), env(w.clock);
    if w.flag {
      FlagExplains(env, w);
    } else {
      var ticked := w.(clock := w.clock + 1);
      MeanwhileKeeps(ticked, sig, BeforeRead);
      var read := Meanwhile(ticked, sig, BeforeRead);
      SignalExplains(env, w.clock, read);
      if read.status == Done {
        FromReadKeeps(ticked, read.w, target, ctx, env, w.clock);
      }
    }
  }

  lemma FlagExplains(env: Env, w: World)
    requires w.flag
    ensures Explained(env, After(w, Raised(CancelledError)))
  {}

  // A signal of a cancel() or of a crash is one the environment gives.
  lemma SignalExplains(env: Env, t: nat, after: After)
    ensures env(t).cancel ==> Cancels(env)
    ensures env(t).crash ==> Crashes(env)
    ensures after.status == Done || (after.status == Crashed && env(t).crash) ==> Explained(env, after)
  {}

  lemma FromReadKeeps(w: World, read: World, target: CampaignState, ctx: TransitionContext, env: Env, t: nat)
    requires read.(c := w.c, flag := w.flag, checkpoints := w.checkpoints) == w && !w.flag && Kept(w, read)
    requires ctx == ContextFromDisk(w.c.row, w.disk) && (read.flag ==> env(t).cancel)
    requires if read.c.row.version == w.c.row.version then read.c == w.c
             else !Over(w) && read.c.row.state == Cancelled && read.flag
    ensures var after := FromRead(read, target, ctx, env(t));
            && Explained(env, after) && FlagKept(w, after.w, env) && SameElse(w, after.w) && after.w.clock == w.clock
            && (Kept(w, after.w)
                || (!Over(w) && (CameTo(w, after.w, target)
                                 || (!IsTerminal(target) && after.w.c.row.state == Cancelled && after.w.flag))))
            && (after.status == Done ==>
                  && !Over(w) && target in Forward(w.c.row.state)
                  && (CameTo(w, after.w, target)
                      || (!IsTerminal(target) && after.w.c.row.state == Cancelled && after.w.flag)))
            && (after.status.Raised? ==> Kept(w, after.w))
            && (IllegalRaise(after.status) ==>
                  && after.status == Raised(Exn.Refused(IllegalTransition(w.c.row.state, target)))
                  && target !in Forward(w.c.row.state) && after.w.c == w.c)
            && (target !in Forward(w.c.row.state) ==> Kept(w, after.w))
            && (Overtaken(after.status) ==> Over(after.w))
  {
    hide TransitionCheck, GuardHolds, Forward, ContextFromDisk, FromWrite, Meanwhile, Explained;
    var sig := env(t);
    RefusalIsTrue(read.c.row.state, false, target, ctx);
    PassIsLegal(read.c.row.state, target, ctx);
    SignalExplains(env, t, After(read, Done));
    match TransitionCheck(read.c.row.state, false, target, ctx) {
      case Fail(error) =>
        RefusalExplains(env, w, read, target, ctx, error);
      case Pass =>
        MeanwhileKeeps(read, sig, BeforeWrite);
        var late := Meanwhile(read, sig, BeforeWrite);
        SignalExplains(env, t, late);
        if late.status == Done {
          if late.w.c.row.version != read.c.row.version {
            StaleExplains(env, late.w);
          } else {
            FromWriteKeeps(late.w, target, ctx, sig);
            SignalExplains(env, t, FromWrite(late.w, target, ctx, sig));
          }
        }
    }
  }

  lemma StaleExplains(env: Env, w: World)
    requires w.c.row.state == Cancelled && w.flag && Cancels(env)
    ensures Explained(env, After(w, Raised(Stale)))
  {}

  lemma PassIsLegal(state: CampaignState, target: CampaignState, ctx: TransitionContext)
    ensures TransitionCheck(state, false, target, ctx) == Pass ==> !IsTerminal(state) && target in Forward(state)
  {}

  lemma RefusalExplains(env: Env, w: World, read: World, target: CampaignState, ctx: TransitionContext, error: Error)
    requires TransitionCheck(read.c.row.state, false, target, ctx) == Fail(error)
    requires ctx == ContextFromDisk(w.c.row, w.disk) && read.disk == w.disk
    requires read.c == w.c || read.c.row.state == Cancelled
    ensures Explained(env, After(read, Raised(Thrown(error))))
    ensures error.Refused?
    ensures error.refusal.IllegalTransition? ==>
              error.refusal == IllegalTransition(read.c.row.state, target)
              && (IsTerminal(read.c.row.state) || target !in Forward(read.c.row.state))
  {
    hide GuardHolds, Forward, ContextFromDisk;
    RefusalIsTrue(read.c.row.state, false, target, ctx);
    if read.c.row.state == Cancelled {
      assert error == Error.Refused(IllegalTransition(Cancelled, target));
    }
  }

  lemma EnterKeeps(w: World, target: CampaignState, env: Env)
    requires !IsTerminal(target)
    ensures var after := EnterStage(w, target, env);
            && Explained(env, after) && FlagKept(w, after.w, env) && SameElse(w, after.w)
            && (if Over(after.w) && !Over(w) then after.w.c.row.state == Cancelled && after.w.flag
                else && after.w.c.steps == w.c.steps
                     && (after.w.c.row == w.c.row || (after.w.c.row.state == target && !after.status.Raised?))
                     && (after.status == Done && !Over(w) ==> after.w.c.row.state == target))
            && (IllegalRaise(after.status) ==>
                  && after.status == Raised(Exn.Refused(IllegalTransition(w.c.row.state, target)))
                  && w.c.row.state != target && target !in Forward(w.c.row.state) && !w.flag && after.w.c == w.c)
            && (Overtaken(after.status) ==> Over(after.w))
            && (Over(w) ==> after == After(w, Done))
            && (after.status == Done && !Over(w) && w.c.row.state != target ==> !w.flag)
  {
    hide Explained, Entered, ContextFromDisk, Forward;
    EnteredKeeps(w, target, env);
    DoneIsExplained(env, w);
  }

  lemma DoneIsExplained(env: Env, w: World)
    ensures Explained(env, After(w, Done))
  {}

  // ---------------------------------------------------------------- one stage

  // The first k stages of a pass are behind the campaign.
  ghost predicate AtStage(w: World, k: nat) {
    At(w.c.row.state, w.c.steps, Plan(w), k)
  }

  // Ending is left to cancel() while a pass is walked.
  predicate EndsOnlyCancelled(w: World, v: World) {
    Over(v) && !Over(w) ==> v.c.row.state == Cancelled && v.flag
  }

  // What every call of a pass leaves alone, and why it may not have come back.
  ghost predicate Steady(w: World, after: After, env: Env) {
    && Explained(env, after) && EndsOnlyCancelled(w, after.w) && (Over(w) ==> after.w.c.row == w.c.row)
    && FlagKept(w, after.w, env) && after.w.round == w.round
    && (T.Routing in after.w.lanes <==> T.Routing in w.lanes)
  }

  lemma OpenKeeps(w: World, stage: CampaignState, env: Env)
    requires !IsTerminal(stage)
    ensures var after := OpenStage(w, stage, env);
            && Steady(w, after, env) && SameElse(w, after.w)
            && (Over(after.w) || (&& after.w.c.steps == w.c.steps
                                  && (after.w.c.row == w.c.row || after.w.c.row.state == stage)
                                  && (after.status == Done ==> after.w.c.row.state == stage)))
            && (IllegalRaise(after.status) ==>
                  && after.status == Raised(Exn.Refused(IllegalTransition(w.c.row.state, stage)))
                  && w.c.row.state != stage && stage !in Forward(w.c.row.state) && !w.flag && after.w.c == w.c)
            && (Overtaken(after.status) ==> Over(after.w))
            && (after.status.Raised? && !Over(after.w) ==> after.w.c.row == w.c.row)
  {
    hide EnterStage, ContextFromDisk, Given, GuardHolds, Emit, Explained, Forward, IsTerminal;
    EnterKeeps(w, stage, env);
    DoneIsExplained(env, OpenStage(w, stage, env).w);
  }

  /** A stage that is due is never refused as an illegal edge, and wherever it is cut short the campaign
      stands before it or after it. */
  lemma StageResumes(w: World, k: nat, env: Env)
    requires AtStage(w, k) && k < |Plan(w)|
    ensures var after := RunStage(w, Plan(w)[k], env);
            && Steady(w, after, env) && !IllegalRaise(after.status) && (Overtaken(after.status) ==> Over(after.w))
            && (Over(after.w) || AtStage(after.w, k + 1) || (AtStage(after.w, k) && after.status != Done))
            && (if after.w.ran == w.ran then after.status != Done && HasCandidates(after.w) == HasCandidates(w)
                                             && (Over(after.w) || AtStage(after.w, k))
                else after.w.ran == w.ran + [Plan(w)[k]])
            && (!IsEarly(Plan(w)[k]) ==> HasCandidates(after.w) == HasCandidates(w))
            && (after.status == Done && !Over(after.w) ==>
                  after.w.c.steps == Mark(w.c.steps, Plan(w)[k]) && after.w.c.row.state == Plan(w)[k])
  {
    hide At, Sequence, OpenStage, HandleAndFinish, Explained, Mark, IsEarly, Forward, IsTerminal;
    var stage := Plan(w)[k];
    NextEdge(w.c.row.state, w.c.steps, HasCandidates(w), k);
    OpenKeeps(w, stage, env);
    var open := OpenStage(w, stage, env);
    if open.status == Done && !Over(open.w) {
      var begun := open.w.(ran := open.w.ran + [stage]);
      HandleAndFinishKeeps(begun, stage, env);
      var after := HandleAndFinish(begun, stage, env);
      if !Over(after.w) {
        HandlingAdvances(stage, w.c.steps, HasCandidates(w), HasCandidates(after.w), k);
      }
    } else if open.status == Done {
      OverIsHandled(open.w.(ran := open.w.ran + [stage]), stage, env);
    }
  }

  // A handler on a campaign that was just cancelled changes nothing of its row.
  lemma OverIsHandled(w: World, stage: CampaignState, env: Env)
    requires Over(w)
    ensures var after := HandleAndFinish(w, stage, env);
            && Explained(env, after) && !IllegalRaise(after.status) && !Overtaken(after.status)
            && after.w.c.row == w.c.row && FlagKept(w, after.w, env) && after.w.round == w.round && after.w.ran == w.ran
            && (T.Routing in after.w.lanes <==> T.Routing in w.lanes)
            && (!IsEarly(stage) ==> HasCandidates(after.w) == HasCandidates(w))
  {
    hide Handle, FinishStage, Explained, Mark, IsEarly;
    HandleKeeps(w, stage, env);
    FinishKeeps(Handle(w, stage, env).w, stage, env);
  }

  // ---------------------------------------------------------------- one pass

  lemma MayStartKeeps(w: World, timed: bool, env: Env)
    ensures var after := MayStart(w, timed, env);
            && Steady(w, after, env) && !IllegalRaise(after.status) && !Overtaken(after.status) && Kept(w, after.w)
            && after.w.disk == w.disk && after.w.lanes == w.lanes && after.w.ran == w.ran
            && (after.status == Done ==> after.w == w.(clock := w.clock + 1) && !w.flag)
            && (after.status == Raised(BudgetExceeded) ==> timed)
  {
    hide Beat;
    BeatKeeps(w, env);
    BeatUncancelled(w, env);
    if env(w.clock).wallExceeded {
      assert SpendsBudget(env);
    }
  }

  lemma BeatUncancelled(w: World, env: Env)
    ensures !Beat(w, env).w.flag ==> Beat(w, env).w == w.(clock := w.clock + 1)
  {
    hide CancelledUpTo, CancelContext;
  }

  // The stage picked is the k-th when the first k are completed, and none is left at the end.
  lemma NextStageAt(w: World, k: nat)
    requires AtStage(w, k)
    ensures !Over(w) && k <= |Plan(w)|
    ensures NextStage(w) == if k < |Plan(w)| then Some(Plan(w)[k]) else None
    ensures k < |Plan(w)| ==> Plan(w)[k] !in w.c.steps
  {
    var stages := Plan(w);
    SequenceIsPlan(HasCandidates(w));
    StandingIsActive(w.c.row.state, stages, k);
    RemainingAt(w.c.row.state, w.c.steps, stages, k);
  }

  // Ended, sent back by a replan, between two stages of a pass, inside the reference wave, or past the
  // matching stages without having handled them.
  datatype Place = Ended | SentBack | Stage(k: nat) | InReference(i: nat) | Skipped

  ghost predicate Standing(w: World, p: Place) {
    match p
    case Ended => Over(w)
    case SentBack =>
      w.c.row.state == Discovering && PlanningQueries in w.c.steps && PlanningSources !in w.c.steps
    case Stage(k) => AtStage(w, k)
    case InReference(i) => InWave(w.c.row.state, w.c.steps, i) && PlanningQueries !in w.c.steps
    case Skipped =>
      && (w.c.row.state == GapAnalysis || w.c.row.state == Replanning) && HasCandidates(w)
      && PlanningQueries in w.c.steps && FineMatching !in w.c.steps
      && forall i :: 0 <= i < 6 ==> EARLY[i] in w.c.steps
  }

  // The stages a pass has handled from the k-th on: those of the sequence, or, without the retrieval lane, those
  // of the sequence without candidates.
  predicate Followed(handled: seq<CampaignState>, v: World, k: nat) {
    if T.Routing in v.lanes && HasCandidates(v)
    then Walked(handled, Sequence(false), k) || (k > 6 && Walked(handled, Plan(v), k))
    else Walked(handled, Plan(v), k)
  }

  // Amid the matching stages without the lane for them.
  predicate Idle(w: World, k: nat) {
    T.Routing in w.lanes && HasCandidates(w) && 6 <= k <= 10 && w.c.row.state in MATCH_STAGES
  }

  // The end of a pass that came back.
  predicate PassDone(v: World, k: nat, handled: nat, q: Place) {
    || (q == Stage(|Plan(v)|) && k + handled == |Plan(v)|)
    || (q == Skipped && T.Routing in v.lanes && k <= 6 && k + handled == 7)
    || (q == Stage(k + handled) && Idle(v, k + handled))
  }

  // From k stages on, what a pass has handled and where it stands after it.
  ghost predicate Passed(w: World, k: nat, after: After, q: Place) {
    && w.ran <= after.w.ran && Standing(after.w, q) && (q == Ended <==> Over(after.w))
    && Followed(after.w.ran[|w.ran|..], after.w, k)
    && (q == Ended || q.Stage? || q == Skipped)
    && (q.Stage? ==> k + |after.w.ran| - |w.ran| - 1 <= q.k <= k + |after.w.ran| - |w.ran|)
    && (q == Skipped ==> T.Routing in after.w.lanes && k <= 6 && 6 <= k + |after.w.ran| - |w.ran| <= 7)
    && (after.status == Done && q != Ended ==> PassDone(after.w, k, |after.w.ran| - |w.ran|, q))
  }

  // One stage more in front of a walk.
  lemma WalkedFromOneEarlier(stage: CampaignState, rest: seq<CampaignState>, had: bool, has: bool, k: nat)
    requires k < |Sequence(had)| && stage == Sequence(had)[k] && Walked(rest, Sequence(has), k + 1)
    requires IsEarly(stage) || had == has
    ensures Walked([stage] + rest, Sequence(has), k)
  {
    SequenceIsPlan(had);
    SequenceIsPlan(has);
    if had != has {
      assert Sequence(has)[k] == EARLY[k] == Sequence(had)[k];
    }
  }

  lemma FollowedFromOneEarlier(w: World, k: nat, v: World, rest: seq<CampaignState>)
    requires k < |Plan(w)| && Followed(rest, v, k + 1)
    requires IsEarly(Plan(w)[k]) || HasCandidates(v) == HasCandidates(w)
    requires T.Routing in v.lanes ==> Plan(w)[k] !in MATCH_STAGES
    ensures Followed([Plan(w)[k]] + rest, v, k)
  {
    hide Sequence, IsEarly, Walked;
    var stage := Plan(w)[k];
    LateIsNotEarly(w, k);
    if T.Routing in v.lanes && HasCandidates(v) {
      if Walked(rest, Sequence(false), k + 1) {
        WalkedIsShort(rest, k + 1);
        if k < 6 {
          WalkedFromOneEarlier(stage, rest, HasCandidates(w), false, k);
        }
      } else if k > 6 {
        WalkedFromOneEarlier(stage, rest, HasCandidates(w), true, k);
      }
    } else {
      WalkedFromOneEarlier(stage, rest, HasCandidates(w), HasCandidates(v), k);
    }
  }

  lemma WalkedIsShort(handled: seq<CampaignState>, k: nat)
    requires Walked(handled, Sequence(false), k)
    ensures k + |handled| <= 7
  {}

  lemma NothingPassed(w: World, k: nat, after: After) returns (q: Place)
    requires k <= |Plan(w)| && after.w.ran == w.ran && HasCandidates(after.w) == HasCandidates(w)
    requires Over(after.w) || (AtStage(after.w, k) && (after.status == Done ==> k == |Plan(w)| || Idle(after.w, k)))
    ensures Passed(w, k, after, q) && q == if Over(after.w) then Ended else Stage(k)
  {
    hide At;
    assert after.w.ran[|w.ran|..] == [];
    NothingFollowed(after.w, k);
    q := if Over(after.w) then Ended else Stage(k);
  }

  lemma NothingFollowed(v: World, k: nat)
    requires k <= |Plan(v)|
    ensures Followed([], v, k)
  {}

  // A pass that starts with one stage and goes on from where that leaves it.
  lemma PassedOneEarlier(w: World, k: nat, v: World, after: After, q: Place)
    requires k < |Plan(w)| && v.ran == w.ran + [Plan(w)[k]] && Passed(v, k + 1, after, q)
    requires IsEarly(Plan(w)[k]) || HasCandidates(after.w) == HasCandidates(w)
    requires T.Routing in after.w.lanes ==> Plan(w)[k] !in MATCH_STAGES
    ensures Passed(w, k, after, q)
  {
    hide At, Sequence, IsEarly, Walked, Standing, Followed;
    var rest := after.w.ran[|v.ran|..];
    assert after.w.ran[|w.ran|..] == [Plan(w)[k]] + rest;
    FollowedFromOneEarlier(w, k, after.w, rest);
  }

  lemma StageAlonePasses(w: World, k: nat, after: After) returns (q: Place)
    requires k < |Plan(w)| && after.w.ran == w.ran + [Plan(w)[k]] && (after.status != Done || Over(after.w))
    requires IsEarly(Plan(w)[k]) || HasCandidates(after.w) == HasCandidates(w)
    requires Over(after.w) || AtStage(after.w, k + 1) || AtStage(after.w, k)
    requires T.Routing in after.w.lanes ==> Plan(w)[k] !in MATCH_STAGES
    ensures Passed(w, k, after, q)
  {
    hide At, IsEarly;
    q := if Over(after.w) then Ended else if AtStage(after.w, k + 1) then Stage(k + 1) else Stage(k);
    assert after.w.ran[|w.ran|..] == [Plan(w)[k]] + [];
    LateIsNotEarly(w, k);
    SequenceIsPlan(HasCandidates(after.w));
    SequenceIsPlan(HasCandidates(w));
    if k + 1 <= |Plan(after.w)| {
      NothingFollowed(after.w, k + 1);
      FollowedFromOneEarlier(w, k, after.w, []);
    }
  }

  lemma LateIsNotEarly(w: World, k: nat)
    requires k < |Plan(w)|
    ensures IsEarly(Plan(w)[k]) <==> k < 6
    ensures Plan(w)[k] in MATCH_STAGES <==> HasCandidates(w) && 6 <= k <= 10
  {
    SequenceIsPlan(HasCandidates(w));
  }

  lemma SteadyOn(w: World, v: After, after: After, env: Env)
    requires Steady(w, v, env) && v.status == Done && Steady(v.w, after, env)
    ensures Steady(w, after, env)
  {
    hide Explained;
  }

  // ---------------------------------------------------------------- without the retrieval lane

  // Among the matching stages the campaign stands in one of them, unless it just left BROAD_RETRIEVAL.
  lemma AmidTheMatching(w: World, k: nat)
    requires AtStage(w, k) && HasCandidates(w) && 6 <= k <= 10
    ensures w.c.row.state in MATCH_STAGES || (k == 6 && w.c.row.state == BroadRetrieval)
  {}

  lemma StepsUpToBroadRetrieval(w: World)
    requires AtStage(w, 6) && HasCandidates(w)
    ensures FineMatching !in w.c.steps && PlanningQueries in w.c.steps
    ensures forall i :: 0 <= i < 6 ==> EARLY[i] in w.c.steps
  {
    forall i | 0 <= i < 6 ensures EARLY[i] in w.c.steps {
      assert Plan(w)[i] == EARLY[i];
    }
    assert Plan(w)[6] == FineMatching;
  }

  lemma SkippedStands(w: World)
    requires w.c.row.state == GapAnalysis && HasCandidates(w) && PlanningQueries in w.c.steps
             && FineMatching !in w.c.steps
    requires forall i :: 0 <= i < 6 ==> EARLY[i] in w.c.steps
    ensures Standing(w, Skipped) && !Over(w)
  {}

  lemma GapAnalysisFollows()
    ensures GapAnalysis in Forward(BroadRetrieval) && !IsTerminal(GapAnalysis) && !IsEarly(GapAnalysis)
  {}

  /** From BROAD_RETRIEVAL the matching stages are skipped: GAP_ANALYSIS is handled in their place. */
  lemma SkipResumes(w: World, env: Env) returns (q: Place)
    requires AtStage(w, 6) && w.c.row.state == BroadRetrieval && HasCandidates(w)
    ensures var after := SkipMatching(w, BroadRetrieval, env);
            && Steady(w, after, env) && !IllegalRaise(after.status) && (Overtaken(after.status) ==> Over(after.w))
            && HasCandidates(after.w) && Standing(after.w, q) && (q == Ended <==> Over(after.w))
            && (if after.w.ran == w.ran then after.status != Done && (q == Ended || q == Skipped || q == Stage(6))
                else after.w.ran == w.ran + [GapAnalysis] && (q == Ended || q == Skipped))
  {
    hide At, Sequence, EnterStage, HandleAndFinish, Explained, Forward, Mark, IsTerminal, IsEarly, Standing;
    GapAnalysisFollows();
    StepsUpToBroadRetrieval(w);
    EnterKeeps(w, GapAnalysis, env);
    NextStageAt(w, 6);
    var entered := EnterStage(w, GapAnalysis, env);
    var begun := entered.w.(ran := entered.w.ran + [GapAnalysis]);
    var after := SkipMatching(w, BroadRetrieval, env);
    if entered.status == Done {
      if Over(entered.w) {
        OverIsHandled(begun, GapAnalysis, env);
      } else {
        HandleAndFinishKeeps(begun, GapAnalysis, env);
      }
    }
    MarkingGapAnalysis(w.c.steps);
    q := StandsAfterSkip(w, after.w);
  }

  lemma StandsAfterSkip(w: World, v: World) returns (q: Place)
    requires HasCandidates(v) && PlanningQueries in w.c.steps && FineMatching !in w.c.steps
    requires forall i :: 0 <= i < 6 ==> EARLY[i] in w.c.steps
    requires AtStage(w, 6) && HasCandidates(w)
    requires Over(v) || ((v.c.row == w.c.row || v.c.row.state == GapAnalysis)
                         && (v.c.steps == w.c.steps
                             || (v.c.row.state == GapAnalysis && v.c.steps == Mark(w.c.steps, GapAnalysis))))
    ensures Standing(v, q) && q == if Over(v) then Ended else if v.c.row.state == GapAnalysis then Skipped else Stage(6)
  {
    hide Mark;
    MarkingGapAnalysis(w.c.steps);
    q := if Over(v) then Ended else if v.c.row.state == GapAnalysis then Skipped else Stage(6);
  }

  lemma MarkingGapAnalysis(steps: seq<CampaignState>)
    ensures FineMatching in Mark(steps, GapAnalysis) <==> FineMatching in steps
    ensures forall s :: s in steps ==> s in Mark(steps, GapAnalysis)
  {}

  lemma SkipPasses(w: World, v: World, k: nat, env: Env) returns (q: Place)
    requires AtStage(w, k) && v == w.(clock := v.clock) && HasCandidates(w) && 6 <= k <= 10 && T.Routing in w.lanes
    ensures var after := SkipMatching(v, w.c.row.state, env);
            && Steady(v, after, env) && !IllegalRaise(after.status) && (Overtaken(after.status) ==> Over(after.w))
            && Passed(w, k, after, q) && HasCandidates(after.w)
  {
    hide At, Sequence, SkipMatching, Explained;
    AmidTheMatching(w, k);
    NextStageAt(w, k);
    if w.c.row.state == BroadRetrieval {
      q := SkipResumes(v, env);
      var after := SkipMatching(v, BroadRetrieval, env);
      SkippedPasses(w, after, q);
    } else {
      NothingIsSkipped(v, env);
      q := NothingPassed(w, k, SkipMatching(v, w.c.row.state, env));
      DoneIsExplained(env, v);
    }
  }

  lemma NothingIsSkipped(w: World, env: Env)
    requires w.c.row.state in MATCH_STAGES
    ensures SkipMatching(w, w.c.row.state, env) == After(w, Done)
  {
    hide EnterStage, HandleAndFinish;
  }

  lemma SkippedPasses(w: World, after: After, q: Place)
    requires Standing(after.w, q) && (q == Ended <==> Over(after.w)) && T.Routing in after.w.lanes
             && HasCandidates(after.w)
    requires HasCandidates(w)
    requires if after.w.ran == w.ran then after.status != Done && (q == Ended || q == Skipped || q == Stage(6))
             else after.w.ran == w.ran + [GapAnalysis] && (q == Ended || q == Skipped)
    ensures Passed(w, 6, after, q)
  {
    hide Standing;
    if after.w.ran == w.ran {
      assert after.w.ran[|w.ran|..] == [];
    } else {
      assert after.w.ran[|w.ran|..] == [GapAnalysis];
      SequenceIsPlan(false);
    }
  }

  /** From wherever k stages are done, the remaining ones are handled in order, each once, or, without the
      retrieval lane, those up to BROAD_RETRIEVAL and GAP_ANALYSIS; no illegal edge is asked for; and however the
      pass ends, the campaign stands where the handled stages leave it, at most one of them to be repeated. */
  lemma {:induction false} PipelineResumes(w: World, k: nat, env: Env, seen: set<CampaignState>) returns (q: Place)
    requires AtStage(w, k) && forall s :: s in seen ==> s in w.c.steps
    ensures var after := Pipeline(w, env, seen);
            && Steady(w, after, env) && !IllegalRaise(after.status) && (Overtaken(after.status) ==> Over(after.w))
            && Passed(w, k, after, q) && (k >= 6 ==> HasCandidates(after.w) == HasCandidates(w))
    decreases STAGES - seen
  {
    hide At, Sequence, MayStart, RunStage, SkipMatching, Explained, Passed, IsEarly, Idle;
    NextStageAt(w, k);
    var after := Pipeline(w, env, seen);
    if k == |Plan(w)| {
      DoneIsExplained(env, w);
      q := NothingPassed(w, k, after);
    } else {
      var stage := Plan(w)[k];
      LateIsNotEarly(w, k);
      MayStartKeeps(w, true, env);
      var may := MayStart(w, true, env);
      if may.status != Done {
        q := NothingPassed(w, k, after);
      } else if Skips(w, stage) {
        q := SkipPasses(w, may.w, k, env);
        SteadyOn(w, may, after, env);
      } else {
        StageResumes(may.w, k, env);
        var run := RunStage(may.w, stage, env);
        assert Steady(w, run, env);
        if run.w.ran == w.ran {
          q := NothingPassed(w, k, after);
        } else if run.status != Done || Over(run.w) {
          q := StageAlonePasses(w, k, After(run.w, run.status));
        } else {
          q := PipelineResumes(run.w, k + 1, env, seen + {stage});
          SteadyOn(w, run, after, env);
          PassedOneEarlier(w, k, run.w, after, q);
        }
      }
    }
  }
}
