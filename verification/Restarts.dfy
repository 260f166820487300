/** Where a stored campaign can stand between two processes, and what the next process makes of it:
    crash resume, the replan that cannot be walked, and the wave that cannot be started twice. */
module Restarts {
  import opened Wrappers
  import opened Transitions
  import opened EventLog
  import opened Controller
  import opened Walk
  import opened Process
  import opened Resume
  import opened Runs
  import T = Terminal

  // ---------------------------------------------------------------- an edge that is not there

  // A beat without a crash and without a cancel().
  predicate Quiet(sig: Signal) {
    !sig.crash && !sig.cancel
  }

  /** A transition along an edge that is not in the table changes nothing, and is refused unless something else
      comes before it. */
  lemma EdgeIsRefused(w: World, target: CampaignState, env: Env)
    requires !Over(w) && target !in Forward(w.c.row.state)
    ensures var after := Entered(w, target, ContextFromDisk(w.c.row, w.disk), env);
            && Kept(w, after.w) && SameElse(w, after.w) && after.status != Done
            && (IllegalRaise(after.status) ==> after.status == EdgeRefused(w, target) && after.w.c == w.c)
            && (Overtaken(after.status) ==> Over(after.w)) && (after.status == Raised(CancelledError) ==> w.flag)
            && (after.status == Crashed || IllegalRaise(after.status) || Overtaken(after.status)
                || (after.status == Raised(CancelledError) && after == After(w, Raised(CancelledError))))
            && (!w.flag && Quiet(env(w.clock)) ==> after == After(w.(clock := w.clock + 1), EdgeRefused(w, target)))
  {
    hide Forward, ContextFromDisk, Entered, IsTerminal, Explained;
    EnteredKeeps(w, target, env);
    EnteredStatus(w, target, ContextFromDisk(w.c.row, w.disk), env);
    RefusedQuietly(w, target, ContextFromDisk(w.c.row, w.disk), env);
  }

  // How a transition comes back, its flag check included.
  lemma EnteredStatus(w: World, target: CampaignState, ctx: TransitionContext, env: Env)
    ensures var after := Entered(w, target, ctx, env);
            && (after.status == Raised(CancelledError) <==> w.flag)
            && (w.flag ==> after == After(w, Raised(CancelledError)))
            && (target !in Forward(w.c.row.state) && !w.flag ==>
                  after.status in {Done, Crashed} || IllegalRaise(after.status) || Overtaken(after.status))
  {
    hide Forward, FromWrite, IsTerminal, TransitionCheck, Meanwhile;
    var sig, ticked := env(w.clock), w.(clock := w.clock + 1);
    MeanwhileKeeps(ticked, sig, BeforeRead);
    var read := Meanwhile(ticked, sig, BeforeRead);
    NoEdge(read.w.c.row.state, target, ctx);
    RefusalIsTrue(read.w.c.row.state, false, target, ctx);
    MeanwhileKeeps(read.w, sig, BeforeWrite);
    FromWriteKeeps(Meanwhile(read.w, sig, BeforeWrite).w, target, ctx, sig);
  }

  lemma RefusedQuietly(w: World, target: CampaignState, ctx: TransitionContext, env: Env)
    requires !Over(w) && target !in Forward(w.c.row.state)
    ensures !w.flag && Quiet(env(w.clock)) ==>
              Entered(w, target, ctx, env) == After(w.(clock := w.clock + 1), EdgeRefused(w, target))
  {
    hide Forward, FromWrite, IsTerminal, TransitionCheck, CancelIn;
    NoEdge(w.c.row.state, target, ctx);
  }

  lemma NoEdge(state: CampaignState, target: CampaignState, ctx: TransitionContext)
    ensures IsTerminal(state) || target !in Forward(state) ==>
              TransitionCheck(state, false, target, ctx) == Fail(Error.Refused(IllegalTransition(state, target)))
    ensures IsTerminal(Cancelled)
  {
    hide GuardHolds, Forward;
  }

  /** The same for a stage. */
  lemma StageIsRefused(w: World, stage: CampaignState, env: Env)
    requires !Over(w) && stage !in Forward(w.c.row.state) && w.c.row.state != stage
    ensures var after := RunStage(w, stage, env);
            && Kept(w, after.w) && SameElse(w, after.w) && after.status != Done
            && (IllegalRaise(after.status) ==> after.status == EdgeRefused(w, stage) && after.w.c == w.c)
            && (Overtaken(after.status) ==> Over(after.w)) && (after.status == Raised(CancelledError) ==> w.flag)
            && (after.status in {Crashed, Raised(CancelledError)} || IllegalRaise(after.status)
                || Overtaken(after.status))
            && (!w.flag && Quiet(env(w.clock)) ==> after == After(w.(clock := w.clock + 1), EdgeRefused(w, stage)))
  {
    hide ContextFromDisk, Entered, Forward, HandleAndFinish, Process.Announced;
    EdgeIsRefused(w, stage, env);
  }

  // ---------------------------------------------------------------- the reference wave

  lemma WaveEntryIsLegal(w: World, n: nat, i: nat)
    requires InWave(w.c.row.state, w.c.steps, i) && 1 <= n <= 6 && n - 1 <= i <= n
    ensures w.c.row.state == SPINE[n] <==> i == n
    ensures i != n ==> SPINE[n] in Forward(w.c.row.state) && !IsTerminal(w.c.row.state)
    ensures InWave(SPINE[n], w.c.steps, n) && !IsTerminal(SPINE[n])
  {
    WaveEdges(n - 1);
    if n >= 2 {
      WaveEdges(n - 2);
    }
  }

  lemma WaveStepResumes(w: World, n: nat, i: nat, env: Env) returns (j: nat)
    requires InWave(w.c.row.state, w.c.steps, i) && 1 <= n <= 6 && n - 1 <= i <= n
    ensures var after := WaveStep(w, n, env);
            && !IllegalRaise(after.status) && (Overtaken(after.status) ==> Over(after.w))
            && (Over(after.w) || (InWave(after.w.c.row.state, after.w.c.steps, j) && n - 1 <= j <= n
                                  && (after.status == Done ==> j == n && SPINE[n] in after.w.c.steps)))
  {
    hide InWave, HandleAndFinish, Explained, ContextFromDisk, Mark, Forward, Entered, IsTerminal;
    WaveEntryIsLegal(w, n, i);
    j := i;
    if i != n {
      EnteredKeeps(w, SPINE[n], env);
    }
    var entered := if w.c.row.state == SPINE[n] then After(w, Done)
                   else Entered(w, SPINE[n], ContextFromDisk(w.c.row, w.disk), env);
    CancelledIsOver(entered.w);
    if !Over(entered.w) && entered.w.c.row.state == SPINE[n] {
      j := n;
    }
    if entered.status == Done {
      if Over(entered.w) {
        OverIsHandled(entered.w, SPINE[n], env);
      } else {
        HandleAndFinishKeeps(entered.w, SPINE[n], env);
        WaveStepDone(n, entered.w.c.steps);
        MarkedIsIn(entered.w.c.steps, SPINE[n]);
      }
    }
  }

  lemma MarkedIsIn(steps: seq<CampaignState>, s: CampaignState)
    ensures s in Mark(steps, s)
  {}

  // A wave that was cancelled under way stops at its next transition.
  lemma WaveOver(w: World, n: nat, env: Env)
    requires Over(w) && w.flag && 1 <= n <= 7
    ensures Wave(w, n, env) == After(w, if n == 7 then Done else Raised(CancelledError))
  {
    if n < 7 {
      WaveEdges(n - 1);
    }
  }

  lemma {:induction false} WaveResumes(w: World, n: nat, i: nat, env: Env) returns (j: nat)
    requires InWave(w.c.row.state, w.c.steps, i) && 1 <= n <= 7 && n - 1 <= i <= n
    requires n == 7 ==> PlanningQueries in w.c.steps
    ensures var after := Wave(w, n, env);
            && !IllegalRaise(after.status) && (Overtaken(after.status) ==> Over(after.w))
            && (Over(after.w) || (InWave(after.w.c.row.state, after.w.c.steps, j)
                                  && (after.status == Done ==> PlanningQueries in after.w.c.steps)))
    decreases 7 - n
  {
    hide InWave, WaveStep, Explained;
    j := i;
    if n < 7 {
      WaveStepSteady(w, n, env);
      j := WaveStepResumes(w, n, i, env);
      var step := WaveStep(w, n, env);
      if step.status == Done {
        if Over(step.w) {
          WaveIsBeforeTheWalk(w.c.row.state, w.c.steps, i);
          WaveOver(step.w, n + 1, env);
        } else {
          j := WaveResumes(step.w, n + 1, n, env);
        }
      }
    }
  }

  // The edge a wave that has begun before would need.
  function NoSecondWave(w: World): (status: Status) {
    EdgeRefused(w, ValidatingInput)
  }

  /** A wave found past its first step is refused at its first transition, unless something else comes before,
      and nothing changes. */
  lemma LostInTheWave(w: World, i: nat, env: Env)
    requires InWave(w.c.row.state, w.c.steps, i) && i > 1
    ensures var after := Wave(w, 1, env);
            && Kept(w, after.w) && SameElse(w, after.w)
            && (IllegalRaise(after.status) ==> after.status == NoSecondWave(w) && after.w.c == w.c)
            && (Overtaken(after.status) ==> Over(after.w)) && (after.status == Raised(CancelledError) ==> w.flag)
            && (after.status in {Crashed, Raised(CancelledError)} || IllegalRaise(after.status)
                || Overtaken(after.status))
            && (!w.flag && Quiet(env(w.clock)) ==> after == After(w.(clock := w.clock + 1), NoSecondWave(w)))
  {
    hide InWave, Entered, ContextFromDisk, HandleAndFinish, Forward;
    WaveIsBeforeTheWalk(w.c.row.state, w.c.steps, i);
    OffTheWave(w.c.row.state);
    assert SPINE[1] == ValidatingInput;
    EdgeIsRefused(w, ValidatingInput, env);
    assert WaveStep(w, 1, env) == Entered(w, ValidatingInput, ContextFromDisk(w.c.row, w.disk), env);
  }

  predicate Lost(p: Place) {
    p.InReference? && p.i > 1
  }

  // What _ensure_reference makes of each place.
  lemma EnsureReferenceResumes(w: World, p: Place, env: Env) returns (q: Place)
    requires Standing(w, p) && !Over(w)
    ensures var after := EnsureReference(w, env);
            && after.w.ran == w.ran && Standing(after.w, q) && (Overtaken(after.status) ==> Over(after.w))
            && (!p.InReference? ==> after == After(w, Done) && q == p)
            && (p.InReference? && p.i <= 1 ==>
                  && !IllegalRaise(after.status) && (q == Ended || q == Stage(0) || q.InReference?)
                  && (after.status == Done ==> q == Ended || q == Stage(0)))
            && (Lost(p) ==>
                  && q == (if Over(after.w) then Ended else p) && Kept(w, after.w) && SameElse(w, after.w)
                  && (IllegalRaise(after.status) ==> after.status == NoSecondWave(w) && after.w.c == w.c)
                  && (after.status == Raised(CancelledError) ==> w.flag)
                  && (after.status in {Crashed, Raised(CancelledError)} || IllegalRaise(after.status)
                      || Overtaken(after.status))
                  && (!w.flag && Quiet(env(w.clock)) ==> after == After(w.(clock := w.clock + 1), NoSecondWave(w))))
            && (q == Ended <==> Over(after.w))
  {
    hide Wave, Explained;
    q := p;
    if p.Stage? {
      ReferenceIsDone(w.c.row.state, w.c.steps, Plan(w), p.k);
    } else if p.InReference? {
      WaveIsBeforeTheWalk(w.c.row.state, w.c.steps, p.i);
      WaveSteady(w, 1, env);
      if p.i > 1 {
        LostInTheWave(w, p.i, env);
        if Over(Wave(w, 1, env).w) {
          q := Ended;
        }
      } else {
        var j := WaveResumes(w, 1, p.i, env);
        q := PlaceAfterWave(Wave(w, 1, env), j);
      }
    }
    ActivePlaces(EnsureReference(w, env).w, q);
  }

  lemma ActivePlaces(w: World, p: Place)
    requires Standing(w, p)
    ensures p == Ended <==> Over(w)
  {
    if p.Stage? {
      NextStageAt(w, p.k);
    } else if p.InReference? {
      WaveIsBeforeTheWalk(w.c.row.state, w.c.steps, p.i);
    }
  }

  lemma PlaceAfterWave(after: After, j: nat) returns (q: Place)
    requires Over(after.w) || InWave(after.w.c.row.state, after.w.c.steps, j)
    ensures Standing(after.w, q) && (q == Ended || q == Stage(0) || q.InReference?)
    ensures after.status == Done && (Over(after.w) || PlanningQueries in after.w.c.steps) ==>
              q == Ended || q == Stage(0)
  {
    if Over(after.w) {
      q := Ended;
    } else if PlanningQueries in after.w.c.steps {
      q := Stage(0);
      SequenceIsPlan(HasCandidates(after.w));
      WaveDone(after.w.c.row.state, after.w.c.steps, Plan(after.w), j);
    } else {
      q := InReference(j);
    }
  }

  // ---------------------------------------------------------------- a transition that may pass

  // Under this signal a transition passes and leaves the campaign active: no crash, and of a cancel() only the flag.
  predicate Passes(sig: Signal) {
    !sig.crash && (sig.cancel ==> sig.flagOnly)
  }

  lemma PassingExactly(w: World, target: CampaignState, ctx: TransitionContext, env: Env)
    requires TransitionCheck(w.c.row.state, false, target, ctx) == Pass && !IsTerminal(target)
    ensures var after := Entered(w, target, ctx, env);
            && (after.status == Done && !Over(after.w) <==> !w.flag && Passes(env(w.clock)))
            && (after.status == Done && !Over(after.w) ==>
                  && after.w.flag == env(w.clock).cancel && after.w.clock == w.clock + 1
                  && CameTo(w, after.w, target) && SameElse(w, after.w))
  {
    hide TransitionCheck, CancelledUpTo, CancelContext, Emit, Controller.Written;
    PassIsLegal(w.c.row.state, target, ctx);
    CancelledRow(w.c, CancelContext(w.c.row, w.disk));
    if !w.flag && Passes(env(w.clock)) {
      PassingQuietly(w, target, ctx, env);
    } else if !w.flag {
      PassingDisturbed(w, target, ctx, env);
    }
  }

  lemma CancelledRow(c: Campaign, ctx: TransitionContext)
    ensures forall reach :: CancelledUpTo(c, ctx, reach).row.state == Cancelled
  {}

  lemma PassingQuietly(w: World, target: CampaignState, ctx: TransitionContext, env: Env)
    requires TransitionCheck(w.c.row.state, false, target, ctx) == Pass && !IsTerminal(target)
    requires !w.flag && Passes(env(w.clock))
    ensures var after := Entered(w, target, ctx, env);
            && after.status == Done && !Over(after.w)
            && after.w.flag == env(w.clock).cancel && after.w.clock == w.clock + 1
            && CameTo(w, after.w, target) && SameElse(w, after.w)
  {
    hide TransitionCheck, FromWrite, IsTerminal;
    NothingBeforeTheWrite(w, target, ctx, env);
    FromWriteQuietly(AtTheWrite(w, env(w.clock)), target, ctx, env(w.clock));
  }

  // What a transition that nothing comes before finds at its write: at most the flag is up.
  function AtTheWrite(w: World, sig: Signal): (found: World) {
    w.(clock := w.clock + 1, flag := CancelsAt(sig, BeforeRead) || CancelsAt(sig, BeforeWrite))
  }

  lemma NothingBeforeTheWrite(w: World, target: CampaignState, ctx: TransitionContext, env: Env)
    requires TransitionCheck(w.c.row.state, false, target, ctx) == Pass && !w.flag && LetsPass(env(w.clock))
    ensures Entered(w, target, ctx, env) == FromWrite(AtTheWrite(w, env(w.clock)), target, ctx, env(w.clock))
  {
    hide TransitionCheck, FromWrite, Meanwhile;
    var ticked, sig := w.(clock := w.clock + 1), env(w.clock);
    MeanwhileQuiet(ticked, sig, BeforeRead);
    MeanwhileKeeps(ticked, sig, BeforeRead);
    var read := Meanwhile(ticked, sig, BeforeRead).w;
    MeanwhileQuiet(read, sig, BeforeWrite);
    MeanwhileKeeps(read, sig, BeforeWrite);
  }

  lemma FromWriteQuietly(w: World, target: CampaignState, ctx: TransitionContext, sig: Signal)
    requires Passes(sig) && !IsTerminal(target)
    ensures var after := FromWrite(w, target, ctx, sig);
            && after.status == Done && after.w.c.row.state == target
            && after.w.flag == (w.flag || CancelsAt(sig, BeforeEvent) || CancelsAt(sig, AfterEvent))
            && after.w.clock == w.clock && CameTo(w, after.w, target) && SameElse(w, after.w)
  {
    hide Emit, IsTerminal;
  }

  lemma SomethingBeforeTheWrite(w: World, target: CampaignState, ctx: TransitionContext, env: Env)
    requires TransitionCheck(w.c.row.state, false, target, ctx) == Pass && !w.flag && !LetsPass(env(w.clock))
    ensures Entered(w, target, ctx, env).status != Done
  {
    hide TransitionCheck, FromWrite, Meanwhile;
    var sig, ticked := env(w.clock), w.(clock := w.clock + 1);
    PassIsLegal(w.c.row.state, target, ctx);
    MeanwhileKeeps(ticked, sig, BeforeRead);
    MeanwhileQuiet(ticked, sig, BeforeRead);
    var read := Meanwhile(ticked, sig, BeforeRead);
    NoEdge(read.w.c.row.state, target, ctx);
    MeanwhileKeeps(read.w, sig, BeforeWrite);
    MeanwhileQuiet(read.w, sig, BeforeWrite);
  }

  lemma PassingDisturbed(w: World, target: CampaignState, ctx: TransitionContext, env: Env)
    requires TransitionCheck(w.c.row.state, false, target, ctx) == Pass && !IsTerminal(target)
    requires !w.flag && !Passes(env(w.clock))
    ensures var after := Entered(w, target, ctx, env); after.status != Done || Over(after.w)
  {
    hide TransitionCheck, FromWrite, Entered, IsTerminal;
    if LetsPass(env(w.clock)) {
      NothingBeforeTheWrite(w, target, ctx, env);
      FromWriteDisturbed(AtTheWrite(w, env(w.clock)), target, ctx, env(w.clock));
    } else {
      SomethingBeforeTheWrite(w, target, ctx, env);
    }
  }

  lemma FromWriteDisturbed(w: World, target: CampaignState, ctx: TransitionContext, sig: Signal)
    requires !IsTerminal(target) && !DiesAt(sig, BeforeRead) && !DiesAt(sig, BeforeWrite) && !Passes(sig)
    requires !LandsAt(sig, BeforeRead) && !LandsAt(sig, BeforeWrite)
    ensures FromWrite(w, target, ctx, sig).status != Done || Over(FromWrite(w, target, ctx, sig).w)
  {
    hide Emit, Meanwhile, TellingOf, IsTerminal;
    var committed := w.(c := Committed(w.c, target, ctx, TellingOf(sig, target)));
    MeanwhileKeeps(committed, sig, BeforeEvent);
    MeanwhileQuiet(committed, sig, BeforeEvent);
    var raced := Meanwhile(committed, sig, BeforeEvent);
    var told := raced.w.(c := Told(raced.w.c, w.c.row.version + 1, target));
    MeanwhileKeeps(told, sig, AfterEvent);
    MeanwhileQuiet(told, sig, AfterEvent);
    CancelledIsOver(raced.w);
  }

  // ---------------------------------------------------------------- replanning

  // At the end of a pass, with or without the matching stages.
  predicate AtRest(w: World, q: Place) {
    q == Stage(|Plan(w)|) || q == Skipped
  }

  lemma RestMayReplan(w: World, q: Place)
    requires Standing(w, q) && AtRest(w, q)
    ensures !Over(w) && PlanningQueries in w.c.steps
    ensures w.c.row.state == Replanning || Replanning in Forward(w.c.row.state)
    ensures {Complete, Partial, Blocked} <= Forward(w.c.row.state)
  {
    if q.Stage? {
      FinishedPassMayReplan(w.c.row.state, w.c.steps, HasCandidates(w));
      FinishedPassMayStop(w.c.row.state, w.c.steps, HasCandidates(w));
    }
  }

  lemma RestStays(w: World, q: Place, v: World)
    requires Standing(w, q) && AtRest(w, q) && v.c.steps == w.c.steps && HasCandidates(v) == HasCandidates(w)
    requires v.c.row.state == w.c.row.state || v.c.row.state == Replanning
    ensures Standing(v, q) && AtRest(v, q) && !Over(v)
  {
    if q.Stage? {
      FinishedPassMayReplan(w.c.row.state, w.c.steps, HasCandidates(w));
    }
    RestMayReplan(w, q);
  }

  lemma FinishExactly(w: World, stage: CampaignState, env: Env)
    ensures var after := FinishStage(w, stage, env);
            && after.status == (if env(w.clock).crash then Crashed else Done) && after.w.flag == FlaggedAfter(w, env)
            && (Over(after.w) <==> Over(w) || (env(w.clock).cancel && !env(w.clock).flagOnly))
            && after.w.clock == w.clock + 1
  {
    hide Beat;
    BeatExactly(Checkpointed(w, ForStage(stage)), env);
    BeatExactly(w.(checkpoints := w.checkpoints + [Checkpoint(w.c.row.state, w.c.row.version, ForStage(stage))]), env);
  }

  // The last edge of a replan.
  lemma DiscoveryIsEntered(w: World, env: Env)
    requires w.c.row.state == Replanning && w.c.steps == [PlanningQueries, Replanning] && w.disk.queries != []
    ensures var after := EnterStage(w, Discovering, env);
            && !IllegalRaise(after.status) && (Overtaken(after.status) ==> Over(after.w))
            && HasCandidates(after.w) == HasCandidates(w)
            && (after.status == Done && !Over(after.w) <==> !w.flag && Passes(env(w.clock)))
            && (Over(after.w) || (after.w.c.steps == w.c.steps
                                  && (after.w.c.row.state == Discovering
                                      || (after.w.c.row.state == Replanning && after.status != Done))))
  {
    hide TransitionCheck, ContextFromDisk, Emit, Entered, Forward, Explained;
    ReplanningEdges();
    DiscoveryReopens(false, w.c.row, w.disk);
    PassingExactly(w, Discovering, ContextFromDisk(w.c.row, w.disk), env);
    EnterKeeps(w, Discovering, env);
  }

  lemma ReplanningEdges()
    ensures Discovering in Forward(Replanning) && !IsTerminal(Replanning) && !IsTerminal(Discovering)
            && IsTerminal(Cancelled)
  {}

  // A replan cut short once its steps are cleared is a pass with nothing behind it, or sent back.
  lemma ClearedStandsBefore(w: World)
    requires w.c.row.state == Replanning
    requires w.c.steps == [PlanningQueries, Replanning] || w.c.steps == [PlanningQueries]
    ensures AtStage(w, 0) && !Over(w)
  {
    SequenceIsPlan(HasCandidates(w));
    ClearedIsUnwalked(w.c.steps, Plan(w));
  }

  lemma DiscoveringStands(w: World)
    requires w.c.row.state == Discovering && w.c.steps == [PlanningQueries, Replanning]
    ensures Standing(w, SentBack) && !Over(w)
  {}

  // Finishing REPLANNING and entering DISCOVERING from a cleared round. Cut short after the last write, the
  // campaign is sent back, too.
  lemma BackExactly(w: World, env: Env) returns (q: Place)
    requires w.c.row.state == Replanning && w.c.steps == [PlanningQueries] && w.disk.queries != []
    ensures var after := BackToDiscovery(w, env);
            && !IllegalRaise(after.status) && (Overtaken(after.status) ==> Over(after.w))
            && HasCandidates(after.w) == HasCandidates(w)
            && Standing(after.w, q) && (q == Ended || q == Stage(0) || q == SentBack) && (q == Ended <==> Over(after.w))
            && (after.status == Done && q != Ended ==>
                  q == SentBack && after.w.c.steps == [PlanningQueries, Replanning])
            && (after.status == Done && !Over(after.w) <==>
                  Quiet(env(w.clock)) && !w.flag && Passes(env(w.clock + 1)))
  {
    hide Explained, AtStage, FinishStage, EnterStage, Standing, Passes;
    FinishKeeps(w, Replanning, env);
    FinishExactly(w, Replanning, env);
    var finished := FinishStage(w, Replanning, env);
    q := Ended;
    if Over(finished.w) {
      OverStaysOver(finished.w, env);
      EndedStands(BackToDiscovery(w, env).w);
    } else {
      ClearedStandsBefore(finished.w);
      ClearedStands(finished.w);
      q := Stage(0);
      if finished.status == Done {
        DiscoveryIsEntered(finished.w, env);
        q := StandsAfterReplan(finished.w, EnterStage(finished.w, Discovering, env));
      }
    }
  }

  lemma StandsAfterReplan(w: World, after: After) returns (q: Place)
    requires w.c.steps == [PlanningQueries, Replanning]
    requires Over(after.w) || (after.w.c.steps == w.c.steps
                               && (after.w.c.row.state == Discovering
                                   || (after.w.c.row.state == Replanning && after.status != Done)))
    ensures Standing(after.w, q) && (q == Ended || q == Stage(0) || q == SentBack) && (q == Ended <==> Over(after.w))
    ensures after.status == Done && q != Ended ==> q == SentBack && after.w.c.steps == [PlanningQueries, Replanning]
  {
    if Over(after.w) {
      q := Ended;
    } else if after.w.c.row.state == Discovering {
      DiscoveringStands(after.w);
      q := SentBack;
    } else {
      ClearedStandsBefore(after.w);
      q := Stage(0);
    }
  }

  lemma ClearedStands(w: World)
    requires AtStage(w, 0)
    ensures Standing(w, Stage(0))
  {}

  lemma EndedStands(w: World)
    ensures Over(w) <==> Standing(w, Ended)
  {}

  lemma OverStaysOver(w: World, env: Env)
    requires Over(w)
    ensures EnterStage(w, Discovering, env) == After(w, Done)
  {}

  // Entering REPLANNING at the end of a pass.
  lemma ReplanningOpens(w: World, q: Place, env: Env)
    requires Standing(w, q) && AtRest(w, q)
    ensures var open := OpenStage(w, Replanning, env);
            && SameElse(w, open.w) && !IllegalRaise(open.status) && (Overtaken(open.status) ==> Over(open.w))
            && PlanningQueries in w.c.steps && !Over(w)
            && (Over(open.w) || (open.w.c.steps == w.c.steps && Standing(open.w, q) && AtRest(open.w, q)
                                 && (open.status == Done ==> open.w.c.row.state == Replanning)))
            && (open.status == Done && !Over(open.w) && !open.w.flag <==>
                  !w.flag && (w.c.row.state == Replanning || Quiet(env(w.clock))))
            && (open.status == Done && !Over(open.w) ==>
                  open.w.clock == w.clock + if w.c.row.state == Replanning then 0 else 1)
  {
    hide Standing, Sequence, ContextFromDisk, TransitionCheck, Emit, Forward, Entered, Explained, AtRest;
    RestMayReplan(w, q);
    OpenKeeps(w, Replanning, env);
    var open := OpenStage(w, Replanning, env);
    if !Over(open.w) {
      RestStays(w, q, open.w);
    }
    if w.c.row.state != Replanning {
      var ctx := ContextFromDisk(w.c.row, w.disk);
      ReplanningCheck(w.c.row.state, false, ctx);
      ReplanningEdges();
      PassingExactly(w, Replanning, ctx, env);
    }
  }

  // Neither a crash nor a cancel() comes between the writes that send a campaign back, but for a flag that goes up in
  // the last of them. Its row has an edge to take unless it stands in REPLANNING.
  predicate Undisturbed(w: World, env: Env) {
    var t := if w.c.row.state == Replanning then w.clock else w.clock + 1;
    && !w.flag && (w.c.row.state != Replanning ==> Quiet(env(w.clock)))
    && Quiet(env(t)) && Quiet(env(t + 1)) && Passes(env(t + 2))
  }

  lemma FlagDisturbs(w: World, env: Env)
    ensures Undisturbed(w, env) ==> !w.flag
  {}

  // Sending a campaign back at the end of a pass.
  lemma SendBackExactly(w: World, q: Place, query: string, env: Env) returns (r: Place)
    requires Standing(w, q) && AtRest(w, q)
    ensures var after := SendBack(w, query, env);
            && !IllegalRaise(after.status) && (Overtaken(after.status) ==> Over(after.w))
            && HasCandidates(after.w) == HasCandidates(w)
            && Standing(after.w, r) && (r == Ended || r == q || r == Stage(0) || r == SentBack)
            && (r == Ended <==> Over(after.w))
            && (after.status == Done && r != Ended ==>
                  r == SentBack && after.w.c.steps == [PlanningQueries, Replanning])
            && (after.status == Done && !Over(after.w) <==> Undisturbed(w, env))
  {
    hide Standing, AtRest, OpenStage, Beat, BackToDiscovery, Explained, Passes;
    var stored := WithQuery(w, query);
    QueryStays(w, q, query);
    ReplanningOpens(stored, q, env);
    var open := OpenStage(stored, Replanning, env);
    r := if Over(open.w) then Ended else q;
    EndedStands(open.w);
    RestIsActive(w, q);
    if open.status == Done {
      BeatExactly(open.w, env);
      BeatKeeps(open.w, env);
      var beat := Beat(open.w, env);
      if Over(beat.w) {
        r := Ended;
        EndedStands(beat.w);
        if beat.status == Done {
          BackSteady(Cleared(beat.w), env);
          EndedStands(SendBack(w, query, env).w);
        }
      } else if beat.status == Done {
        r := BackExactly(Cleared(beat.w), env);
      } else {
        RestStays(open.w, q, beat.w);
      }
    }
  }

  lemma RestIsActive(w: World, q: Place)
    requires AtRest(w, q)
    ensures q != Ended
  {}

  lemma QueryStays(w: World, q: Place, query: string)
    requires Standing(w, q) && AtRest(w, q)
    ensures Standing(WithQuery(w, query), q) && AtRest(WithQuery(w, query), q)
  {
    RestStays(w, q, WithQuery(w, query));
  }

  // When a pass that came to rest is sent back.
  predicate SendsBack(w: World, mayGoOn: bool, env: Env) {
    && mayGoOn && env(w.clock).learned && !env(w.clock).stop && Quiet(env(w.clock))
    && Undisturbed(w.(clock := w.clock + 1), env)
  }

  /** _replan at the end of a pass: the campaign is sent back, its steps cleared, exactly if a round is left,
      something was learned, nothing says stop, and neither a crash nor a cancellation comes in between; cut
      short, it is a pass that can be walked, or sent back already; otherwise nothing happened. */
  lemma ReplanExactly(w: World, q: Place, mayGoOn: bool, env: Env) returns (r: Place)
    requires Standing(w, q) && AtRest(w, q)
    ensures var (after, replanned) := Replan(w, mayGoOn, env);
            && !IllegalRaise(after.status) && (Overtaken(after.status) ==> Over(after.w))
            && HasCandidates(after.w) == HasCandidates(w) && after.w.ran == w.ran
            && Standing(after.w, r) && (r == Ended || r == q || r == Stage(0) || r == SentBack)
            && (r == Ended <==> Over(after.w))
            && (replanned && r != Ended ==> r == SentBack && after.w.c.steps == [PlanningQueries, Replanning])
            && (!replanned && after.status == Done && r != Ended ==> r == q && after.w.c == w.c)
            && (replanned && !Over(after.w) <==> SendsBack(w, mayGoOn, env))
  {
    hide Standing, AtRest, Beat, SendBack, Explained, Undisturbed, IsTerminal, FlagKept;
    ReplanSteady(w, mayGoOn, env);
    hide Steady;
    BeatKeeps(w, env);
    RestMayReplan(w, q);
    RestIsActive(w, q);
    BeatLeavesActive(w, env);
    CrashIsTold(w, env);
    var beat := Beat(w, env);
    r := q;
    if mayGoOn {
      if Over(beat.w) {
        r := Ended;
        EndedStands(beat.w);
      } else {
        BeatWhileActive(w, env);
        RestStays(w, q, beat.w);
        if beat.status == Done && !env(w.clock).stop && env(w.clock).learned {
          FlagDisturbs(beat.w, env);
          r := SendBackExactly(beat.w, q, env(w.clock).query, env);
        }
      }
    }
  }

  lemma IdleEdges(w: World, k: nat)
    requires Idle(w, k)
    ensures Replanning !in Forward(w.c.row.state) && !Over(w) && w.c.row.state != Replanning
    ensures Partial in Forward(w.c.row.state) && Blocked in Forward(w.c.row.state)
  {}

  /** Amid the matching stages there is no edge to REPLANNING: a replan is refused, or something comes before. */
  lemma IdleReplan(w: World, k: nat, mayGoOn: bool, env: Env)
    requires Idle(w, k)
    ensures var (after, replanned) := Replan(w, mayGoOn, env);
            && !replanned && Kept(w, after.w) && HasCandidates(after.w) == HasCandidates(w) && after.w.ran == w.ran
            && (IllegalRaise(after.status) ==> after.status == EdgeRefused(w, Replanning))
            && (Overtaken(after.status) ==> Over(after.w)) && after.w.lanes == w.lanes
  {
    hide Beat, Entered, ContextFromDisk, Forward, BackToDiscovery, Emit;
    BeatExactly(w, env);
    BeatKeeps(w, env);
    var beat := Beat(w, env);
    if mayGoOn && beat.status == Done && !env(w.clock).stop && !Over(beat.w) && env(w.clock).learned {
      var stored := WithQuery(beat.w, env(w.clock).query);
      IdleEdges(stored, k);
      EdgeIsRefused(stored, Replanning, env);
    }
  }

  // ---------------------------------------------------------------- after a replan

  // The edge a replanned campaign would need for a second round.
  const NO_SECOND_ROUND := Exn.Refused(IllegalTransition(Discovering, PlanningSources))

  // How a run of a campaign that was sent back leaves its try block.
  predicate SentBackStatus(status: Status) {
    status in {Crashed, Raised(BudgetExceeded), Raised(CancelledError), Raised(NO_SECOND_ROUND)} || Overtaken(status)
  }

  lemma DiscoveringHasNoWayBack()
    ensures PlanningSources !in Forward(Discovering) && !IsTerminal(Discovering)
  {}

  lemma PipelineSentBack(w: World, env: Env)
    requires Standing(w, SentBack)
    ensures var after := Pipeline(w, env, {});
            && after.w.ran == w.ran && after.w.disk == w.disk && Kept(w, after.w) && SentBackStatus(after.status)
            && after.w.lanes == w.lanes && (Overtaken(after.status) ==> Over(after.w))
            && (Over(after.w) ==> !IllegalRaise(after.status))
            && (!w.flag && Quiet(env(w.clock)) && !env(w.clock).wallExceeded && Quiet(env(w.clock + 1)) ==>
                  after == After(w.(clock := w.clock + 2), Raised(NO_SECOND_ROUND)))
  {
    hide Sequence, Remaining, RunStage, Explained, Forward, IsTerminal, MayStart, FlagKept;
    PlanningSourcesFirst(HasCandidates(w), w.c.steps);
    DiscoveringHasNoWayBack();
    MayStartKeeps(w, true, env);
    MayStartQuietly(w, true, env);
    hide Steady;
    var may := MayStart(w, true, env);
    if may.status == Done {
      StageIsRefused(may.w, PlanningSources, env);
    }
  }

  lemma MayStartQuietly(w: World, timed: bool, env: Env)
    ensures !w.flag && Quiet(env(w.clock)) && !(timed && env(w.clock).wallExceeded) ==>
              MayStart(w, timed, env) == After(w.(clock := w.clock + 1), Done)
    ensures MayStart(w, timed, env).status in {Done, Crashed, Raised(BudgetExceeded), Raised(CancelledError)}
  {}

  lemma RoundSentBack(setup: Setup, w: World, round: nat, env: Env)
    requires Standing(w, SentBack)
    ensures var (end, replanned) := Round(setup, w, round, env);
            && !replanned && end.w.ran == w.ran && end.w.disk == w.disk && Kept(w, end.w) && SentBackStatus(end.status)
            && (Over(end.w) ==> !IllegalRaise(end.status)) && (Overtaken(end.status) ==> Over(end.w))
            && (end.status == Done ==> Over(end.w)) && end.w.lanes == w.lanes
            && (!w.flag && Quiet(env(w.clock)) && Quiet(env(w.clock + 1)) && !env(w.clock + 1).wallExceeded
                && Quiet(env(w.clock + 2)) ==>
                  end == After(w.(clock := w.clock + 3), Raised(NO_SECOND_ROUND)))
  {
    hide Pipeline;
    MayStartKeeps(w, false, env);
    MayStartQuietly(w, false, env);
    var may := MayStart(w, false, env);
    if may.status == Done {
      PipelineSentBack(may.w, env);
    }
  }

  lemma BodySentBack(setup: Setup, w: World, env: Env)
    requires Standing(w, SentBack) && w.round <= setup.maxRounds
    ensures var body := Body(setup, w, env);
            && body.w.ran == w.ran && SentBackStatus(body.status) && body.w.disk == w.disk
            && (Overtaken(body.status) ==> Over(body.w))
            && (if Over(body.w) then body.w.c.row.state == Cancelled && body.w.flag && !IllegalRaise(body.status)
                else body.w.c.row == w.c.row && body.w.c.steps == w.c.steps)
            && (!w.flag && Quiet(env(w.clock)) && Quiet(env(w.clock + 1)) && !env(w.clock + 1).wallExceeded
                && Quiet(env(w.clock + 2)) ==>
                  body.status == Raised(NO_SECOND_ROUND)
                  && body.w.clock == w.clock + 3 && !body.w.flag && !Over(body.w))
  {
    hide Round;
    var begun := w.(lanes := w.lanes + setup.blockedAtOpen);
    RoundSentBack(setup, begun, w.round, env);
    assert EnsureReference(begun, env) == After(begun, Done);
    assert Body(setup, w, env) == Round(setup, begun, w.round, env).0;
  }

  // Nothing disturbs the next beats.
  predicate LeftAlone(w: World, env: Env) {
    && !w.flag && Quiet(env(w.clock)) && Quiet(env(w.clock + 1)) && !env(w.clock + 1).wallExceeded
    && Quiet(env(w.clock + 2)) && Quiet(env(w.clock + 3)) && Quiet(env(w.clock + 4))
  }

  // What the except clauses make of an active campaign.
  predicate StoppedAs(w: World, exn: Exn, after: After) {
    if Over(after.w)
    then || (after.w.c.row.state == Failed && exn != BudgetExceeded)
         || (after.w.c.row.state == Partial && exn == BudgetExceeded)
         || (after.w.c.row.state == Cancelled && after.w.flag)
    else && after.w.c.row == w.c.row && after.w.c.steps == w.c.steps
         && (after.status == Crashed || after.w.flag || !AfterDiscovery(w.c.row.state))
  }

  lemma StopsAs(setup: Setup, w: World, exn: Exn, env: Env)
    requires !Over(w) && exn != CancelledError
    ensures var after := Stop(setup, w, exn, env);
            && after.w.ran == w.ran && HasCandidates(after.w) == HasCandidates(w) && StoppedAs(w, exn, after)
            && (exn != BudgetExceeded && !w.flag && Quiet(env(w.clock)) && Quiet(env(w.clock + 1)) ==>
                  after.w.c.row.state == Failed && (after.status == Done <==> !env(w.clock + 2).crash))
  {
    hide Stop, Kept, FlaggedAfter, ReachesTheVerdict, ReachesTheCheck, AfterDiscovery;
    StopExactly(setup, w, exn, env);
    StopKeepsSteps(setup, w, exn, env);
    StopKept(w, Stop(setup, w, exn, env).w);
    QuietReaches(w, env);
  }

  /** What a run makes of a try block that leaves the campaign active, and of one that does not. */
  lemma RunAfterBody(setup: Setup, w: World, env: Env)
    requires !Over(w)
    ensures var body, e := Body(setup, w, env), Run(setup, w, env);
            && e.cause == body.status && e.w.ran == body.w.ran && HasCandidates(e.w) == HasCandidates(body.w)
            && (if Over(body.w) then e.w.c.row == body.w.c.row && (body.w.flag ==> e.w.flag)
                else if body.status.Raised? && body.status != Raised(CancelledError)
                then StoppedAs(body.w, body.status.exn, After(e.w, if e.outcome == Died then Crashed else Done))
                else e.w == body.w && (e.outcome == Died || e.w.flag))
            && (!Over(body.w) && body.status.Raised? && body.status != Raised(BudgetExceeded)
                && body.status != Raised(CancelledError) && !body.w.flag
                && Quiet(env(body.w.clock)) && Quiet(env(body.w.clock + 1)) ==>
                  e.w.c.row.state == Failed && (e.outcome == Finished <==> !env(body.w.clock + 2).crash))
  {
    hide Body, Stop, AfterDiscovery, Explained, VerdictOf, HasCandidates;
    BodyEnds(setup, w, env);
    var body := Body(setup, w, env);
    WhatExplainedSays(env, body);
    if body.status.Raised? && body.status != Raised(CancelledError) {
      if Over(body.w) {
        StopOver(setup, body.w, body.status.exn, env);
        SameCandidates(body.w, Stop(setup, body.w, body.status.exn, env).w);
      } else {
        StopsAs(setup, body.w, body.status.exn, env);
      }
    }
  }

  lemma SameCandidates(w: World, v: World)
    requires v.disk == w.disk
    ensures HasCandidates(v) == HasCandidates(w)
  {}

  lemma StopKept(w: World, v: World)
    requires !Over(w)
    ensures Kept(w, v) && Over(v) ==> v.c.row.state == Cancelled && v.flag
  {}

  /** What becomes of a campaign that was sent back, exactly: no stage is handled again. Left alone it ends
      FAILED, on the edge from DISCOVERING to PLANNING_SOURCES; otherwise it is cancelled, ends PARTIAL on
      a spent budget, or stays sent back for the next process. */
  lemma SentBackOnlyFails(setup: Setup, w: World, env: Env)
    requires Standing(w, SentBack) && w.round <= setup.maxRounds
    ensures var e := Run(setup, w, env);
            && e.w.ran == w.ran && SentBackStatus(e.cause)
            && (if Over(e.w)
                then || (e.w.c.row.state == Failed && e.cause == Raised(NO_SECOND_ROUND))
                     || (e.w.c.row.state == Partial && e.cause == Raised(BudgetExceeded))
                     || (e.w.c.row.state == Cancelled && e.w.flag)
                else Standing(e.w, SentBack) && (e.outcome == Died || e.w.flag))
            && (LeftAlone(w, env) ==> e.w.c.row.state == Failed && (e.outcome == Finished <==> !env(w.clock + 5).crash))
  {
    hide Body, Run, Standing, AfterDiscovery;
    SentBackIsLate(w);
    BodySentBack(setup, w, env);
    RunAfterBody(setup, w, env);
    SentBackStays(w, Run(setup, w, env).w);
  }

  lemma SentBackIsLate(w: World)
    requires Standing(w, SentBack)
    ensures AfterDiscovery(w.c.row.state) && !Over(w)
  {}

  /** With its rounds used up such a campaign gets a verdict at once, or FAILED where COMPLETE is not to be had. */
  lemma SentBackOverdue(setup: Setup, w: World, env: Env)
    requires Standing(w, SentBack) && w.round > setup.maxRounds
    ensures var e := Run(setup, w, env);
            && e.w.ran == w.ran && (IllegalRaise(e.cause) ==> e.cause == EdgeRefused(w, Complete))
            && (if Over(e.w) then e.w.c.row.state in {Failed, Partial, Blocked, Cancelled} else Standing(e.w, SentBack))
  {
    hide Terminate, Run, T.TerminalFor, Kept, Standing, AfterDiscovery, Forward, FlaggedAfter, ReachesTheCheck,
         ReachesTheVerdict;
    var begun := w.(lanes := w.lanes + setup.blockedAtOpen);
    SentBackIsLate(w);
    SentBackStays(w, begun);
    SentBackIsReferenced(begun, env);
    var body := Body(setup, w, env);
    assert body == Terminate(setup, begun, None, env);
    TerminateExactly(setup, begun, None, env);
    VerdictTargets(FactsOf(setup, begun), None);
    NotCompleteFromDiscovery(begun.c.row.state);
    RunAfterBody(setup, w, env);
    SentBackStays(begun, body.w);
    if !Over(body.w) {
      SentBackStays(body.w, Run(setup, w, env).w);
    }
  }

  lemma SentBackIsReferenced(w: World, env: Env)
    requires Standing(w, SentBack)
    ensures EnsureReference(w, env) == After(w, Done) && w.c.row.state == Discovering
  {}

  lemma NotCompleteFromDiscovery(s: CampaignState)
    ensures s == Discovering ==> {Partial, Blocked} <= Forward(s) && Complete !in Forward(s)
  {}

  lemma SentBackStays(w: World, v: World)
    requires Standing(w, SentBack)
    ensures Kept(w, v) ==> if Over(v) then v.c.row.state == Cancelled else Standing(v, SentBack)
    ensures v.c.row == w.c.row && v.c.steps == w.c.steps ==> Standing(v, SentBack)
  {}

  lemma QuietReaches(w: World, env: Env)
    ensures !w.flag && Quiet(env(w.clock)) && Quiet(env(w.clock + 1)) ==>
              ReachesTheVerdict(w, env) && ReachesTheCheck(w, env)
  {}

  // ---------------------------------------------------------------- past the matching stages

  // The first stage of a sequence that is not completed is the first of what remains.
  lemma {:induction false} FirstRemaining(stages: seq<CampaignState>, completed: seq<CampaignState>, k: nat)
    requires k < |stages| && stages[k] !in completed && forall i :: 0 <= i < k ==> stages[i] in completed
    ensures Remaining(stages, completed) != [] && Remaining(stages, completed)[0] == stages[k]
    decreases |stages|
  {
    if k > 0 {
      FirstRemaining(stages[1..], completed, k - 1);
    }
  }

  lemma FineMatchingIsNext(w: World)
    requires Standing(w, Skipped)
    ensures NextStage(w) == Some(FineMatching) && !Over(w) && w.c.row.state != BroadRetrieval
            && w.c.row.state != FineMatching
    ensures FineMatching !in Forward(w.c.row.state) && PlanningQueries in w.c.steps
  {
    SkippedEdges(w.c.row.state);
    hide Forward, IsTerminal;
    assert forall i :: 0 <= i < 6 ==> Plan(w)[i] == EARLY[i];
    assert Plan(w)[6] == FineMatching;
    FirstRemaining(Plan(w), w.c.steps, 6);
  }

  lemma SkippedEdges(s: CampaignState)
    ensures s == GapAnalysis || s == Replanning ==> FineMatching !in Forward(s) && !IsTerminal(s)
  {}

  /** A pass that skipped the matching stages is over without the lane for them, and refused with it. */
  lemma PipelineSkipped(w: World, env: Env)
    requires Standing(w, Skipped)
    ensures var after := Pipeline(w, env, {});
            && SameElse(w, after.w) && Kept(w, after.w) && (Overtaken(after.status) ==> Over(after.w))
            && (IllegalRaise(after.status) ==>
                  T.Routing !in w.lanes && after.status == EdgeRefused(w, FineMatching) && !Over(after.w))
            && (T.Routing !in w.lanes ==>
                  after.status in {Crashed, Raised(BudgetExceeded), Raised(CancelledError)}
                  || IllegalRaise(after.status) || Overtaken(after.status))
            && (T.Routing !in w.lanes && !w.flag && Quiet(env(w.clock)) && !env(w.clock).wallExceeded
                && Quiet(env(w.clock + 1)) ==>
                  after == After(w.(clock := w.clock + 2), EdgeRefused(w, FineMatching)))
  {
    hide Standing, NextStage, RunStage, MayStart, Forward, IsTerminal, FlagKept, EnterStage, HandleAndFinish;
    FineMatchingIsNext(w);
    MayStartKeeps(w, true, env);
    MayStartQuietly(w, true, env);
    hide Steady;
    var may := MayStart(w, true, env);
    if may.status == Done && T.Routing !in w.lanes {
      StageIsRefused(may.w, FineMatching, env);
      KeptOver(w, RunStage(may.w, FineMatching, env).w);
    }
  }

  lemma KeptOver(w: World, v: World)
    requires Kept(w, v) && !Over(w)
    ensures Over(v) ==> v.c.row != w.c.row
  {}

  // ---------------------------------------------------------------- a first round

  // All of a pass: with the lane for the matching stages, or without.
  predicate WholePass(v: World, k: nat, handled: nat) {
    k + handled == |Plan(v)| || (T.Routing in v.lanes && k + handled == 7)
  }

  // From k stages on to a place: what was handled in between, without a gap, and how it joins the place.
  // At most the last stage handled is to be repeated; only a replan cut short starts from the front again.
  ghost predicate Joins(handled: seq<CampaignState>, k: nat, v: World, q: Place) {
    && Standing(v, q) && Followed(handled, v, k)
    && match q
       case Ended => true
       case SentBack => WholePass(v, k, |handled|)
       case Stage(m) => k + |handled| - 1 <= m <= k + |handled| || (m == 0 && WholePass(v, k, |handled|))
       case InReference(_) => handled == []
       case Skipped => 6 <= k + |handled| <= 7
  }

  // What a run has handled so far.
  function Since(w: World, v: World): (handled: seq<CampaignState>)
    requires w.ran <= v.ran
  {
    v.ran[|w.ran|..]
  }

  ghost predicate Leads(w: World, k: nat, v: World, q: Place) {
    w.ran <= v.ran && Joins(Since(w, v), k, v, q)
  }

  function Start(p: Place): (k: nat) {
    match p
    case Stage(k) => k
    case Skipped => 7
    case _ => 0
  }

  // How a pass came to its end: at rest, or amid the matching stages without the lane for them.
  predicate CameToItsEnd(w: World, k: nat, v: World, q: Place)
    requires w.ran <= v.ran
  {
    (AtRest(v, q) && WholePass(v, k, |Since(w, v)|)) || (q.Stage? && Idle(v, q.k))
  }

  // The illegal edges of the retrieval lane: back to the matching stages once they were skipped, or out of them
  // to anywhere but their next one.
  predicate LaneMistake(routed: bool, p: Place, cause: Status) {
    && IllegalRaise(cause)
    && var edge := cause.exn.refusal;
       || (routed && p == Skipped && edge.source in {GapAnalysis, Replanning} && edge.target == FineMatching)
       || (!routed && edge.source in MATCH_STAGES && edge.target in {Replanning, Complete})
  }

  lemma PassLeads(w: World, k: nat, after: After, q: Place)
    requires Passed(w, k, after, q)
    ensures Leads(w, k, after.w, q) && (q == Ended <==> Over(after.w)) && (q == Ended || q.Stage? || q == Skipped)
    ensures after.status == Done && q != Ended ==> CameToItsEnd(w, k, after.w, q)
  {
    hide Standing, Idle;
  }

  lemma SkippedLeads(w: World, v: World) returns (q: Place)
    requires Standing(w, Skipped) && v.ran == w.ran && Kept(w, v) && HasCandidates(v) == HasCandidates(w)
    ensures Leads(w, 7, v, q) && q == if Over(v) then Ended else Skipped
    ensures !Over(v) && T.Routing in v.lanes ==> CameToItsEnd(w, 7, v, q)
  {
    assert Since(w, v) == [];
    q := if Over(v) then Ended else Skipped;
  }

  // Calls that handle nothing and leave the campaign standing, or end it, lead to the same place.
  lemma LeadsOn(w: World, k: nat, v: World, q: Place, u: World) returns (r: Place)
    requires Leads(w, k, v, q) && u.ran == v.ran && HasCandidates(u) == HasCandidates(v)
    requires T.Routing in u.lanes <==> T.Routing in v.lanes
    requires Over(u) || (u.c.row == v.c.row && u.c.steps == v.c.steps)
    ensures Leads(w, k, u, r) && r == if Over(u) then Ended else q
  {
    r := if Over(u) then Ended else q;
  }

  // A replan, or an attempt at one, leads to where it leaves the campaign.
  lemma ReplanLeads(w: World, k: nat, v: World, q: Place, u: World, r: Place)
    requires Leads(w, k, v, q) && WholePass(v, k, |Since(w, v)|) && u.ran == v.ran
             && HasCandidates(u) == HasCandidates(v)
    requires T.Routing in u.lanes <==> T.Routing in v.lanes
    requires Standing(u, r) && (r == Ended || r == q || r == Stage(0) || r == SentBack)
    ensures Leads(w, k, u, r)
  {
    hide Standing;
  }

  lemma LeadsWhateverTheRound(w: World, k: nat, v: World, q: Place, round: nat)
    requires Leads(w, k, v, q)
    ensures Leads(w, k, v.(round := round), q)
  {}

  // One pass from any place of a walk.
  lemma PassResumes(w: World, p: Place, env: Env) returns (q: Place)
    requires Standing(w, p) && (p.Stage? || p == Skipped)
    ensures var after := Pipeline(w, env, {});
            && Steady(w, after, env) && Leads(w, Start(p), after.w, q) && (q == Ended <==> Over(after.w))
            && (q == Ended || q.Stage? || q == Skipped) && (Overtaken(after.status) ==> Over(after.w))
            && (IllegalRaise(after.status) ==> LaneMistake(T.Routing !in w.lanes, p, after.status))
            && (after.status == Done && q != Ended ==> CameToItsEnd(w, Start(p), after.w, q))
  {
    hide Pipeline, Explained, Passed, Leads, CameToItsEnd;
    PipelineSteady(w, env, {});
    if p.Stage? {
      q := PipelineResumes(w, p.k, env, {});
      PassLeads(w, p.k, Pipeline(w, env, {}), q);
    } else {
      PipelineSkipped(w, env);
      q := SkippedLeads(w, Pipeline(w, env, {}).w);
    }
  }

  lemma RoundResumes(setup: Setup, w: World, p: Place, round: nat, env: Env) returns (q: Place)
    requires Standing(w, p) && (p.Stage? || p == Skipped)
    ensures var (end, replanned) := Round(setup, w, round, env);
            && Leads(w, Start(p), end.w, q) && (q == Ended <==> Over(end.w))
            && (T.Routing in end.w.lanes <==> T.Routing in w.lanes) && (Overtaken(end.status) ==> Over(end.w))
            && (IllegalRaise(end.status) ==> LaneMistake(T.Routing !in w.lanes, p, end.status))
            && !q.InReference? && (replanned && q != Ended ==> q == SentBack)
            && (!replanned && end.status == Done && q != Ended ==> CameToItsEnd(w, Start(p), end.w, q))
  {
    hide Standing, MayStart, Pipeline, Replan, Explained, Leads, CameToItsEnd, LaneMistake, AtRest, FlagKept;
    MayStartKeeps(w, false, env);
    var may := MayStart(w, false, env);
    if may.status != Done {
      q := NothingLeads(w, p, may.w);
    } else {
      StandsOn(w, p, may.w);
      q := PassResumes(may.w, p, env);
      var pass := Pipeline(may.w, env, {});
      LeadsFromTheBeat(w, may.w, Start(p), pass.w, q);
      if pass.status == Done && !Over(pass.w) {
        q := ReplanResumes(setup, w, p, pass.w, q, round, env);
      }
    }
  }

  lemma StandsOn(w: World, p: Place, v: World)
    requires Standing(w, p) && v.c == w.c && v.disk == w.disk
    ensures Standing(v, p)
  {}

  lemma NothingLeads(w: World, p: Place, v: World) returns (q: Place)
    requires Standing(w, p) && (p.Stage? || p == Skipped) && v.ran == w.ran && Kept(w, v) && v.disk == w.disk
    ensures Leads(w, Start(p), v, q) && (q == Ended <==> Over(v)) && !q.InReference? && q != SentBack
  {
    hide Followed;
    assert Since(w, v) == [];
    NothingFollowed(v, Start(p));
    SequenceIsPlan(HasCandidates(w));
    ActivePlaces(w, p);
    q := if Over(v) then Ended else p;
  }

  lemma LeadsFromTheBeat(w: World, v: World, k: nat, u: World, q: Place)
    requires Leads(v, k, u, q) && v.ran == w.ran
    ensures Leads(w, k, u, q)
    ensures CameToItsEnd(v, k, u, q) ==> CameToItsEnd(w, k, u, q)
  {}

  // What follows a pass that came to its end.
  lemma ReplanResumes(setup: Setup, w: World, p: Place, v: World, q: Place, round: nat, env: Env) returns (r: Place)
    requires Leads(w, Start(p), v, q) && CameToItsEnd(w, Start(p), v, q) && !Over(v)
    ensures var (after, replanned) := Replan(v, round < setup.maxRounds, env);
            var end := if replanned then after.(w := after.w.(round := round + 1)) else after;
            && Leads(w, Start(p), end.w, r) && (r == Ended <==> Over(end.w))
            && (T.Routing in end.w.lanes <==> T.Routing in v.lanes) && (Overtaken(end.status) ==> Over(end.w))
            && (IllegalRaise(end.status) ==> LaneMistake(T.Routing !in v.lanes, p, end.status))
            && !r.InReference? && (replanned && r != Ended ==> r == SentBack)
            && (!replanned && end.status == Done && r != Ended ==> CameToItsEnd(w, Start(p), end.w, r))
  {
    hide Standing, Replan, Explained, FlagKept;
    ReplanSteady(v, round < setup.maxRounds, env);
    var (after, replanned) := Replan(v, round < setup.maxRounds, env);
    if AtRest(v, q) && WholePass(v, Start(p), |Since(w, v)|) {
      r := ReplanExactly(v, q, round < setup.maxRounds, env);
      ReplanLeads(w, Start(p), v, q, after.w, r);
      LeadsWhateverTheRound(w, Start(p), after.w, r, round + 1);
    } else {
      IdleReplan(v, q.k, round < setup.maxRounds, env);
      IdleMistake(v, q.k, p, after.status);
      r := LeadsOn(w, Start(p), v, q, after.w);
      IdleStays(v, q.k, after.w);
    }
  }

  lemma IdleMistake(w: World, k: nat, p: Place, status: Status)
    requires Idle(w, k)
    ensures status == EdgeRefused(w, Replanning) || status == EdgeRefused(w, Complete) ==> LaneMistake(false, p, status)
  {}

  lemma IdleStays(w: World, k: nat, v: World)
    requires Idle(w, k) && Kept(w, v) && HasCandidates(v) == HasCandidates(w) && v.lanes == w.lanes
    ensures !Over(v) ==> Idle(v, k)
  {}

  // After a replan within a run nothing more is handled.
  lemma RoundsSentBack(setup: Setup, w: World, round: nat, env: Env)
    requires Standing(w, SentBack) && round <= setup.maxRounds
    ensures var after := Rounds(setup, w, round, env);
            && after.w.ran == w.ran && HasCandidates(after.w) == HasCandidates(w) && SentBackStatus(after.status)
            && after.w.lanes == w.lanes && (Overtaken(after.status) ==> Over(after.w))
            && (if Over(after.w) then !IllegalRaise(after.status)
                else after.w.c.row == w.c.row && after.w.c.steps == w.c.steps)
  {
    hide Round;
    RoundSentBack(setup, w, round, env);
  }

  // The verdict of a pass that came to its end.
  lemma VerdictLeads(setup: Setup, w: World, p: Place, v: World, q: Place, env: Env) returns (r: Place)
    requires Leads(w, Start(p), v, q) && CameToItsEnd(w, Start(p), v, q) && !Over(v)
    ensures var after := Terminate(setup, v, None, env);
            && Leads(w, Start(p), after.w, r) && (r == Ended <==> Over(after.w)) && !r.InReference?
            && (IllegalRaise(after.status) ==> LaneMistake(T.Routing !in v.lanes, p, after.status))
            && (Overtaken(after.status) ==> Over(after.w)) && after.w.ran == v.ran && after.w.lanes == v.lanes
            && HasCandidates(after.w) == HasCandidates(v)
  {
    hide Terminate, T.TerminalFor, Forward, LaneMistake, LetsPass, LetsRead, FlaggedAfter, Standing;
    TerminateExactly(setup, v, None, env);
    VerdictTargets(FactsOf(setup, v), None);
    TerminateEndsFairly(setup, v, env);
    VerdictsAreTerminal(VerdictOf(setup, v, None));
    if AtRest(v, q) && WholePass(v, Start(p), |Since(w, v)|) {
      RestMayReplan(v, q);
    } else {
      IdleEdges(v, q.k);
      IdleMistake(v, q.k, p, EdgeRefused(v, Complete));
    }
    r := LeadsOn(w, Start(p), v, q, Terminate(setup, v, None, env).w);
  }

  // ---------------------------------------------------------------- a run from any place

  // How a run that asked for an illegal edge came to it: it was sent back after its whole pass, the retrieval lane
  // came or went, or the rounds were used up before it began.
  predicate AskedLegally(setup: Setup, w: World, p: Place, v: World, handled: nat, cause: Status) {
    IllegalRaise(cause) ==>
      || (cause == Raised(NO_SECOND_ROUND) && WholePass(v, Start(p), handled))
      || LaneMistake(T.Routing !in v.lanes, p, cause)
      || (w.round > setup.maxRounds && handled == 0 && cause.exn.refusal.target in {Complete, Partial})
  }

  lemma RoundsResume(setup: Setup, w: World, p: Place, env: Env) returns (q: Place)
    requires Standing(w, p) && (p.Stage? || p == Skipped) && w.round <= setup.maxRounds
    ensures var after := Rounds(setup, w, w.round, env);
            && Leads(w, Start(p), after.w, q) && AskedLegally(setup, w, p, after.w, |Since(w, after.w)|, after.status)
            && (T.Routing in after.w.lanes <==> T.Routing in w.lanes)
            && (Overtaken(after.status) ==> Over(after.w)) && !q.InReference? && (q == Ended <==> Over(after.w))
  {
    hide Standing, Round, Terminate, Explained, CameToItsEnd, LaneMistake, FlagKept;
    RoundSteady(setup, w, w.round, env);
    q := RoundResumes(setup, w, p, w.round, env);
    var (end, replanned) := Round(setup, w, w.round, env);
    LeadsStands(w, Start(p), end.w, q);
    if end.status == Done && !Over(end.w) {
      if replanned {
        RoundsSentBack(setup, end.w, w.round + 1, env);
        var after := Rounds(setup, end.w, w.round + 1, env);
        q := LeadsOn(w, Start(p), end.w, SentBack, after.w);
        SentBackIsWhole(w, Start(p), end.w, after);
      } else {
        q := VerdictLeads(setup, w, p, end.w, q, env);
      }
    }
  }

  lemma LeadsStands(w: World, k: nat, v: World, q: Place)
    requires Leads(w, k, v, q)
    ensures Standing(v, q) && w.ran <= v.ran
  {}

  lemma SentBackIsWhole(w: World, k: nat, v: World, after: After)
    requires Leads(w, k, v, SentBack) && after.w.ran == v.ran && HasCandidates(after.w) == HasCandidates(v)
    requires after.w.lanes == v.lanes && SentBackStatus(after.status)
    ensures WholePass(after.w, k, |Since(w, after.w)|)
    ensures IllegalRaise(after.status) ==> after.status == Raised(NO_SECOND_ROUND)
  {
    hide Standing;
  }

  // With its rounds used up a run comes to its verdict at once.
  lemma RoundsOverdue(setup: Setup, w: World, p: Place, env: Env) returns (q: Place)
    requires Standing(w, p) && (p.Stage? || p == Skipped) && w.round > setup.maxRounds
    ensures var after := Rounds(setup, w, w.round, env);
            && Leads(w, Start(p), after.w, q) && AskedLegally(setup, w, p, after.w, |Since(w, after.w)|, after.status)
            && (T.Routing in after.w.lanes <==> T.Routing in w.lanes)
            && (Overtaken(after.status) ==> Over(after.w)) && !q.InReference? && (q == Ended <==> Over(after.w))
  {
    hide Standing, Terminate, T.TerminalFor, Forward, LaneMistake, LetsPass, LetsRead, FlaggedAfter;
    ActivePlaces(w, p);
    TerminateExactly(setup, w, None, env);
    VerdictTargets(FactsOf(setup, w), None);
    TerminateEndsFairly(setup, w, env);
    VerdictsAreTerminal(VerdictOf(setup, w, None));
    BlockedIsThere(w, p);
    SelfLeads(w, p);
    q := LeadsOn(w, Start(p), w, p, Terminate(setup, w, None, env).w);
  }

  lemma BlockedIsThere(w: World, p: Place)
    requires Standing(w, p) && (p.Stage? || p == Skipped)
    ensures Blocked in Forward(w.c.row.state)
  {
    if p.Stage? {
      StandsWhereBlockedIs(w.c.row.state, HasCandidates(w), p.k);
    }
  }

  lemma StandsWhereBlockedIs(state: CampaignState, has: bool, k: nat)
    requires k <= |Sequence(has)| && Stands(state, Sequence(has), k)
    ensures Blocked in Forward(state)
  {
    SequenceIsPlan(has);
    StagesMayBlock();
  }

  lemma StagesMayBlock()
    ensures forall s :: s in STAGES ==> Blocked in Forward(s)
    ensures Blocked in Forward(PlanningQueries) && Blocked in Forward(Replanning)
  {}

  lemma SelfLeads(w: World, p: Place)
    requires Standing(w, p) && (p.Stage? || p == Skipped)
    ensures Leads(w, Start(p), w, p)
  {
    assert Since(w, w) == [];
    SequenceIsPlan(HasCandidates(w));
  }

  // From here the campaign can still be walked to its end.
  predicate Walkable(p: Place) {
    p.Stage? || p == Skipped || (p.InReference? && p.i <= 1)
  }

  lemma NothingHandled(w: World, p: Place, v: World, q: Place)
    requires v.ran == w.ran && Standing(v, q) && (q == Ended || q.InReference? || q == Stage(0)) && p.InReference?
    ensures Leads(w, Start(p), v, q)
  {
    assert Since(w, v) == [];
    SequenceIsPlan(HasCandidates(v));
  }

  lemma BodyResumes(setup: Setup, w: World, p: Place, env: Env) returns (q: Place)
    requires Standing(w, p) && Walkable(p) && !Over(w)
    ensures var after := Body(setup, w, env);
            && Leads(w, Start(p), after.w, q) && AskedLegally(setup, w, p, after.w, |Since(w, after.w)|, after.status)
            && (T.Routing in after.w.lanes <==> T.Routing in w.lanes + setup.blockedAtOpen)
            && (Overtaken(after.status) ==> Over(after.w)) && (!p.InReference? ==> !q.InReference?)
            && (q == Ended <==> Over(after.w))
  {
    hide Standing, EnsureReference, Rounds, Leads, LaneMistake, WholePass;
    var begun := w.(lanes := w.lanes + setup.blockedAtOpen);
    StandsOn(w, p, begun);
    q := EnsureReferenceResumes(begun, p, env);
    ReferenceSteady(begun, env);
    var referenced := EnsureReference(begun, env);
    if referenced.status == Done && !Over(referenced.w) {
      var r := if p.InReference? then Stage(0) else p;
      if w.round <= setup.maxRounds {
        q := RoundsResume(setup, referenced.w, r, env);
      } else {
        q := RoundsOverdue(setup, referenced.w, r, env);
      }
      LeadsFromReference(setup, w, p, referenced.w, r, Body(setup, w, env), q);
    } else if p.InReference? {
      NothingHandled(w, p, referenced.w, q);
      NothingSince(w, referenced.w);
    }
  }

  lemma NothingSince(w: World, v: World)
    requires v.ran == w.ran
    ensures Since(w, v) == []
  {}

  lemma LeadsFromReference(setup: Setup, w: World, p: Place, v: World, r: Place, after: After, q: Place)
    requires v.ran == w.ran && v.round == w.round && r == if p.InReference? then Stage(0) else p
    requires Leads(v, Start(r), after.w, q) && AskedLegally(setup, v, r, after.w, |Since(v, after.w)|, after.status)
    ensures Leads(w, Start(p), after.w, q) && AskedLegally(setup, w, p, after.w, |Since(w, after.w)|, after.status)
  {
    hide Standing;
  }

  lemma ReferenceSteady(w: World, env: Env)
    ensures var after := EnsureReference(w, env);
            && after.w.ran == w.ran && after.w.round == w.round
            && (T.Routing in after.w.lanes <==> T.Routing in w.lanes)
            && (Over(after.w) && !Over(w) ==> after.w.c.row.state == Cancelled && after.w.flag)
  {
    hide Wave;
    WaveSteady(w, 1, env);
  }

  /** Crash resume: a run that finds a walk anywhere handles the stages from there on, in order; however it ends,
      the campaign has ended or stands where the handled stages join the next process's, at most one to be
      repeated; and it asks for an illegal edge only after a completed replan, over the retrieval lane, or with
      its rounds used up. */
  lemma RunResumes(setup: Setup, w: World, p: Place, env: Env) returns (q: Place)
    requires Standing(w, p) && Walkable(p) && !Over(w)
    ensures var e := Run(setup, w, env);
            && Leads(w, Start(p), e.w, q) && (q == Ended <==> Over(e.w))
            && AskedLegally(setup, w, p, e.w, |Since(w, e.w)|, e.cause)
            && (IllegalRaise(e.cause) && Over(e.w) ==> e.w.c.row.state == Failed || e.w.c.row.state == Cancelled)
            && (!p.InReference? ==> !q.InReference?)
  {
    hide Standing, Body, Stop, VerdictOf, AfterDiscovery, Leads, LaneMistake, FlaggedAfter, ReachesTheVerdict,
         ReachesTheCheck, Explained;
    var body := Body(setup, w, env);
    RunEnds(setup, w, env);
    var r := BodyResumes(setup, w, p, env);
    var e := Run(setup, w, env);
    q := r;
    if body.status.Raised? && body.status != Raised(CancelledError) {
      if Over(body.w) {
        StopOver(setup, body.w, body.status.exn, env);
      } else {
        StopExactly(setup, body.w, body.status.exn, env);
        StopKeepsSteps(setup, body.w, body.status.exn, env);
      }
      q := LeadsOn(w, Start(p), body.w, r, e.w);
      SameSince(w, Start(p), body.w, r, e.w);
    }
  }

  lemma SameSince(w: World, k: nat, v: World, q: Place, u: World)
    requires Leads(w, k, v, q) && u.ran == v.ran && HasCandidates(u) == HasCandidates(v)
    requires T.Routing in u.lanes <==> T.Routing in v.lanes
    ensures w.ran <= u.ran && Since(w, u) == Since(w, v)
    ensures forall handled: nat :: WholePass(u, k, handled) <==> WholePass(v, k, handled)
  {}

  /** A campaign whose process died inside the reference wave, past its first step, is lost: the next run is
      refused at once, handles nothing, and records FAILED unless it dies or the campaign is being cancelled. */
  lemma LostCampaignFails(setup: Setup, w: World, i: nat, env: Env)
    requires Standing(w, InReference(i)) && i > 1
    ensures var e := Run(setup, w, env);
            && e.w.ran == w.ran
            && (e.cause in {Crashed, Raised(CancelledError), NoSecondWave(w)} || Overtaken(e.cause))
            && (if Over(e.w) then e.w.c.row.state == Failed || e.w.c.row.state == Cancelled
                else Standing(e.w, InReference(i)))
            && (!w.flag && Quiet(env(w.clock)) && Quiet(env(w.clock + 1)) && Quiet(env(w.clock + 2)) ==>
                  e.w.c.row.state == Failed && e.cause == NoSecondWave(w))
  {
    hide InWave, Body, Run, EnsureReference, AfterDiscovery, Kept, Explained;
    WaveIsBeforeTheWalk(w.c.row.state, w.c.steps, i);
    var begun := w.(lanes := w.lanes + setup.blockedAtOpen);
    StandsOn(w, InReference(i), begun);
    var q := EnsureReferenceResumes(begun, InReference(i), env);
    KeptStands(begun, i, EnsureReference(begun, env).w);
    LostBody(setup, w, i, env);
    RunAfterBody(setup, w, env);
  }

  lemma LostBody(setup: Setup, w: World, i: nat, env: Env)
    requires Standing(w, InReference(i)) && i > 1
    ensures var begun := w.(lanes := w.lanes + setup.blockedAtOpen);
            Body(setup, w, env) == EnsureReference(begun, env)
  {
    hide InWave, EnsureReference, Rounds, Explained;
    WaveIsBeforeTheWalk(w.c.row.state, w.c.steps, i);
    var begun := w.(lanes := w.lanes + setup.blockedAtOpen);
    StandsOn(w, InReference(i), begun);
    var q := EnsureReferenceResumes(begun, InReference(i), env);
  }

  lemma KeptStands(w: World, i: nat, v: World)
    requires Standing(w, InReference(i)) && Kept(w, v)
    ensures if Over(v) then v.c.row.state == Cancelled && v.flag
            else Standing(v, InReference(i)) && v.c.row == w.c.row && v.c.steps == w.c.steps
    ensures !Over(w)
  {
    WaveIsBeforeTheWalk(w.c.row.state, w.c.steps, i);
  }
}
