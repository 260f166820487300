/** The process itself: CampaignOrchestrator of src/searcher/campaigns/orchestrator.py, updating the
    stored campaign in place through its controller. Every method does exactly what the function of the
    same step in Process says; what that amounts to is proved about those functions. */
module Orchestrator {
  import opened Wrappers
  import opened Transitions
  import opened EventLog
  import opened Cancellation
  import opened Controller
  import opened Walk
  import L = Lifetimes
  import P = Process
  import R = Resume
  import T = Terminal

  class CampaignOrchestrator {
    const controller: CampaignController
    const setup: P.Setup
    var round: nat
    var lanes: set<T.Lane>
    var clock: nat
    ghost var ran: seq<CampaignState>     // the stages of the walk whose handlers were called, in order

    constructor (controller: CampaignController, maxRounds: nat, saturationReal: int, blockedAtOpen: set<T.Lane>)
      ensures this.controller == controller
      ensures setup == P.Setup(if maxRounds == 0 then 1 else maxRounds, saturationReal, blockedAtOpen)
      ensures World() == P.World(controller.View(), controller.disk, controller.checkpoints,
                                 controller.orchestratorRound, controller.CancelRequested(), 0, {}, [])
    {
      this.controller := controller;
      setup := P.Setup(if maxRounds == 0 then 1 else maxRounds, saturationReal, blockedAtOpen);
      round, lanes, clock, ran := 1, {}, 0, [];
    }

    ghost function World(): P.World
      reads this, controller, controller.cancellation
    {
      P.World(controller.View(), controller.disk, controller.checkpoints, controller.orchestratorRound,
              controller.CancelRequested(), clock, lanes, ran)
    }

    // What of a cancel() comes in between.
    method Cancel(sig: P.Signal, dies: bool)
      modifies controller`row, controller`steps, controller`log, controller`checkpoints, controller`commits,
               controller.cancellation
      ensures World() == P.Cancelling(old(World()), sig, dies)
    {
      hide CancelledUpTo, CancelContext;
      if sig.flagOnly {
        controller.cancellation.Request(controller.searchId);
      } else {
        controller.CancelUpTo(if dies then sig.reach else Whole);
      }
    }

    // One beat of the environment: a cancel() may land, and the process may be about to die.
    method Beat(env: P.Env) returns (sig: P.Signal, status: Status)
      modifies `clock, controller`row, controller`steps, controller`log, controller`checkpoints, controller`commits,
               controller.cancellation
      ensures sig == env(old(clock))
      ensures P.After(World(), status) == P.Beat(old(World()), env)
    {
      hide P.Cancelling;
      sig := env(clock);
      clock := clock + 1;
      if sig.cancel {
        Cancel(sig, sig.crash);
      }
      status := if sig.crash then Crashed else Done;
    }

    // What comes in between the writes of a transition.
    method Meanwhile(sig: P.Signal, at: P.Moment) returns (status: Status)
      modifies controller`row, controller`steps, controller`log, controller`checkpoints, controller`commits,
               controller.cancellation
      ensures P.After(World(), status) == P.Meanwhile(old(World()), sig, at)
    {
      hide P.Cancelling;
      if P.CancelsAt(sig, at) {
        Cancel(sig, P.DiesAt(sig, at));
      }
      status := if P.DiesAt(sig, at) then Crashed else Done;
    }

    method Announce(name: EventName, entered: Option<CampaignState>)
      modifies controller`log
      ensures World() == P.Announced(old(World()), name, entered)
    {
      controller.Announce(name, entered);
    }

    method Checkpoint(at: Label, env: P.Env) returns (status: Status)
      modifies `clock, controller`row, controller`steps, controller`log, controller`checkpoints, controller`commits,
               controller.cancellation
      ensures P.After(World(), status) == P.Checkpointing(old(World()), at, env)
    {
      hide P.Beat;
      if env(clock).crash && env(clock).torn {
        controller.StoreCheckpoint(at);
      } else {
        controller.TakeCheckpoint(at);
      }
      var sig: P.Signal;
      sig, status := Beat(env);
    }

    // transition(), write by write.
    method Enter(target: CampaignState, ctx: TransitionContext, env: P.Env) returns (status: Status)
      modifies `clock, controller`row, controller`steps, controller`log, controller`checkpoints, controller`commits,
               controller.cancellation
      ensures P.After(World(), status) == P.Entered(old(World()), target, ctx, env)
    {
      hide TransitionCheck, P.Meanwhile, P.FromRead;
      var cancelled := controller.cancellation.IsCancelled(controller.searchId);
      if cancelled {
        return Raised(CancelledError);
      }
      var sig := env(clock);
      clock := clock + 1;
      status := Meanwhile(sig, P.BeforeRead);
      if status == Done {
        status := ReadAndWrite(target, ctx, sig);
      }
    }

    method ReadAndWrite(target: CampaignState, ctx: TransitionContext, sig: P.Signal) returns (status: Status)
      modifies controller`row, controller`steps, controller`log, controller`checkpoints, controller`commits,
               controller.cancellation
      ensures P.After(World(), status) == P.FromRead(old(World()), target, ctx, sig)
    {
      hide TransitionCheck, P.Meanwhile, P.TellingOf, Written, Emit;
      var seen := controller.row;
      var r := TransitionCheck(seen.state, false, target, ctx);
      if r.Fail? {
        return Raised(Thrown(r.error));
      }
      R.MeanwhileKeeps(World(), sig, P.BeforeWrite);
      status := Meanwhile(sig, P.BeforeWrite);
      if status != Done {
        return;
      }
      var version := seen.version + 1;
      var current := controller.WriteRow(seen, target, ctx, P.TellingOf(sig, target));
      if !current {
        return Raised(Stale);
      }
      status := Meanwhile(sig, P.BeforeEvent);
      if status == Done {
        controller.Tell(version, target);
        status := Meanwhile(sig, P.AfterEvent);
      }
    }

    /** _enter */
    method EnterStage(target: CampaignState, env: P.Env) returns (status: Status)
      modifies `clock, controller`row, controller`steps, controller`log, controller`checkpoints, controller`commits,
               controller.cancellation
      ensures P.After(World(), status) == P.EnterStage(old(World()), target, env)
    {
      hide P.Entered;
      if IsTerminal(controller.row.state) || controller.row.state == target {
        return Done;
      }
      status := Enter(target, ContextFromDisk(controller.row, controller.disk), env);
    }

    // The events of a handler.
    method Say(names: seq<EventName>)
      modifies controller`log
      ensures controller.log == P.Said(old(controller.log), controller.row.version, names)
    {
      hide Emit;
      for i := 0 to |names|
        invariant P.Said(controller.log, controller.row.version, names[i..])
                  == P.Said(old(controller.log), controller.row.version, names)
      {
        assert names[i..][0] == names[i] && names[i..][1..] == names[i + 1..];
        if names[i] != SearchState {
          controller.Announce(names[i], None);
        }
      }
    }

    /** The handler of one stage: it may change what is on disk, and it may fail. */
    method Handler(stage: CampaignState, sig: P.Signal) returns (status: Status)
      modifies `lanes, controller`log, controller`disk, controller.cancellation
      ensures P.After(World(), status) == P.Handled(old(World()), stage, sig)
    {
      hide P.Faulted, P.LanesAfter, P.CoverageAfter, P.CandidatesAfter, P.Said;
      var cancelled := controller.cancellation.IsCancelled(controller.searchId);
      status := P.Faulted(sig.fault, cancelled);
      Say(sig.said);
      lanes := P.LanesAfter(lanes, sig);
      controller.disk := sig.disk.(
        candidates := P.CandidatesAfter(stage, controller.disk.candidates, sig.disk.candidates),
        coverage := P.CoverageAfter(stage, controller.disk.coverage, sig, lanes, status == Done));
    }

    // The handler, and what may come before and after it.
    method Handle(stage: CampaignState, env: P.Env) returns (status: Status)
      modifies `clock, `lanes, controller`row, controller`steps, controller`log, controller`checkpoints,
               controller`disk, controller`commits, controller.cancellation
      ensures P.After(World(), status) == P.Handle(old(World()), stage, env)
    {
      hide P.Beat, P.Handled;
      var sig: P.Signal;
      sig, status := Beat(env);
      if status == Done {
        status := Handler(stage, sig);
        if status == Done {
          sig, status := Beat(env);
        }
      }
    }

    /** _finish_stage */
    method FinishStage(stage: CampaignState, env: P.Env) returns (status: Status)
      modifies `clock, controller`row, controller`steps, controller`log, controller`checkpoints, controller`commits,
               controller.cancellation
      ensures P.After(World(), status) == P.FinishStage(old(World()), stage, env)
    {
      hide P.Checkpointing;
      status := Checkpoint(ForStage(stage), env);
      if status == Done {
        controller.MarkStep(stage);
      }
    }

    // A stage that was entered: its handler and, if it comes back, the end of the stage.
    method HandleAndFinish(stage: CampaignState, env: P.Env) returns (status: Status)
      modifies `clock, `lanes, controller`row, controller`steps, controller`log, controller`checkpoints,
               controller`disk, controller`commits, controller.cancellation
      ensures P.After(World(), status) == P.HandleAndFinish(old(World()), stage, env)
    {
      hide P.Handle, P.FinishStage;
      status := Handle(stage, env);
      if status == Done {
        status := FinishStage(stage, env);
      }
    }

    // The same for a stage of the walk, on record.
    method HandleStage(stage: CampaignState, env: P.Env) returns (status: Status)
      modifies `clock, `lanes, `ran, controller`row, controller`steps, controller`log, controller`checkpoints,
               controller`disk, controller`commits, controller.cancellation
      ensures var w := old(World());
              P.After(World(), status) == P.HandleAndFinish(w.(ran := w.ran + [stage]), stage, env)
    {
      ran := ran + [stage];
      status := HandleAndFinish(stage, env);
    }

    // The opening of a stage: enter it and announce it.
    method OpenStage(stage: CampaignState, env: P.Env) returns (status: Status)
      modifies `clock, controller`row, controller`steps, controller`log, controller`checkpoints, controller`commits,
               controller.cancellation
      ensures P.After(World(), status) == P.OpenStage(old(World()), stage, env)
    {
      hide P.EnterStage, P.Announced;
      status := EnterStage(stage, env);
      if status == Done {
        Announce(SearchProgress, None);
      }
    }

    /** One stage: enter, announce, handle, checkpoint, mark. */
    method RunStage(stage: CampaignState, env: P.Env) returns (status: Status)
      modifies `clock, `lanes, `ran, controller`row, controller`steps, controller`log, controller`checkpoints,
               controller`disk, controller`commits, controller.cancellation
      ensures P.After(World(), status) == P.RunStage(old(World()), stage, env)
    {
      hide P.OpenStage, P.HandleAndFinish;
      status := OpenStage(stage, env);
      if status == Done {
        status := HandleStage(stage, env);
      }
    }

    // The checks before a round, and before every stage of it: cancellation, then the wall clock.
    method MayStart(timed: bool, env: P.Env) returns (status: Status)
      modifies `clock, controller`row, controller`steps, controller`log, controller`checkpoints, controller`commits,
               controller.cancellation
      ensures P.After(World(), status) == P.MayStart(old(World()), timed, env)
    {
      hide P.Beat;
      var sig: P.Signal;
      sig, status := Beat(env);
      if status == Done {
        var cancelled := controller.cancellation.IsCancelled(controller.searchId);
        status := if cancelled then Raised(CancelledError)
                  else if timed && sig.wallExceeded then Raised(BudgetExceeded)
                  else Done;
      }
    }

    // The retrieval lane is missing.
    method SkipMatching(state: CampaignState, env: P.Env) returns (status: Status)
      modifies `clock, `lanes, `ran, controller`row, controller`steps, controller`log, controller`checkpoints,
               controller`disk, controller`commits, controller.cancellation
      ensures P.After(World(), status) == P.SkipMatching(old(World()), state, env)
    {
      hide P.EnterStage, P.HandleAndFinish;
      if state != BroadRetrieval {
        return Done;
      }
      status := EnterStage(GapAnalysis, env);
      if status == Done {
        status := HandleStage(GapAnalysis, env);
      }
    }

    /** _run_pipeline */
    method RunPipeline(env: P.Env) returns (status: Status)
      modifies `clock, `lanes, `ran, controller`row, controller`steps, controller`log, controller`checkpoints,
               controller`disk, controller`commits, controller.cancellation
      ensures P.After(World(), status) == P.Pipeline(old(World()), env, {})
    {
      hide P.MayStart, P.SkipMatching, P.RunStage, Remaining, Sequence;
      var seen: set<CampaignState> := {};
      while true
        invariant P.Pipeline(World(), env, seen) == P.Pipeline(old(World()), env, {})
        decreases STAGES - seen
      {
        if IsTerminal(controller.row.state) {
          return Done;
        }
        var state := controller.row.state;
        ghost var next := P.NextStage(World());
        var remaining := Remaining(Sequence(controller.disk.candidates > 0), controller.steps);
        if remaining == [] {
          return Done;
        }
        var stage := remaining[0];
        assert next == Some(stage);
        if stage in seen {
          return Done;
        }
        status := MayStart(true, env);
        if status != Done {
          return;
        }
        if stage in MATCH_STAGES && T.Routing in lanes {
          status := SkipMatching(state, env);
          return;
        }
        status := RunStage(stage, env);
        if status != Done {
          return;
        }
        seen := seen + {stage};
      }
    }

    method WaveStep(n: nat, env: P.Env) returns (status: Status)
      requires 1 <= n <= 6
      modifies `clock, `lanes, controller`row, controller`steps, controller`log, controller`checkpoints,
               controller`disk, controller`commits, controller.cancellation
      ensures P.After(World(), status) == P.WaveStep(old(World()), n, env)
    {
      hide P.Entered, P.HandleAndFinish;
      var step := SPINE[n];
      status := Done;
      if controller.row.state != step {
        status := Enter(step, ContextFromDisk(controller.row, controller.disk), env);
      }
      if status == Done {
        status := HandleAndFinish(step, env);
      }
    }

    /** run_reference_query_wave */
    method ReferenceWave(env: P.Env) returns (status: Status)
      modifies `clock, `lanes, controller`row, controller`steps, controller`log, controller`checkpoints,
               controller`disk, controller`commits, controller.cancellation
      ensures P.After(World(), status) == P.Wave(old(World()), 1, env)
    {
      hide P.WaveStep;
      for n := 1 to 7
        invariant P.Wave(World(), n, env) == P.Wave(old(World()), 1, env)
      {
        status := WaveStep(n, env);
        if status != Done {
          return;
        }
      }
      return Done;
    }

    /** _ensure_reference: the wave runs unless it is known to be done or the walk has begun. */
    method EnsureReference(env: P.Env) returns (status: Status)
      modifies `clock, `lanes, controller`row, controller`steps, controller`log, controller`checkpoints,
               controller`disk, controller`commits, controller.cancellation
      ensures P.After(World(), status) == P.EnsureReference(old(World()), env)
    {
      hide P.Wave;
      if PlanningQueries in controller.steps || !BeforeTheWalk(controller.row.state) {
        return Done;
      }
      status := ReferenceWave(env);
    }

    // The end of _replan: finish REPLANNING and enter DISCOVERING again.
    method BackToDiscovery(env: P.Env) returns (status: Status)
      modifies `clock, controller`row, controller`steps, controller`log, controller`checkpoints, controller`commits,
               controller.cancellation
      ensures P.After(World(), status) == P.BackToDiscovery(old(World()), env)
    {
      hide P.FinishStage, P.EnterStage;
      status := FinishStage(Replanning, env);
      if status == Done {
        status := EnterStage(Discovering, env);
      }
    }

    // _replan once it has found a query.
    method SendBack(query: string, env: P.Env) returns (status: Status)
      modifies `clock, controller`row, controller`steps, controller`log, controller`checkpoints, controller`disk,
               controller`commits, controller.cancellation
      ensures P.After(World(), status) == P.SendBack(old(World()), query, env)
    {
      hide P.OpenStage, P.Beat, P.BackToDiscovery;
      controller.disk := controller.disk.(queries := controller.disk.queries + [query]);
      status := OpenStage(Replanning, env);
      if status != Done {
        return;
      }
      var sig: P.Signal;
      sig, status := Beat(env);
      if status != Done {
        return;
      }
      controller.steps := if PlanningQueries in controller.steps then [PlanningQueries] else [];
      status := BackToDiscovery(env);
    }

    /** _replan */
    method Replan(env: P.Env) returns (status: Status, replanned: bool)
      modifies `clock, controller`row, controller`steps, controller`log, controller`checkpoints, controller`disk,
               controller`commits, controller.cancellation
      ensures (P.After(World(), status), replanned) == P.Replan(old(World()), round < setup.maxRounds, env)
    {
      hide P.Beat, P.SendBack;
      if round >= setup.maxRounds {
        return Done, false;
      }
      var sig: P.Signal;
      sig, status := Beat(env);
      if status != Done {
        return status, false;
      }
      if sig.stop || IsTerminal(controller.row.state) || !sig.learned {
        return Done, false;
      }
      status := SendBack(sig.query, env);
      replanned := status == Done;
    }

    // The recording of a verdict: commit, checkpoint, announce.
    method Record(choice: T.Choice, reason: string, env: P.Env) returns (status: Status)
      modifies `clock, controller`row, controller`steps, controller`log, controller`checkpoints, controller`commits,
               controller.cancellation
      ensures P.After(World(), status) == P.Record(old(World()), choice, reason, env)
    {
      hide P.Entered, P.Beat, P.Checkpointing, P.Announced;
      var sig: P.Signal;
      status := Enter(choice.target, VerdictContext(controller.row, controller.disk, choice, reason), env);
      if status == Done {
        sig, status := Beat(env);
      }
      if status == Done {
        status := Checkpoint(AtEnd, env);
      }
      if status == Done {
        Announce(SearchComplete, Some(choice.target));
      }
    }

    /** _terminate */
    method Terminate(forced: Option<CampaignState>, env: P.Env) returns (status: Status)
      modifies `clock, controller`row, controller`steps, controller`log, controller`checkpoints, controller`disk,
               controller`commits, controller.cancellation
      ensures P.After(World(), status) == P.Terminate(setup, old(World()), forced, env)
    {
      hide P.Beat, P.Record, T.TerminalFor;
      if IsTerminal(controller.row.state) {
        return Done;
      }
      var sig: P.Signal;
      sig, status := Beat(env);
      if status != Done {
        return;
      }
      var disk := controller.disk;
      var facts := T.Facts(disk.realCount, disk.possiblyRealCount, setup.saturationReal, disk.coverage, disk.candidates,
                           lanes, disk.queries);
      var choice := T.ChooseTerminal(facts, forced);
      controller.disk := disk.(exhaustionReceipt := Some(RECEIPT_ID));
      status := Record(choice, sig.reason, env);
    }

    /** _fail */
    method RecordFailure(env: P.Env) returns (status: Status)
      modifies `clock, controller`row, controller`steps, controller`log, controller`checkpoints, controller`commits,
               controller.cancellation
      ensures P.After(World(), status) == P.RecordFailure(old(World()), env)
    {
      hide P.Beat, P.Entered, P.Announced;
      var sig: P.Signal;
      sig, status := Beat(env);
      if status != Done || IsTerminal(controller.row.state) {
        return;
      }
      status := Enter(Failed, FailContext(controller.row, controller.disk), env);
      if status == Crashed {
        return;
      }
      if status != Done {
        return Done;
      }
      sig, status := Beat(env);
      if status == Done {
        Announce(SearchComplete, Some(Failed));
      }
    }

    // One turn of run's loop.
    method OneRound(env: P.Env) returns (status: Status, replanned: bool)
      modifies `round, `clock, `lanes, `ran, controller, controller.cancellation
      ensures (P.After(World(), status), replanned) == P.Round(setup, old(World()), old(round), env)
      ensures round == if replanned then old(round) + 1 else old(round)
    {
      hide P.MayStart, P.Pipeline, P.Replan;
      replanned := false;
      status := MayStart(false, env);
      if status != Done {
        return;
      }
      status := RunPipeline(env);
      if status != Done || IsTerminal(controller.row.state) {
        return;
      }
      status, replanned := Replan(env);
      if replanned {
        round := round + 1;
        controller.orchestratorRound := round;
      }
    }

    // run's loop and the verdict after it.
    method Rounds(env: P.Env) returns (status: Status)
      modifies `round, `clock, `lanes, `ran, controller, controller.cancellation
      ensures P.After(World(), status) == P.Rounds(setup, old(World()), old(round), env)
    {
      hide P.Round, P.Terminate;
      while round <= setup.maxRounds
        invariant P.Rounds(setup, World(), round, env) == P.Rounds(setup, old(World()), old(round), env)
        decreases setup.maxRounds - round
      {
        var replanned: bool;
        status, replanned := OneRound(env);
        if status != Done || IsTerminal(controller.row.state) {
          return;
        }
        if !replanned {
          status := Terminate(None, env);
          return;
        }
      }
      status := Terminate(None, env);
    }

    /** run: one process working on the campaign until it stops, dies or lets an exception out. */
    method Run(env: P.Env) returns (outcome: P.RunOutcome, ghost cause: Status)
      modifies `round, `clock, `lanes, `ran, controller, controller.cancellation
      ensures P.Ending(World(), outcome, cause) == P.Run(setup, old(World()), env)
    {
      hide P.Body, P.Stop;
      if IsTerminal(controller.row.state) {
        return P.Finished, Done;
      }
      var status := Body(env);
      cause := status;
      if status == Done || status == Raised(CancelledError) {
        return P.Finished, cause;
      }
      if status == Crashed {
        return P.Died, cause;
      }
      status := Stop(status.exn, env);
      outcome := P.OutcomeOf(status);
    }

    // The body of run's try block.
    method Body(env: P.Env) returns (status: Status)
      modifies `round, `clock, `lanes, `ran, controller, controller.cancellation
      ensures P.After(World(), status) == P.Body(setup, old(World()), env)
    {
      hide P.EnsureReference, P.Rounds;
      round, lanes := controller.orchestratorRound, lanes + setup.blockedAtOpen;
      status := EnsureReference(env);
      if status == Done && !IsTerminal(controller.row.state) {
        status := Rounds(env);
      }
    }

    // The except clauses of run: what the raised exception makes of the campaign.
    method Stop(exn: Exn, env: P.Env) returns (status: Status)
      modifies `clock, controller`row, controller`steps, controller`log, controller`checkpoints, controller`disk,
               controller`commits, controller.cancellation
      ensures P.After(World(), status) == P.Stop(setup, old(World()), exn, env)
    {
      hide P.Terminate, P.RecordFailure;
      if exn == BudgetExceeded {
        status := Terminate(Some(Partial), env);
      } else {
        status := RecordFailure(env);
      }
    }
  }

  // What a process finds when it begins with this controller.
  ghost function Found(controller: CampaignController): P.World
    reads controller, controller.cancellation
  {
    P.World(controller.View(), controller.disk, controller.checkpoints, controller.orchestratorRound,
            controller.CancelRequested(), 0, {}, [])
  }

  // What a process leaves for the next one to find.
  ghost predicate Leaves(w: P.World, controller: CampaignController)
    reads controller, controller.cancellation
  {
    Found(controller) == w.(clock := 0, lanes := {}, ran := [])
  }

  // The next process on a stored campaign; it may start without the old flags.
  method NextLife(stored: CampaignController, life: L.Life, ghost w: P.World)
    returns (left: CampaignController, ghost ending: P.Ending)
    requires life.setup.maxRounds > 0 && Leaves(w, stored)
    modifies stored.cancellation
    ensures fresh(left) && (left.cancellation == stored.cancellation || fresh(left.cancellation))
    ensures ending == L.Live(w, life) && Leaves(ending.w, left)
  {
    hide P.Run;
    var cancellation := stored.cancellation;
    if life.forgets {
      cancellation := new CancellationController();
    }
    left := new CampaignController.Load(stored, cancellation);
    var process := new CampaignOrchestrator(left, life.setup.maxRounds, life.setup.saturationReal,
                                            life.setup.blockedAtOpen);
    assert process.World() == L.Restarted(w, life);
    var outcome: P.RunOutcome;
    ghost var cause: Status;
    outcome, cause := process.Run(life.env);
    ending := P.Ending(process.World(), outcome, cause);
  }

  /** One process after the other on the same stored campaign. */
  method Lifetime(first: CampaignController, lives: seq<L.Life>)
    returns (last: CampaignController, ghost endings: seq<P.Ending>)
    requires forall i :: 0 <= i < |lives| ==> lives[i].setup.maxRounds > 0
    modifies first.cancellation
    ensures endings == L.Lived(old(Found(first)), lives)
    ensures Leaves(if lives == [] then old(Found(first)) else endings[|endings| - 1].w, last)
  {
    hide L.Live;
    last, endings := first, [];
    ghost var w := Found(first);
    for i := 0 to |lives|
      invariant last.cancellation == first.cancellation || fresh(last.cancellation)
      invariant Leaves(w, last)
      invariant endings + L.Lived(w, lives[i..]) == L.Lived(old(Found(first)), lives)
      invariant |endings| == i && (if i == 0 then w == old(Found(first)) else w == endings[i - 1].w)
    {
      ghost var ending: P.Ending;
      assert lives[i..][1..] == lives[i + 1..];
      last, ending := NextLife(last, lives[i], w);
      endings, w := endings + [ending], ending.w;
    }
  }
}
