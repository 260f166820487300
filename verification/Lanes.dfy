/** A campaign that skipped the matching stages for want of the retrieval lane, found by a process that has it. */
module Lanes {
  import opened Wrappers
  import opened Transitions
  import opened Controller
  import opened Walk
  import opened Process
  import opened Resume
  import opened Runs
  import opened Restarts
  import T = Terminal

  // How its run leaves the try block.
  predicate SkippedStatus(w: World, status: Status) {
    || status in {Crashed, Raised(BudgetExceeded), Raised(CancelledError), EdgeRefused(w, FineMatching)}
    || Overtaken(status)
  }

  lemma RoundSkipped(setup: Setup, w: World, round: nat, env: Env)
    requires Standing(w, Skipped) && T.Routing !in w.lanes
    ensures var (end, replanned) := Round(setup, w, round, env);
            && !replanned && SameElse(w, end.w) && Kept(w, end.w) && SkippedStatus(w, end.status)
            && (Over(end.w) ==> !IllegalRaise(end.status)) && (Overtaken(end.status) ==> Over(end.w))
            && (!w.flag && Quiet(env(w.clock)) && Quiet(env(w.clock + 1)) && !env(w.clock + 1).wallExceeded
                && Quiet(env(w.clock + 2)) ==>
                  end == After(w.(clock := w.clock + 3), EdgeRefused(w, FineMatching)))
  {
    hide Pipeline, Standing, FlagKept;
    MayStartKeeps(w, false, env);
    MayStartQuietly(w, false, env);
    hide MayStart, Steady;
    var may := MayStart(w, false, env);
    ActivePlaces(w, Skipped);
    if may.status == Done {
      StandsOn(w, Skipped, may.w);
      PipelineSkipped(may.w, env);
      KeptOver(w, Pipeline(may.w, env, {}).w);
    }
  }

  lemma BodySkipped(setup: Setup, w: World, env: Env)
    requires Standing(w, Skipped) && T.Routing !in w.lanes + setup.blockedAtOpen && w.round <= setup.maxRounds
    ensures var body := Body(setup, w, env);
            && body.w.ran == w.ran && SkippedStatus(w, body.status) && body.w.disk == w.disk
            && (Overtaken(body.status) ==> Over(body.w))
            && (if Over(body.w) then body.w.c.row.state == Cancelled && body.w.flag && !IllegalRaise(body.status)
                else body.w.c.row == w.c.row && body.w.c.steps == w.c.steps)
            && (!w.flag && Quiet(env(w.clock)) && Quiet(env(w.clock + 1)) && !env(w.clock + 1).wallExceeded
                && Quiet(env(w.clock + 2)) ==>
                  body.status == EdgeRefused(w, FineMatching)
                  && body.w.clock == w.clock + 3 && !body.w.flag && !Over(body.w))
  {
    hide Round, Standing;
    var begun := w.(lanes := w.lanes + setup.blockedAtOpen);
    StandsOn(w, Skipped, begun);
    RoundSkipped(setup, begun, w.round, env);
    FineMatchingIsNext(begun);
    assert EnsureReference(begun, env) == After(begun, Done);
    assert Body(setup, w, env) == Round(setup, begun, w.round, env).0;
  }

  /** A campaign whose matching was skipped, found by a process that has the lane again: no stage is handled, and
      left alone it ends FAILED, on the edge back to FINE_MATCHING. */
  lemma SkippedOnlyFails(setup: Setup, w: World, env: Env)
    requires Standing(w, Skipped) && T.Routing !in w.lanes + setup.blockedAtOpen && w.round <= setup.maxRounds
    ensures var e := Run(setup, w, env);
            && e.w.ran == w.ran && SkippedStatus(w, e.cause)
            && (if Over(e.w)
                then || (e.w.c.row.state == Failed && e.cause == EdgeRefused(w, FineMatching))
                     || (e.w.c.row.state == Partial && e.cause == Raised(BudgetExceeded))
                     || (e.w.c.row.state == Cancelled && e.w.flag)
                else Standing(e.w, Skipped) && (e.outcome == Died || e.w.flag))
            && (LeftAlone(w, env) ==> e.w.c.row.state == Failed)
  {
    hide Body, Run, Standing, AfterDiscovery;
    ActivePlaces(w, Skipped);
    BodySkipped(setup, w, env);
    RunAfterBody(setup, w, env);
    SkippedIsLate(w);
    if !Over(Run(setup, w, env).w) {
      SkippedStaysPut(w, Run(setup, w, env).w);
    }
  }

  lemma SkippedIsLate(w: World)
    requires Standing(w, Skipped)
    ensures AfterDiscovery(w.c.row.state)
  {}

  lemma SkippedStaysPut(w: World, v: World)
    requires Standing(w, Skipped) && v.c.row == w.c.row && v.c.steps == w.c.steps
             && HasCandidates(v) == HasCandidates(w)
    ensures Standing(v, Skipped)
  {}
}
