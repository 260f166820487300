/** What one process does to a campaign, as functions on everything the process can see: the stages of
    src/searcher/campaigns/orchestrator.py in order, one controller call after the other. Between two
    calls, and between the writes of one, the process may die and an operator may cancel; when that
    happens, what the stage handlers do and when the budget is spent is decided by an arbitrary
    environment. */
module Process {
  import opened Wrappers
  import opened Transitions
  import opened EventLog
  import opened Controller
  import opened Walk
  import T = Terminal

  // How a stage handler can fail: it runs out of budget, notices the cancellation flag, or breaks.
  datatype Fault = OutOfBudget | Interrupted | Broken

  // Where something can come in between the writes of a transition: before it reads the row, before it
  // writes it, before it announces it, or after that.
  datatype Moment = BeforeRead | BeforeWrite | BeforeEvent | AfterEvent

  // What the environment decides for one beat of the process, or for one transition.
  datatype Signal = Signal(
    cancel: bool,               // an operator's cancel() lands
    cancelAt: Moment,           // where in a transition
    flagOnly: bool,             // it only puts the flag up: its row comes later, or is refused as stale
    crash: bool,                // the process dies
    crashAt: Moment,            // where in a transition
    reach: Reach,               // how far a cancel() came that it died in
    torn: bool,                 // whether a checkpoint it died in is stored and not marked
    wallExceeded: bool,
    fault: Option<Fault>,       // how the stage handler fails
    said: seq<EventName>,       // the events the stage handler announces
    disk: Disk,                 // what the stage handler leaves behind
    lanes: set<T.Lane>,         // the lanes the stage handler finds blocked
    fellBack: bool,             // whether discovery fell back, should its lane be blocked
    stop: bool,                 // _should_stop
    learned: bool,              // _replan finds a new query
    query: string,              // the query it finds
    reason: string)             // what a blocked lane says of itself

  type Env = nat -> Signal

  // The settings of a process and the lanes it finds blocked when it opens its engine.
  datatype Setup = Setup(maxRounds: nat, saturationReal: int, blockedAtOpen: set<T.Lane>)

  // The campaign as stored (row, steps, log, disk, checkpoints, round), the flag, and what is the
  // process's own: how many beats it has lived, its blocked lanes, the handlers it has called.
  datatype World = World(
    c: Campaign,
    disk: Disk,
    checkpoints: seq<Checkpoint>,
    round: nat,
    flag: bool,
    clock: nat,
    lanes: set<T.Lane>,
    ran: seq<CampaignState>)

  // Where a call leaves the world, and how it came back.
  datatype After = After(w: World, status: Status)

  // How run() ends: it returns, it lets an exception out, or its process dies.
  datatype RunOutcome = Finished | Escaped(exn: Exn) | Died

  // The end of a run, and how the body of its try block ended.
  datatype Ending = Ending(w: World, outcome: RunOutcome, cause: Status)

  predicate Over(w: World) {
    IsTerminal(w.c.row.state)
  }

  predicate HasCandidates(w: World) {
    w.disk.candidates > 0
  }

  function Plan(w: World): (stages: seq<CampaignState>) {
    Sequence(HasCandidates(w))
  }

  function FactsOf(setup: Setup, w: World): (facts: T.Facts) {
    T.Facts(w.disk.realCount, w.disk.possiblyRealCount, setup.saturationReal, w.disk.coverage, w.disk.candidates,
            w.lanes, w.disk.queries)
  }

  // ---------------------------------------------------------------- controller calls

  // A cancel() as far as it comes: the flag, and on an active campaign its writes.
  function CancelIn(w: World, reach: Reach): (cancelled: World) {
    if Over(w) then w.(flag := true)
    else w.(flag := true, c := CancelledUpTo(w.c, CancelContext(w.c.row, w.disk), reach),
            checkpoints := w.checkpoints + (if reach in {JustWritten, JustTold} then []
                                            else [Checkpoint(Cancelled, w.c.row.version + 1, AtEnd)]))
  }

  // What of a cancel() comes in between, in a process that may be dying.
  function Cancelling(w: World, sig: Signal, dies: bool): (cancelled: World) {
    if sig.flagOnly then w.(flag := true) else CancelIn(w, if dies then sig.reach else Whole)
  }

  // Between two calls a cancel() may land, and the process may die, also in the middle of that cancel().
  function Beat(w: World, env: Env): (after: After) {
    var sig, ticked := env(w.clock), w.(clock := w.clock + 1);
    After(if sig.cancel then Cancelling(ticked, sig, sig.crash) else ticked, if sig.crash then Crashed else Done)
  }

  function Announced(w: World, name: EventName, entered: Option<CampaignState>): (said: World) {
    w.(c := w.c.(log := Emit(w.c.log, name, w.c.row.version, entered)))
  }

  function Checkpointed(w: World, at: Label): (stored: World) {
    w.(c := w.c.(steps := Mark(w.c.steps, w.c.row.state)),
       checkpoints := w.checkpoints + [Checkpoint(w.c.row.state, w.c.row.version, at)])
  }

  function Marked(w: World, s: CampaignState): (marked: World) {
    w.(c := w.c.(steps := Mark(w.c.steps, s)))
  }

  // checkpoint() and the beat after it: the process may die between its two writes.
  function Checkpointing(w: World, at: Label, env: Env): (after: After) {
    Beat(if env(w.clock).crash && env(w.clock).torn
         then w.(checkpoints := w.checkpoints + [Checkpoint(w.c.row.state, w.c.row.version, at)])
         else Checkpointed(w, at), env)
  }

  // ---------------------------------------------------------------- a transition

  predicate DiesAt(sig: Signal, at: Moment) {
    sig.crash && sig.crashAt == at
  }

  predicate CancelsAt(sig: Signal, at: Moment) {
    sig.cancel && sig.cancelAt == at
  }

  // A cancel() comes to its row here.
  predicate LandsAt(sig: Signal, at: Moment) {
    CancelsAt(sig, at) && !sig.flagOnly
  }

  function Landed(w: World, sig: Signal, at: Moment): (landed: World) {
    if CancelsAt(sig, at) then Cancelling(w, sig, DiesAt(sig, at)) else w
  }

  function Meanwhile(w: World, sig: Signal, at: Moment): (after: After) {
    After(Landed(w, sig, at), if DiesAt(sig, at) then Crashed else Done)
  }

  // When the event of a version is appended that is committed under this signal.
  function TellingOf(sig: Signal, target: CampaignState): (telling: Telling) {
    if DiesAt(sig, BeforeEvent) then Never
    else if LandsAt(sig, BeforeEvent) && !IsTerminal(target) then Late
    else AtOnce
  }

  // The end of a transition, from its write on: the row, the event, and what comes in between.
  function FromWrite(w: World, target: CampaignState, ctx: TransitionContext, sig: Signal): (after: After) {
    var version := w.c.row.version + 1;
    var raced := Meanwhile(w.(c := Committed(w.c, target, ctx, TellingOf(sig, target))), sig, BeforeEvent);
    if raced.status != Done then raced
    else Meanwhile(raced.w.(c := Told(raced.w.c, version, target)), sig, AfterEvent)
  }

  // From the read on: the checks are made on the row that was read, the write only on that version.
  function FromRead(w: World, target: CampaignState, ctx: TransitionContext, sig: Signal): (after: After) {
    match TransitionCheck(w.c.row.state, false, target, ctx)
    case Fail(error) => After(w, Raised(Thrown(error)))
    case Pass =>
      var late := Meanwhile(w, sig, BeforeWrite);
      if late.status != Done then late
      else if late.w.c.row.version != w.c.row.version then After(late.w, Raised(Stale))
      else FromWrite(late.w, target, ctx, sig)
  }

  // transition(): the flag, the read, the checks, the write and the event.
  function Entered(w: World, target: CampaignState, ctx: TransitionContext, env: Env): (after: After) {
    if w.flag then After(w, Raised(CancelledError))
    else
      var read := Meanwhile(w.(clock := w.clock + 1), env(w.clock), BeforeRead);
      if read.status != Done then read else FromRead(read.w, target, ctx, env(w.clock))
  }

  // _enter: nothing to do on a terminal campaign or in the stage already.
  function EnterStage(w: World, target: CampaignState, env: Env): (after: After) {
    if Over(w) || w.c.row.state == target then After(w, Done)
    else Entered(w, target, ContextFromDisk(w.c.row, w.disk), env)
  }

  // ---------------------------------------------------------------- one stage

  function Faulted(fault: Option<Fault>, cancelRequested: bool): (status: Status) {
    match fault
    case None => Done
    case Some(OutOfBudget) => Raised(BudgetExceeded)
    case Some(Interrupted) => if cancelRequested then Raised(CancelledError) else Done
    case Some(Broken) => Raised(OtherError)
  }

  // The routing lane is found blocked when the engine is opened or not at all.
  function LanesAfter(lanes: set<T.Lane>, sig: Signal): (after: set<T.Lane>) {
    lanes + (sig.lanes - {T.Routing})
  }

  // Only a discovery that comes back stores coverage rows: its own, or the fallback, which blocks its lane. The
  // lane can be blocked by the planning of sources, too, and discovery then come back with its own.
  function CoverageAfter(stage: CampaignState, before: T.Coverage, sig: Signal, lanes: set<T.Lane>,
                         done: bool): (after: T.Coverage) {
    if stage != Discovering || !done then before.(hidden := sig.disk.coverage.hidden)
    else if T.Discovery in lanes && sig.fellBack then T.FALLBACK_COVERAGE
    else sig.disk.coverage
  }

  // A handler may change anything else it finds, except that from FINE_MATCHING on it neither invents
  // the first candidate nor loses the last one.
  function CandidatesAfter(stage: CampaignState, before: nat, left: nat): (after: nat)
    ensures !IsEarly(stage) ==> (after > 0 <==> before > 0)
  {
    if IsEarly(stage) then left
    else if before == 0 then 0
    else if left == 0 then 1
    else left
  }

  // The events of a handler; entering a state is announced by transitions only.
  function Said(log: seq<Event>, version: nat, names: seq<EventName>): (longer: seq<Event>)
    decreases |names|
  {
    if names == [] then log
    else Said(if names[0] == SearchState then log else Emit(log, names[0], version, None), version, names[1..])
  }

  function Handled(w: World, stage: CampaignState, sig: Signal): (after: After) {
    var status, lanes := Faulted(sig.fault, w.flag), LanesAfter(w.lanes, sig);
    After(w.(c := w.c.(log := Said(w.c.log, w.c.row.version, sig.said)),
             disk := sig.disk.(
               candidates := CandidatesAfter(stage, w.disk.candidates, sig.disk.candidates),
               coverage := CoverageAfter(stage, w.disk.coverage, sig, lanes, status == Done)),
             lanes := lanes),
          status)
  }

  function Handle(w: World, stage: CampaignState, env: Env): (after: After) {
    var begun := Beat(w, env);
    if begun.status != Done then begun
    else
      var handled := Handled(begun.w, stage, env(w.clock));
      if handled.status != Done then handled else Beat(handled.w, env)
  }

  // _finish_stage: it can be cut short between its two writes.
  function FinishStage(w: World, stage: CampaignState, env: Env): (after: After) {
    var stored := Checkpointing(w, ForStage(stage), env);
    if stored.status != Done then stored else After(Marked(stored.w, stage), Done)
  }

  // A stage that was entered: its handler and, if it comes back, the end of the stage.
  function HandleAndFinish(w: World, stage: CampaignState, env: Env): (after: After) {
    var handled := Handle(w, stage, env);
    if handled.status != Done then handled else FinishStage(handled.w, stage, env)
  }

  function OpenStage(w: World, stage: CampaignState, env: Env): (after: After) {
    var entered := EnterStage(w, stage, env);
    if entered.status != Done then entered else After(Announced(entered.w, SearchProgress, None), Done)
  }

  function RunStage(w: World, stage: CampaignState, env: Env): (after: After) {
    var open := OpenStage(w, stage, env);
    if open.status != Done then open else HandleAndFinish(open.w.(ran := open.w.ran + [stage]), stage, env)
  }

  // ---------------------------------------------------------------- one pass

  // The checks before a round, and before every stage of it: cancellation, then the wall clock.
  function MayStart(w: World, timed: bool, env: Env): (after: After) {
    var beat := Beat(w, env);
    if beat.status != Done then beat
    else if beat.w.flag then After(beat.w, Raised(CancelledError))
    else if timed && env(w.clock).wallExceeded then After(beat.w, Raised(BudgetExceeded))
    else beat
  }

  // The retrieval lane is missing: from BROAD_RETRIEVAL straight to GAP_ANALYSIS, from elsewhere nothing.
  function SkipMatching(w: World, state: CampaignState, env: Env): (after: After) {
    if state != BroadRetrieval then After(w, Done)
    else
      var entered := EnterStage(w, GapAnalysis, env);
      if entered.status != Done then entered
      else HandleAndFinish(entered.w.(ran := entered.w.ran + [GapAnalysis]), GapAnalysis, env)
  }

  predicate Skips(w: World, stage: CampaignState) {
    stage in MATCH_STAGES && T.Routing in w.lanes
  }

  // The first stage that is not completed, if any is left.
  function NextStage(w: World): (next: Option<CampaignState>)
    ensures next.Some? ==> next.value in STAGES
  {
    var remaining := Remaining(Plan(w), w.c.steps);
    RemainingAreStages(HasCandidates(w), w.c.steps);
    if remaining == [] then None else Some(remaining[0])
  }

  // _run_pipeline from a turn of its loop on.
  function Pipeline(w: World, env: Env, seen: set<CampaignState>): (after: After)
    decreases STAGES - seen
  {
    var next := NextStage(w);
    if Over(w) || next == None || next.value in seen then After(w, Done)
    else
      var stage := next.value;
      var may := MayStart(w, true, env);
      if may.status != Done then may
      else if Skips(w, stage) then SkipMatching(may.w, w.c.row.state, env)
      else
        var run := RunStage(may.w, stage, env);
        if run.status != Done then run
        else
          assert stage in STAGES - seen;
          Pipeline(run.w, env, seen + {stage})
  }

  // ---------------------------------------------------------------- the reference wave

  // The n-th step of the wave. Its transition comes without the checks of _enter.
  function WaveStep(w: World, n: nat, env: Env): (after: After)
    requires 1 <= n <= 6
  {
    var entered := if w.c.row.state == SPINE[n] then After(w, Done)
                   else Entered(w, SPINE[n], ContextFromDisk(w.c.row, w.disk), env);
    if entered.status != Done then entered else HandleAndFinish(entered.w, SPINE[n], env)
  }

  // run_reference_query_wave from its n-th step on.
  function Wave(w: World, n: nat, env: Env): (after: After)
    requires 1 <= n <= 7
    decreases 7 - n
  {
    if n == 7 then After(w, Done)
    else
      var step := WaveStep(w, n, env);
      if step.status != Done then step else Wave(step.w, n + 1, env)
  }

  function EnsureReference(w: World, env: Env): (after: After) {
    if PlanningQueries in w.c.steps || !BeforeTheWalk(w.c.row.state) then After(w, Done) else Wave(w, 1, env)
  }

  // ---------------------------------------------------------------- replanning

  function Cleared(w: World): (cleared: World) {
    w.(c := w.c.(steps := if PlanningQueries in w.c.steps then [PlanningQueries] else []))
  }

  function WithQuery(w: World, query: string): (stored: World) {
    w.(disk := w.disk.(queries := w.disk.queries + [query]))
  }

  // The end of _replan: finish REPLANNING and enter DISCOVERING again.
  function BackToDiscovery(w: World, env: Env): (after: After) {
    var finished := FinishStage(w, Replanning, env);
    if finished.status != Done then finished else EnterStage(finished.w, Discovering, env)
  }

  // _replan once it has found a query.
  function SendBack(w: World, query: string, env: Env): (after: After) {
    var open := OpenStage(WithQuery(w, query), Replanning, env);
    if open.status != Done then open
    else
      var beat := Beat(open.w, env);
      if beat.status != Done then beat else BackToDiscovery(Cleared(beat.w), env)
  }

  // _replan, and whether it replanned.
  function Replan(w: World, mayGoOn: bool, env: Env): (r: (After, bool)) {
    if !mayGoOn then (After(w, Done), false)
    else
      var beat := Beat(w, env);
      if beat.status != Done then (beat, false)
      else if env(w.clock).stop || Over(beat.w) || !env(w.clock).learned then (After(beat.w, Done), false)
      else
        var back := SendBack(beat.w, env(w.clock).query, env);
        (back, back.status == Done)
  }

  // ---------------------------------------------------------------- the verdict

  // The recording of a verdict: commit, checkpoint, announce. The process may die in between.
  function Record(w: World, choice: T.Choice, reason: string, env: Env): (after: After) {
    var entered := Entered(w, choice.target, VerdictContext(w.c.row, w.disk, choice, reason), env);
    if entered.status != Done then entered
    else
      var committed := Beat(entered.w, env);
      if committed.status != Done then committed
      else
        var stored := Checkpointing(committed.w, AtEnd, env);
        if stored.status != Done then stored else After(Announced(stored.w, SearchComplete, Some(choice.target)), Done)
  }

  // _exhaustion stores the receipt's id before the verdict is recorded.
  function WithReceipt(w: World): (stored: World) {
    w.(disk := w.disk.(exhaustionReceipt := Some(RECEIPT_ID)))
  }

  function Terminate(setup: Setup, w: World, forced: Option<CampaignState>, env: Env): (after: After) {
    if Over(w) then After(w, Done)
    else
      var beat := Beat(w, env);
      if beat.status != Done then beat
      else Record(WithReceipt(beat.w), T.TerminalFor(FactsOf(setup, beat.w), forced), env(w.clock).reason, env)
  }

  // _fail: a refused transition is swallowed.
  function RecordFailure(w: World, env: Env): (after: After) {
    var beat := Beat(w, env);
    if beat.status != Done || Over(beat.w) then beat
    else
      var entered := Entered(beat.w, Failed, FailContext(beat.w.c.row, beat.w.disk), env);
      if entered.status == Crashed then entered
      else if entered.status != Done then After(entered.w, Done)
      else
        var committed := Beat(entered.w, env);
        if committed.status != Done then committed
        else After(Announced(committed.w, SearchComplete, Some(Failed)), Done)
  }

  // ---------------------------------------------------------------- a run

  // One turn of run's loop, and whether it replanned.
  function Round(setup: Setup, w: World, round: nat, env: Env): (r: (After, bool)) {
    var may := MayStart(w, false, env);
    if may.status != Done then (may, false)
    else
      var pass := Pipeline(may.w, env, {});
      if pass.status != Done || Over(pass.w) then (pass, false)
      else
        var (end, replanned) := Replan(pass.w, round < setup.maxRounds, env);
        (if replanned then end.(w := end.w.(round := round + 1)) else end, replanned)
  }

  // run's loop from a round on, and the verdict after it.
  function Rounds(setup: Setup, w: World, round: nat, env: Env): (after: After)
    decreases setup.maxRounds - round
  {
    if round > setup.maxRounds then Terminate(setup, w, None, env)
    else
      var (end, replanned) := Round(setup, w, round, env);
      if end.status != Done || Over(end.w) then end
      else if replanned then Rounds(setup, end.w, round + 1, env)
      else Terminate(setup, end.w, None, env)
  }

  // The body of run's try block.
  function Body(setup: Setup, w: World, env: Env): (after: After) {
    var referenced := EnsureReference(w.(lanes := w.lanes + setup.blockedAtOpen), env);
    if referenced.status != Done || Over(referenced.w) then referenced
    else Rounds(setup, referenced.w, w.round, env)
  }

  function OutcomeOf(status: Status): (outcome: RunOutcome) {
    match status
    case Done => Finished
    case Crashed => Died
    case Raised(exn) => Escaped(exn)
  }

  // The except clauses: what the raised exception makes of the campaign.
  function Stop(setup: Setup, w: World, exn: Exn, env: Env): (after: After) {
    if exn == BudgetExceeded then Terminate(setup, w, Some(Partial), env) else RecordFailure(w, env)
  }

  function Run(setup: Setup, w: World, env: Env): (ending: Ending) {
    if Over(w) then Ending(w, Finished, Done)
    else
      var body := Body(setup, w, env);
      if body.status == Done || body.status == Raised(CancelledError) then Ending(body.w, Finished, body.status)
      else if body.status == Crashed then Ending(body.w, Died, Crashed)
      else
        var stopped := Stop(setup, body.w, body.status.exn, env);
        Ending(stopped.w, OutcomeOf(stopped.status), body.status)
  }
}
