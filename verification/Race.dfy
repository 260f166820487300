/** Several threads driving one campaign row: the flag check, the read, the guards and the versioned
    write of CampaignController.transition are separate steps, and so are the two halves of an event
    append. Any number of writers may interleave them in any order. */
module Race {
  import opened Wrappers
  import opened Transitions
  import opened EventLog
  import C = Controller

  // Where a writer stands inside transition() or emit().
  datatype Pc =
    | Idle
    | Checked(target: CampaignState)
    | Loaded(target: CampaignState, seen: C.Row)
    | Guarded(target: CampaignState, seen: C.Row, ctx: TransitionContext)
    | Announcing(name: EventName, version: nat, entered: Option<CampaignState>)
    | Chained(predecessor: Option<nat>, name: EventName, version: nat, entered: Option<CampaignState>)

  datatype World = World(row: C.Row, history: seq<Entry>, flag: bool, log: seq<Event>, pcs: seq<Pc>)

  datatype Step =
    | Request                                  // CancellationController.request
    | Begin(w: nat, target: CampaignState)     // the flag check
    | Load(w: nat)                             // self.get
    | Guard(w: nat, ctx: TransitionContext)    // assert_legal and assert_invariants
    | Commit(w: nat)                           // update_campaign_blob
    | StartEmit(w: nat, name: EventName)       // a call of emit()
    | ReadLast(w: nat)                         // last_event_id
    | Append(w: nat)                           // append_event
    | Die(w: nat)                              // the thread is lost or its exception escapes

  function Put(world: World, w: nat, pc: Pc): World
    requires w < |world.pcs|
  {
    world.(pcs := world.pcs[w := pc])
  }

  // A step that does not apply to the writer's position changes nothing.
  function Next(world: World, step: Step): (next: World)
    ensures |next.pcs| == |world.pcs|
  {
    if step.Request? then world.(flag := true)
    else if step.w >= |world.pcs| then world
    else
      var pc := world.pcs[step.w];
      match step
      case Begin(w, target) =>
        if pc.Idle? && (target == Cancelled || !world.flag) then Put(world, w, Checked(target)) else world
      case Load(w) =>
        if pc.Checked? then Put(world, w, Loaded(pc.target, world.row)) else world
      case Guard(w, ctx) =>
        if !pc.Loaded? then world
        else if Admits(pc.seen.state, pc.target, ctx) then Put(world, w, Guarded(pc.target, pc.seen, ctx))
        else Put(world, w, Idle)
      case Commit(w) =>
        if !pc.Guarded? then world
        else if pc.seen.version != world.row.version then Put(world, w, Idle)
        else Put(world, w, Announcing(SearchState, pc.seen.version + 1, Some(pc.target))).(
               row := C.Written(pc.seen, pc.target, pc.ctx),
               history := world.history + [Entry(pc.target, pc.ctx)])
      case StartEmit(w, name) =>
        if pc.Idle? then Put(world, w, Announcing(name, world.row.version, None)) else world
      case ReadLast(w) =>
        if pc.Announcing? then Put(world, w, Chained(LastId(world.log), pc.name, pc.version, pc.entered)) else world
      case Append(w) =>
        if !pc.Chained? then world
        else Put(world, w, Idle).(
               log := world.log + [Event(|world.log|, pc.predecessor, pc.name, pc.version, pc.entered)])
      case Die(w) => Put(world, w, Idle)
  }

  function Run(world: World, steps: seq<Step>): (end: World)
    ensures |end.pcs| == |world.pcs|
    decreases |steps|
  {
    if steps == [] then world else Next(Run(world, steps[..|steps| - 1]), steps[|steps| - 1])
  }

  function Start(first: TransitionContext, writers: nat): World {
    World(C.Create().row, [Entry(Created, first)], false, C.Create().log, seq(writers, i => Idle))
  }

  // ---------------------------------------------------------------- a writer on its own

  function Steps(w: nat, target: CampaignState, ctx: TransitionContext): (steps: seq<Step>) {
    [Begin(w, target), Load(w), Guard(w, ctx), Commit(w), ReadLast(w), Append(w)]
  }

  lemma RunOneMore(world: World, steps: seq<Step>, step: Step)
    ensures Run(world, steps + [step]) == Next(Run(world, steps), step)
  {
    assert (steps + [step])[..|steps|] == steps;
  }

  lemma RunSteps(world: World, w: nat, target: CampaignState, ctx: TransitionContext)
    ensures Run(world, Steps(w, target, ctx))
            == Next(Next(Next(
                 Next(Next(Next(world, Begin(w, target)), Load(w)), Guard(w, ctx)), Commit(w)), ReadLast(w)), Append(w))
  {
    hide Next;
    var steps := Steps(w, target, ctx);
    RunOneMore(world, [], steps[0]);
    RunOneMore(world, [steps[0]], steps[1]);
    RunOneMore(world, steps[..2], steps[2]);
    RunOneMore(world, steps[..3], steps[3]);
    RunOneMore(world, steps[..4], steps[4]);
    RunOneMore(world, steps[..5], steps[5]);
    assert [] + [steps[0]] == [steps[0]] && [steps[0]] + [steps[1]] == steps[..2]
           && steps[..2] + [steps[2]] == steps[..3];
    assert steps[..3] + [steps[3]] == steps[..4] && steps[..4] + [steps[4]] == steps[..5]
           && steps[..5] + [steps[5]] == steps;
  }

  // The check, the read and the guards come to the controller's check.
  lemma ChecksAlone(world: World, w: nat, target: CampaignState, ctx: TransitionContext)
    requires w < |world.pcs| && world.pcs[w] == Idle
    ensures Next(Next(Next(world, Begin(w, target)), Load(w)), Guard(w, ctx))
            == if C.TransitionCheck(world.row.state, world.flag, target, ctx).Pass?
               then Put(world, w, Guarded(target, world.row, ctx)) else world
  {
    hide GuardHolds, Forward, IsTerminal;
    assert world.pcs[w := Checked(target)][w := Loaded(target, world.row)] == world.pcs[w := Loaded(target, world.row)];
    assert world.pcs[w := Loaded(target, world.row)][w := Guarded(target, world.row, ctx)]
           == world.pcs[w := Guarded(target, world.row, ctx)];
    assert world.pcs[w := Loaded(target, world.row)][w := Idle] == world.pcs;
  }

  // The write and the two halves of the append come to the controller's commit.
  lemma CommitsAlone(world: World, w: nat, target: CampaignState, ctx: TransitionContext)
    requires w < |world.pcs| && world.pcs[w] == Guarded(target, world.row, ctx)
    ensures Next(Next(Next(world, Commit(w)), ReadLast(w)), Append(w))
            == Put(world, w, Idle).(row := C.Written(world.row, target, ctx),
                                    history := world.history + [Entry(target, ctx)],
                                    log := Emit(world.log, SearchState, world.row.version + 1, Some(target)))
  {
    hide C.Written;
  }

  lemma IdleStaysIdle(world: World, w: nat)
    requires w < |world.pcs| && world.pcs[w] == Idle
    ensures Next(Next(Next(world, Commit(w)), ReadLast(w)), Append(w)) == world
  {}

  /** Undisturbed, the six steps of a writer are the controller's transition: the same check, and the same
      row and event if it passes. */
  lemma AloneIsATransition(world: World, w: nat, target: CampaignState, ctx: TransitionContext)
    requires w < |world.pcs| && world.pcs[w] == Idle
    ensures var end := Run(world, Steps(w, target, ctx));
            var c := C.Campaign(world.row, [], world.log, []);
            && (end.row, end.log)
               == (if C.TransitionCheck(world.row.state, world.flag, target, ctx).Pass?
                   then (C.Enter(c, target, ctx).row, C.Enter(c, target, ctx).log) else (world.row, world.log))
            && end.flag == world.flag && end.pcs == world.pcs
  {
    hide Next, Run, C.TransitionCheck, C.Written, Emit, Steps;
    RunSteps(world, w, target, ctx);
    ChecksAlone(world, w, target, ctx);
    IdleStaysIdle(world, w);
    var ready := Put(world, w, Guarded(target, world.row, ctx));
    CommitsAlone(ready, w, target, ctx);
    assert ready.pcs[w := Idle] == world.pcs;
  }

  /** And three undisturbed steps announce an event as the controller does, with the version the row then has. */
  lemma AloneIsAnAnnouncement(world: World, w: nat, name: EventName)
    requires w < |world.pcs| && world.pcs[w] == Idle
    ensures Run(world, [StartEmit(w, name), ReadLast(w), Append(w)])
            == world.(log := Emit(world.log, name, world.row.version, None))
  {
    hide Run, Emit;
    ThreeSteps(world, StartEmit(w, name), ReadLast(w), Append(w));
    AnnouncesAlone(world, w, name);
  }

  lemma AnnouncesAlone(world: World, w: nat, name: EventName)
    requires w < |world.pcs| && world.pcs[w] == Idle
    ensures Next(Next(Next(world, StartEmit(w, name)), ReadLast(w)), Append(w))
            == world.(log := Emit(world.log, name, world.row.version, None))
  {
    hide C.Written, Admits;
    assert Next(Next(Next(world, StartEmit(w, name)), ReadLast(w)), Append(w)).pcs == world.pcs;
  }

  lemma ThreeSteps(world: World, first: Step, second: Step, third: Step)
    ensures Run(world, [first, second, third]) == Next(Next(Next(world, first), second), third)
  {
    hide Next;
    RunOneMore(world, [], first);
    RunOneMore(world, [first], second);
    RunOneMore(world, [first, second], third);
    assert [] + [first] == [first] && [first] + [second] == [first, second]
           && [first, second] + [third] == [first, second, third];
  }

  // ---------------------------------------------------------------- safety of the row

  // What a writer read was the row of its version, and it is still the row unless somebody committed since.
  ghost predicate SawHistory(history: seq<Entry>, row: C.Row, pc: Pc) {
    && (pc.Loaded? || pc.Guarded? ==>
          && pc.seen.version < |history| && history[pc.seen.version].state == pc.seen.state
          && (pc.seen.version == row.version ==> pc.seen == row))
    && (pc.Guarded? ==> Admits(pc.seen.state, pc.target, pc.ctx))
  }

  ghost predicate Sound(world: World) {
    && LegalRun(world.history)
    && world.row.state == world.history[|world.history| - 1].state && world.row.version == |world.history| - 1
    && forall w :: 0 <= w < |world.pcs| ==> SawHistory(world.history, world.row, world.pcs[w])
  }

  lemma NextKeepsSight(world: World, step: Step, w: nat)
    requires Sound(world) && w < |world.pcs|
    ensures SawHistory(Next(world, step).history, Next(world, step).row, Next(world, step).pcs[w])
  {
    hide Admits, LegalRun;
    assert SawHistory(world.history, world.row, world.pcs[w]);
  }

  lemma NextKeepsHistory(world: World, step: Step)
    requires Sound(world)
    ensures var next := Next(world, step);
            && LegalRun(next.history) && world.history <= next.history
            && next.row.state == next.history[|next.history| - 1].state && next.row.version == |next.history| - 1
  {
    hide Admits;
    var next := Next(world, step);
    if |next.history| > |world.history| {
      assert SawHistory(world.history, world.row, world.pcs[step.w]);
      forall i | 0 < i < |next.history| ensures Edge(next.history, i) {
        if i < |world.history| {
          assert Edge(world.history, i);
        }
      }
    }
  }

  lemma NextIsSound(world: World, step: Step)
    requires Sound(world)
    ensures Sound(Next(world, step))
    ensures world.history <= Next(world, step).history
  {
    hide Next, LegalRun, SawHistory;
    NextKeepsHistory(world, step);
    forall w | 0 <= w < |world.pcs|
      ensures SawHistory(Next(world, step).history, Next(world, step).row, Next(world, step).pcs[w])
    {
      NextKeepsSight(world, step, w);
    }
  }

  lemma {:induction false} RunIsSound(world: World, steps: seq<Step>)
    requires Sound(world)
    ensures Sound(Run(world, steps)) && world.history <= Run(world, steps).history
    decreases |steps|
  {
    if steps != [] {
      RunIsSound(world, steps[..|steps| - 1]);
      NextIsSound(Run(world, steps[..|steps| - 1]), steps[|steps| - 1]);
    }
  }

  /** Whatever the interleaving, the committed states form a legal run, the version counts the
      commits, and the row shows the last one. */
  lemma CommitsFormALegalRun(first: TransitionContext, writers: nat, steps: seq<Step>)
    ensures var end := Run(Start(first, writers), steps);
            LegalRun(end.history) && end.row.version == |end.history| - 1
            && end.row.state == end.history[|end.history| - 1].state
  {
    RunIsSound(Start(first, writers), steps);
  }

  /** A terminal row is never left or overwritten, whatever any writer does afterwards. */
  lemma TerminalIsFinal(first: TransitionContext, writers: nat, before: seq<Step>, after: seq<Step>)
    requires IsTerminal(Run(Start(first, writers), before).row.state)
    ensures Run(Run(Start(first, writers), before), after).row == Run(Start(first, writers), before).row
    ensures Run(Run(Start(first, writers), before), after).history == Run(Start(first, writers), before).history
  {
    var mid := Run(Start(first, writers), before);
    RunIsSound(Start(first, writers), before);
    RunIsSound(mid, after);
    var end := Run(mid, after);
    if |end.history| > |mid.history| {
      NonTerminalBefore(end.history, |mid.history| - 1, |end.history| - 1);
    }
  }

  // The contexts of the commits after the first entry, which create() left.
  function ContextsOf(history: seq<Entry>): (contexts: seq<TransitionContext>)
    requires history != []
  {
    seq(|history| - 1, i requires 0 <= i < |history| - 1 => history[i + 1].ctx)
  }

  lemma NextTells(world: World, step: Step)
    requires Sound(world) && C.RowTells(ContextsOf(world.history), world.row)
    ensures Next(world, step).history != [] && C.RowTells(ContextsOf(Next(world, step).history), Next(world, step).row)
  {
    hide C.RowTells, C.Written, LegalRun;
    var next := Next(world, step);
    if |next.history| > |world.history| {
      var pc := world.pcs[step.w];
      assert SawHistory(world.history, world.row, pc);
      C.WrittenTells(ContextsOf(world.history), world.row, pc.target, pc.ctx);
      assert ContextsOf(next.history) == ContextsOf(world.history) + [pc.ctx];
    }
  }

  /** Whatever the interleaving, the row shows the last receipt that a commit gave, and in the end the reason of the
      commit that ended it. */
  lemma {:induction false} RowTellsItsHistory(first: TransitionContext, writers: nat, steps: seq<Step>)
    ensures var end := Run(Start(first, writers), steps);
            end.history != [] && C.RowTells(ContextsOf(end.history), end.row)
    decreases |steps|
  {
    hide C.RowTells, Next, Sound;
    if steps == [] {
      StartTells(first, writers);
    } else {
      var front := steps[..|steps| - 1];
      RowTellsItsHistory(first, writers, front);
      StartIsSound(first, writers);
      RunIsSound(Start(first, writers), front);
      NextTells(Run(Start(first, writers), front), steps[|steps| - 1]);
    }
  }

  lemma StartTells(first: TransitionContext, writers: nat)
    ensures var start := Run(Start(first, writers), []);
            start.history != [] && C.RowTells(ContextsOf(start.history), start.row)
  {}

  lemma StartIsSound(first: TransitionContext, writers: nat)
    ensures Sound(Start(first, writers))
  {}

  // ---------------------------------------------------------------- the cancellation bound

  // Past the flag check of a transition that cancellation should stop.
  function InFlight(world: World, w: nat): nat {
    if w < |world.pcs| && (world.pcs[w].Checked? || world.pcs[w].Loaded? || world.pcs[w].Guarded?)
       && world.pcs[w].target != Cancelled then 1 else 0
  }

  // Does this step commit something other than CANCELLED for the writer?
  predicate Advances(world: World, step: Step, w: nat) {
    step == Commit(w) && |Next(world, step).history| > |world.history| && Next(world, step).row.state != Cancelled
  }

  function Advanced(world: World, steps: seq<Step>, w: nat): nat
    decreases |steps|
  {
    if steps == [] then 0
    else
      var front := steps[..|steps| - 1];
      Advanced(world, front, w) + (if Advances(Run(world, front), steps[|steps| - 1], w) then 1 else 0)
  }

  lemma CancellationStep(world: World, step: Step, w: nat)
    requires world.flag
    ensures Next(world, step).flag
    ensures (if Advances(world, step, w) then 1 else 0) + InFlight(Next(world, step), w) <= InFlight(world, w)
  {}

  /** Once cancellation is requested, a writer commits at most the one transition whose flag check it
      had already passed, and none if it had passed none. */
  lemma {:induction false} CancellationBound(world: World, steps: seq<Step>, w: nat)
    requires world.flag
    ensures Run(world, steps).flag
    ensures Advanced(world, steps, w) + InFlight(Run(world, steps), w) <= InFlight(world, w)
    decreases |steps|
  {
    if steps != [] {
      CancellationBound(world, steps[..|steps| - 1], w);
      CancellationStep(Run(world, steps[..|steps| - 1]), steps[|steps| - 1], w);
    }
  }

  ghost predicate Quiet(world: World) {
    world.flag && forall w :: 0 <= w < |world.pcs| ==> InFlight(world, w) == 0
  }

  lemma QuietStep(world: World, step: Step)
    requires Sound(world) && Quiet(world)
    ensures Quiet(Next(world, step))
    ensures var next := Next(world, step);
            next.history == world.history
            || (!IsTerminal(world.row.state) && |next.history| == |world.history| + 1 && next.row.state == Cancelled)
  {
    var next := Next(world, step);
    forall w | 0 <= w < |next.pcs| ensures InFlight(next, w) == 0 {
      assert InFlight(world, w) == 0;
    }
    if step.Commit? && step.w < |world.pcs| {
      assert InFlight(world, step.w) == 0 && SawHistory(world.history, world.row, world.pcs[step.w]);
    }
  }

  // Nobody but w may be past its flag check.
  ghost predicate OnlyInFlight(world: World, w: nat) {
    world.flag && forall v :: 0 <= v < |world.pcs| && v != w ==> InFlight(world, v) == 0
  }

  // What may have been committed since, and what may still be.
  ghost predicate OneFollowed(history: seq<Entry>, end: World, w: nat) {
    && Sound(end) && OnlyInFlight(end, w) && history <= end.history
    && (|| |end.history| == |history|
        || (|end.history| == |history| + 1 && (Quiet(end) || IsTerminal(end.row.state)))
        || (|end.history| == |history| + 2 && end.row.state == Cancelled))
  }

  lemma OnlyThatOneFlies(world: World, step: Step, w: nat)
    requires OnlyInFlight(world, w)
    ensures OnlyInFlight(Next(world, step), w)
  {
    var next := Next(world, step);
    forall v | 0 <= v < |next.pcs| && v != w ensures InFlight(next, v) == 0 {
      assert InFlight(world, v) == 0;
      CancellationStep(world, step, v);
    }
  }

  lemma OneFlightStep(world: World, step: Step, w: nat)
    requires Sound(world) && OnlyInFlight(world, w)
    ensures var next := Next(world, step);
            && OnlyInFlight(next, w)
            && (next.history == world.history
                || (!IsTerminal(world.row.state) && |next.history| == |world.history| + 1
                    && (Quiet(next) || next.row.state == Cancelled)))
  {
    OnlyThatOneFlies(world, step, w);
    var next := Next(world, step);
    if next.history != world.history {
      hide OnlyInFlight, LegalRun, AssertInvariants;
      assert step.Commit? && step.w < |world.pcs|;
      assert SawHistory(world.history, world.row, world.pcs[step.w]);
      if next.row.state != Cancelled {
        LandingEndsTheFlight(world, step.w, w);
      }
    }
  }

  lemma LandingEndsTheFlight(world: World, v: nat, w: nat)
    requires OnlyInFlight(world, w) && v < |world.pcs|
    requires Next(world, Commit(v)).history != world.history && Next(world, Commit(v)).row.state != Cancelled
    ensures Quiet(Next(world, Commit(v)))
  {
    hide C.Written;
    assert C.Written(world.pcs[v].seen, world.pcs[v].target, world.pcs[v].ctx).state == world.pcs[v].target by {
      WrittenState(world.pcs[v].seen, world.pcs[v].target, world.pcs[v].ctx);
    }
    assert InFlight(world, v) == 1;
    var next := Next(world, Commit(v));
    forall u | 0 <= u < |next.pcs| ensures InFlight(next, u) == 0 {
      assert u != w ==> InFlight(world, u) == 0;
    }
  }

  lemma WrittenState(row: C.Row, target: CampaignState, ctx: TransitionContext)
    ensures C.Written(row, target, ctx).state == target
  {}

  lemma OneFollowedStep(history: seq<Entry>, world: World, step: Step, w: nat)
    requires OneFollowed(history, world, w)
    ensures OneFollowed(history, Next(world, step), w)
  {
    hide Next, SawHistory, LegalRun, Quiet, OnlyInFlight;
    NextIsSound(world, step);
    OneFlightStep(world, step, w);
    if Quiet(world) {
      QuietStep(world, step);
    }
  }

  /** After the request, while only one writer is past its flag check, at most its one transition is still committed,
      and a CANCELLED after it. */
  lemma {:induction false} OneTransitionFollows(world: World, steps: seq<Step>, w: nat)
    requires Sound(world) && OnlyInFlight(world, w)
    ensures OneFollowed(world.history, Run(world, steps), w)
    ensures var end := Run(world, steps);
            && world.history <= end.history && |end.history| <= |world.history| + 2
            && (|end.history| == |world.history| + 2 ==> end.row.state == Cancelled)
    decreases |steps|
  {
    hide Next, Sound, OnlyInFlight, Quiet;
    if steps != [] {
      OneTransitionFollows(world, steps[..|steps| - 1], w);
      OneFollowedStep(world.history, Run(world, steps[..|steps| - 1]), steps[|steps| - 1], w);
    }
  }

  /** After the request, once nobody is in flight, the only thing that can still be committed is one CANCELLED. */
  lemma {:induction false} OnlyCancelledRemains(world: World, steps: seq<Step>)
    requires Sound(world) && Quiet(world)
    ensures Sound(Run(world, steps)) && Quiet(Run(world, steps))
    ensures var end := Run(world, steps);
            end.history == world.history
            || (!IsTerminal(world.row.state) && |end.history| == |world.history| + 1 && end.row.state == Cancelled)
    decreases |steps|
  {
    hide Quiet, Next, LegalRun, SawHistory;
    if steps != [] {
      var front := steps[..|steps| - 1];
      OnlyCancelledRemains(world, front);
      QuietStep(Run(world, front), steps[|steps| - 1]);
      NextIsSound(Run(world, front), steps[|steps| - 1]);
    }
  }

  predicate By(step: Step, w: nat) {
    !step.Request? && step.w == w
  }

  lemma {:induction false} OthersLeaveMyPc(world: World, steps: seq<Step>, w: nat)
    requires w < |world.pcs| && forall i :: 0 <= i < |steps| ==> !By(steps[i], w)
    ensures Run(world, steps).pcs[w] == world.pcs[w]
    decreases |steps|
  {
    if steps != [] {
      OthersLeaveMyPc(world, steps[..|steps| - 1], w);
    }
  }

  lemma CommitIffFresh(raced: World, w: nat, seen: C.Row, before: seq<Entry>, ctx: TransitionContext)
    requires w < |raced.pcs| && raced.pcs[w] == Guarded(Cancelled, seen, ctx)
    requires before <= raced.history && seen.version == |before| - 1 && raced.row.version == |raced.history| - 1
    ensures var end := Next(raced, Commit(w));
            if raced.history == before
            then end.row == C.Written(seen, Cancelled, ctx) && end.history == before + [Entry(Cancelled, ctx)]
            else end.row == raced.row && end.history == raced.history
  {
    assert |raced.history| == |before| ==> raced.history == before;
  }

  /** cancel() takes effect exactly when no other writer commits between its read and its write: it
      then leaves the row CANCELLED, and otherwise it is refused as stale and writes nothing. */
  lemma CancelLandsIffUnraced(world: World, w: nat, ctx: TransitionContext, others: seq<Step>)
    requires Sound(world) && w < |world.pcs| && world.pcs[w] == Guarded(Cancelled, world.row, ctx)
    requires forall i :: 0 <= i < |others| ==> !By(others[i], w)
    ensures var raced := Run(world, others);
            var end := Next(raced, Commit(w));
            if raced.history == world.history
            then end.row == C.Written(world.row, Cancelled, ctx) && |end.history| == |world.history| + 1
            else end.row == raced.row && end.history == raced.history
  {
    OthersLeaveMyPc(world, others, w);
    RunIsSound(world, others);
    CommitIffFresh(Run(world, others), w, world.row, world.history, ctx);
  }

  // ---------------------------------------------------------------- two interleavings worth naming

  const FACTS: TransitionContext := TransitionContext(true, true, 0, true, false, None, None, None, "")

  // A world that some interleaving of two writers arrives at.
  ghost predicate Reachable(world: World) {
    exists steps :: Run(Start(FACTS, 2), steps) == world
  }

  lemma Reach(world: World, step: Step) returns (next: World)
    requires Reachable(world)
    ensures Reachable(next) && next == Next(world, step)
  {
    next := Next(world, step);
    var steps :| Run(Start(FACTS, 2), steps) == world;
    var longer := steps + [step];
    assert longer[..|longer| - 1] == steps;
    assert Run(Start(FACTS, 2), longer) == next;
  }

  lemma StartIsReachable() returns (world: World)
    ensures Reachable(world) && world == Start(FACTS, 2) && world.pcs == [Idle, Idle]
  {
    world := Start(FACTS, 2);
    assert Run(world, []) == world;
  }

  lemma FactsAdmit()
    ensures Admits(Created, ValidatingInput, FACTS) && Admits(Created, Cancelled, FACTS)
  {}

  lemma PassFlagAndLoad(world: World, w: nat, target: CampaignState) returns (loaded: World)
    requires Reachable(world) && w < |world.pcs| && world.pcs[w] == Idle && (target == Cancelled || !world.flag)
    ensures Reachable(loaded) && loaded == Put(world, w, Loaded(target, world.row))
  {
    hide Admits, Reachable;
    loaded := Reach(world, Begin(w, target));
    loaded := Reach(loaded, Load(w));
    assert loaded.pcs == world.pcs[w := Loaded(target, world.row)];
  }

  // A writer walks from idle to the point of committing.
  lemma PassChecks(world: World, w: nat, target: CampaignState) returns (ready: World)
    requires Reachable(world) && w < |world.pcs| && world.pcs[w] == Idle && (target == Cancelled || !world.flag)
    requires Admits(world.row.state, target, FACTS)
    ensures Reachable(ready) && ready == Put(world, w, Guarded(target, world.row, FACTS))
  {
    hide Admits, Reachable, IsTerminal, Forward, GuardHolds, AssertLegal, AssertInvariants;
    ready := PassFlagAndLoad(world, w, target);
    ready := Reach(ready, Guard(w, FACTS));
    assert ready.pcs == world.pcs[w := Guarded(target, world.row, FACTS)];
  }

  lemma BothReady() returns (world: World)
    ensures Reachable(world) && world.flag && world.row == C.Create().row && world.log == C.Create().log
    ensures world.pcs == [Guarded(ValidatingInput, world.row, FACTS), Guarded(Cancelled, world.row, FACTS)]
  {
    FactsAdmit();
    world := StartIsReachable();
    world := PassChecks(world, 0, ValidatingInput);
    world := Reach(world, Request);
    world := PassChecks(world, 1, Cancelled);
  }

  /** The bound is met: a transition that passed its check before the request still commits after it, the
      racing cancel() is refused as stale, and the campaign stays active with nobody working on it. */
  lemma CancelCanBeLost()
    ensures exists end :: Reachable(end) && end.flag && end.row.state == ValidatingInput && end.pcs == [Idle, Idle]
  {
    var world := BothReady();
    world := Reach(world, Commit(0));
    world := Reach(world, Commit(1));
    assert world.row.state == ValidatingInput && world.pcs[0].Announcing? && world.pcs[1] == Idle;
    world := Reach(world, Die(0));
    assert world.pcs == [Idle, Idle];
  }

  /** A reader that finds the row terminal may not find the event that says so: the row is written
      first, and a stream that closes in between leaves that event to the next connection. */
  lemma TerminalRowPrecedesItsEvent()
    ensures exists end :: Reachable(end) && IsTerminal(end.row.state)
                          && forall e :: e in end.log ==> e.state != Some(end.row.state)
  {
    var world := BothReady();
    world := Reach(world, Commit(1));
    assert world.log == C.Create().log && world.row.state == Cancelled;
  }

  // ---------------------------------------------------------------- the event chain

  // Does this step append an event whose predecessor is no longer the last one?
  predicate AppendsStale(world: World, step: Step) {
    && step.Append? && step.w < |world.pcs| && world.pcs[step.w].Chained?
    && world.pcs[step.w].predecessor != LastId(world.log)
  }

  ghost predicate NoStaleAppend(world: World, steps: seq<Step>) {
    forall i :: 0 <= i < |steps| ==> !AppendsStale(Run(world, steps[..i]), steps[i])
  }

  lemma NoStaleAppendOneMore(world: World, steps: seq<Step>, last: Step)
    ensures NoStaleAppend(world, steps + [last])
            <==> NoStaleAppend(world, steps) && !AppendsStale(Run(world, steps), last)
  {
    var longer := steps + [last];
    assert longer[..|steps|] == steps && longer[|steps|] == last;
    forall i | 0 <= i < |steps|
      ensures AppendsStale(Run(world, longer[..i]), longer[i]) <==> AppendsStale(Run(world, steps[..i]), steps[i])
    {
      assert longer[..i] == steps[..i];
    }
  }

  lemma NextChains(world: World, step: Step)
    ensures ChainOk(Next(world, step).log) <==> ChainOk(world.log) && !AppendsStale(world, step)
  {
    if step.Append? && step.w < |world.pcs| && world.pcs[step.w].Chained? {
      var pc := world.pcs[step.w];
      ChainOneMore(world.log, Event(|world.log|, pc.predecessor, pc.name, pc.version, pc.entered));
    }
  }

  // The chain is intact exactly when no append uses a predecessor that another append has overtaken.
  lemma {:induction false} ChainOkIffNoStaleAppend(first: TransitionContext, writers: nat, steps: seq<Step>)
    ensures ChainOk(Run(Start(first, writers), steps).log) <==> NoStaleAppend(Start(first, writers), steps)
    decreases |steps|
  {
    if steps == [] {
      C.CreateRetold();
    } else {
      var front, last := steps[..|steps| - 1], steps[|steps| - 1];
      assert front + [last] == steps;
      ChainOkIffNoStaleAppend(first, writers, front);
      NoStaleAppendOneMore(Start(first, writers), front, last);
      NextChains(Run(Start(first, writers), front), last);
    }
  }

  // The schedule around the event log: the i-th step is this writer's read of the last event id, the j-th its append.
  ghost predicate Reads(world: World, steps: seq<Step>, i: nat, w: nat)
    requires i < |steps|
  {
    steps[i] == ReadLast(w) && w < |world.pcs| && Run(world, steps[..i]).pcs[w].Announcing?
  }

  ghost predicate Appends(world: World, steps: seq<Step>, j: nat, w: nat)
    requires j < |steps|
  {
    steps[j] == Append(w) && w < |world.pcs| && Run(world, steps[..j]).pcs[w].Chained?
  }

  // The last time this writer read before a step.
  ghost predicate LastRead(world: World, steps: seq<Step>, i: nat, j: nat, w: nat)
    requires i < j <= |steps|
  {
    Reads(world, steps, i, w) && forall m :: i < m < j ==> !Reads(world, steps, m, w)
  }

  // Between a writer's append and its last read before it, nobody appends.
  ghost predicate ReadsHold(world: World, steps: seq<Step>) {
    forall i, j, w ::
      0 <= i < j < |steps| && 0 <= w && Appends(world, steps, j, w) && LastRead(world, steps, i, j, w) ==>
      forall k, v :: i < k < j && 0 <= v ==> !Appends(world, steps, k, v)
  }

  // An event's id is its place, so the last id counts the events.
  lemma {:induction false} LastIdCounts(first: TransitionContext, writers: nat, steps: seq<Step>)
    ensures var log := Run(Start(first, writers), steps).log; log != [] && LastId(log) == Some(|log| - 1)
    decreases |steps|
  {
    if steps != [] {
      LastIdCounts(first, writers, steps[..|steps| - 1]);
    }
  }

  lemma OneStep(world: World, steps: seq<Step>, j: nat)
    requires 0 < j <= |steps|
    ensures Run(world, steps[..j]) == Next(Run(world, steps[..j - 1]), steps[j - 1])
  {
    assert steps[..j][..j - 1] == steps[..j - 1];
  }

  // The log grows exactly by the appends.
  lemma {:induction false} LogGrows(world: World, steps: seq<Step>, i: nat, j: nat)
    requires i <= j <= |steps|
    ensures var before, after := Run(world, steps[..i]).log, Run(world, steps[..j]).log;
            && |before| <= |after|
            && (|before| < |after| <==> exists k, v :: i <= k < j && 0 <= v && Appends(world, steps, k, v))
    decreases j - i
  {
    if i < j {
      LogGrows(world, steps, i, j - 1);
      OneStep(world, steps, j);
      if steps[j - 1].Append? {
        assert Appends(world, steps, j - 1, steps[j - 1].w)
               <==> |Run(world, steps[..j]).log| > |Run(world, steps[..j - 1]).log|;
      }
    }
  }

  // A writer that is about to append holds the last id of the time it read.
  lemma {:induction false} ChainedHasRead(first: TransitionContext, writers: nat, steps: seq<Step>, j: nat, w: nat)
    returns (i: nat)
    requires j <= |steps| && w < writers && Run(Start(first, writers), steps[..j]).pcs[w].Chained?
    ensures i < j && LastRead(Start(first, writers), steps, i, j, w)
    ensures Run(Start(first, writers), steps[..j]).pcs[w].predecessor
            == LastId(Run(Start(first, writers), steps[..i]).log)
    decreases j
  {
    hide Next, Start;
    var world := Start(first, writers);
    NobodyStartsChained(first, writers, w);
    if j == 0 {
      assert false;
    } else {
      OneStep(world, steps, j);
      ChainedBefore(Run(world, steps[..j - 1]), steps[j - 1], w);
      if Reads(world, steps, j - 1, w) {
        i := j - 1;
      } else {
        i := ChainedHasRead(first, writers, steps, j - 1, w);
      }
    }
  }

  lemma NobodyStartsChained(first: TransitionContext, writers: nat, w: nat)
    requires w < writers
    ensures |Start(first, writers).pcs| == writers && !Run(Start(first, writers), []).pcs[w].Chained?
  {}

  // A writer comes to hold a predecessor by reading it.
  lemma ChainedBefore(world: World, step: Step, w: nat)
    requires w < |world.pcs| && Next(world, step).pcs[w].Chained?
    ensures world.pcs[w] == Next(world, step).pcs[w]
            || (step == ReadLast(w) && world.pcs[w].Announcing?
                && Next(world, step).pcs[w].predecessor == LastId(world.log))
  {}

  lemma LastReadIsUnique(world: World, steps: seq<Step>, i: nat, read: nat, j: nat, w: nat)
    requires i < j <= |steps| && read < j && LastRead(world, steps, i, j, w) && LastRead(world, steps, read, j, w)
    ensures i == read
  {}

  lemma StaleIffOvertaken(first: TransitionContext, writers: nat, steps: seq<Step>, i: nat, j: nat, w: nat)
    requires i < j < |steps| && w < writers
    requires var world := Start(first, writers); Appends(world, steps, j, w) && LastRead(world, steps, i, j, w)
    ensures AppendsStale(Run(Start(first, writers), steps[..j]), steps[j])
            <==> exists k, v :: i < k < j && 0 <= v && Appends(Start(first, writers), steps, k, v)
  {
    var world := Start(first, writers);
    var read := ChainedHasRead(first, writers, steps, j, w);
    LastReadIsUnique(world, steps, i, read, j, w);
    LastIdCounts(first, writers, steps[..i]);
    LastIdCounts(first, writers, steps[..j]);
    LogGrows(world, steps, i, j);
  }

  /** The chain is intact if and only if nobody else appends between a writer's read of the last id and its append. */
  lemma ChainOkIffReadsHold(first: TransitionContext, writers: nat, steps: seq<Step>)
    ensures ChainOk(Run(Start(first, writers), steps).log) <==> ReadsHold(Start(first, writers), steps)
  {
    hide ChainOk, AppendsStale, LastRead, Next;
    var world := Start(first, writers);
    ChainOkIffNoStaleAppend(first, writers, steps);
    forall j | 0 <= j < |steps| && AppendsStale(Run(world, steps[..j]), steps[j]) ensures !ReadsHold(world, steps) {
      StaleAppends(world, steps, j);
      var i := ChainedHasRead(first, writers, steps, j, steps[j].w);
      StaleIffOvertaken(first, writers, steps, i, j, steps[j].w);
    }
    forall i, j, w | 0 <= i < j < |steps| && 0 <= w && Appends(world, steps, j, w) && LastRead(world, steps, i, j, w)
      ensures NoStaleAppend(world, steps) ==> forall k, v :: i < k < j && 0 <= v ==> !Appends(world, steps, k, v)
    {
      StaleIffOvertaken(first, writers, steps, i, j, w);
    }
  }

  lemma StaleAppends(world: World, steps: seq<Step>, j: nat)
    requires j < |steps| && AppendsStale(Run(world, steps[..j]), steps[j])
    ensures Appends(world, steps, j, steps[j].w)
  {}

  // Every read of the last event id is followed at once by the same writer's append.
  ghost predicate EmitsAtomically(steps: seq<Step>) {
    forall i :: 0 <= i < |steps| ==>
      (steps[i].ReadLast? ==> i + 1 < |steps| && steps[i + 1] == Append(steps[i].w))
      && (steps[i].Append? ==> i > 0 && steps[i - 1] == ReadLast(steps[i].w))
  }

  lemma {:induction false} AtomicLeavesNobodyChained(first: TransitionContext, writers: nat, steps: seq<Step>, i: nat)
    requires EmitsAtomically(steps) && i <= |steps|
    ensures var world := Run(Start(first, writers), steps[..i]);
            forall w :: 0 <= w < |world.pcs| && world.pcs[w].Chained? ==>
              i > 0 && steps[i - 1] == ReadLast(w) && world.pcs[w].predecessor == LastId(world.log)
    decreases i
  {
    if i > 0 {
      AtomicLeavesNobodyChained(first, writers, steps, i - 1);
      assert steps[..i][..i - 1] == steps[..i - 1];
      if i > 1 && steps[i - 2].ReadLast? {
        assert steps[(i - 2) + 1] == Append(steps[i - 2].w);
      }
    }
  }

  /** With each read-then-append taken as one step, every interleaving keeps the chain. */
  lemma AtomicEmitsKeepChain(first: TransitionContext, writers: nat, steps: seq<Step>)
    requires EmitsAtomically(steps)
    ensures ChainOk(Run(Start(first, writers), steps).log)
  {
    forall i | 0 <= i < |steps| ensures !AppendsStale(Run(Start(first, writers), steps[..i]), steps[i]) {
      AtomicLeavesNobodyChained(first, writers, steps, i);
    }
    ChainOkIffNoStaleAppend(first, writers, steps);
  }

  /** As written, with the read and the append apart, two writers can fork it. */
  lemma ChainCanFork()
    ensures exists end :: Reachable(end) && !ChainOk(end.log)
  {
    hide Reachable, Admits;
    var world := StartIsReachable();
    world := Reach(world, StartEmit(0, SearchProgress));
    world := Reach(world, StartEmit(1, SearchCoverage));
    world := Reach(world, ReadLast(0));
    world := Reach(world, ReadLast(1));
    assert world.pcs == [Chained(Some(0), SearchProgress, 0, None), Chained(Some(0), SearchCoverage, 0, None)];
    world := Reach(world, Append(0));
    world := Reach(world, Append(1));
    assert world.log
           == C.Create().log + [Event(1, Some(0), SearchProgress, 0, None), Event(2, Some(0), SearchCoverage, 0, None)];
    assert LastId(world.log[..2]) == Some(1) && !Follows(world.log, 2);
  }
}
