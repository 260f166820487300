/** The single writer of src/searcher/campaigns/controller.py, for one campaign: transitions,
    cancellation, checkpoints and events. */
module Controller {
  import opened Wrappers
  import opened Transitions
  import opened EventLog
  import opened Cancellation
  import T = Terminal

  datatype Row = Row(state: CampaignState, version: nat, verdict: Option<CampaignState>, reason: string,
                     exhaustionReceipt: Option<string>)

  // What is stored beside the row: what context_from_disk reads, and what the verdict reads.
  datatype Disk = Disk(
    queries: seq<string>,
    candidates: nat,
    acceptedEvidence: nat,
    hasVisual: bool,
    sellerTextOnly: bool,
    exhaustionReceipt: Option<string>,
    saturationReceipt: Option<string>,
    coverage: T.Coverage,
    realCount: nat,
    possiblyRealCount: nat)

  const NOTHING_STORED := Disk([], 0, 0, false, false, None, None, T.Coverage([], [], 0, 0), 0, 0)

  // When the event of a committed version is appended: before the next commit, after a cancellation that
  // came in between, or never, because the process died first.
  datatype Telling = AtOnce | Late | Never

  datatype Commit = Commit(state: CampaignState, telling: Telling)

  // The persistent part of a campaign that its own runs read back: row, completed_steps, event log. The
  // commits are stored nowhere: they are the row's past, by version.
  datatype Campaign = Campaign(row: Row, steps: seq<CampaignState>, log: seq<Event>, commits: seq<Commit>)

  datatype Error = CampaignCancelled | Refused(refusal: Refusal)

  function ContextFromDisk(row: Row, disk: Disk): (ctx: TransitionContext) {
    TransitionContext(
      disk.queries != [],
      disk.hasVisual,
      disk.candidates,
      disk.candidates > 0 || disk.acceptedEvidence > 0 || disk.hasVisual,
      disk.sellerTextOnly,
      if Given(row.exhaustionReceipt) then row.exhaustionReceipt else disk.exhaustionReceipt,
      disk.saturationReceipt,
      None,
      "")
  }

  function Create(): Campaign {
    Campaign(Row(Created, 0, None, "", None), [], Emit([], SearchState, 0, Some(Created)), [Commit(Created, AtOnce)])
  }

  // The row a successful transition writes.
  function Written(row: Row, target: CampaignState, ctx: TransitionContext): Row {
    Row(target, row.version + 1,
        if IsTerminal(target) then TerminalVerdictFor(target) else row.verdict,
        if IsTerminal(target) && ctx.reason != "" then ctx.reason else row.reason,
        if Given(ctx.exhaustionReceipt) then ctx.exhaustionReceipt else row.exhaustionReceipt)
  }

  // The first write of a transition: the row.
  function Committed(c: Campaign, target: CampaignState, ctx: TransitionContext, telling: Telling): Campaign {
    c.(row := Written(c.row, target, ctx), commits := c.commits + [Commit(target, telling)])
  }

  // The second: the event of a version.
  function Told(c: Campaign, version: nat, state: CampaignState): Campaign {
    c.(log := Emit(c.log, SearchState, version, Some(state)))
  }

  // Both, with nothing in between.
  function Enter(c: Campaign, target: CampaignState, ctx: TransitionContext): Campaign {
    Told(Committed(c, target, ctx, AtOnce), c.row.version + 1, target)
  }

  // Why a transition is refused, in the order the checks are made.
  function TransitionCheck(state: CampaignState, cancelRequested: bool, target: CampaignState,
                           ctx: TransitionContext): (r: Outcome<Error>) {
    if target != Cancelled && cancelRequested then Fail(CampaignCancelled)
    else
      match AssertLegal(state, target)
      case Fail(refusal) => Fail(Refused(refusal))
      case Pass =>
        match AssertInvariants(target, ctx)
        case Fail(refusal) => Fail(Refused(refusal))
        case Pass => Pass
  }

  function Mark(steps: seq<CampaignState>, s: CampaignState): (marked: seq<CampaignState>)
    ensures s in marked && steps <= marked && forall t :: t in marked ==> t in steps || t == s
  {
    if s in steps then steps else steps + [s]
  }

  lemma CancelIgnoresTheFlag(state: CampaignState, ctx: TransitionContext)
    ensures TransitionCheck(state, false, Cancelled, ctx) == TransitionCheck(state, true, Cancelled, ctx)
  {}

  const CANCELLED_BY_OPERATOR := "cancelled by operator"

  function CancelContext(row: Row, disk: Disk): (ctx: TransitionContext) {
    ContextFromDisk(row, disk).(reason := CANCELLED_BY_OPERATOR)
  }

  lemma CancelPasses(state: CampaignState, cancelRequested: bool, ctx: TransitionContext)
    requires !IsTerminal(state)
    ensures TransitionCheck(state, cancelRequested, Cancelled, ctx) == Pass
  {
    CancelOpenIffActive(state, ctx);
  }

  // Ending an active campaign: commit the terminal state, checkpoint it, announce the end.
  function EndedBy(c: Campaign, target: CampaignState, ctx: TransitionContext): Campaign {
    var entered := Enter(c, target, ctx);
    entered.(steps := Mark(c.steps, target),
             log := Emit(entered.log, SearchComplete, entered.row.version, Some(target)))
  }

  // cancel() on a campaign that is not terminal.
  function CancelledBy(c: Campaign, ctx: TransitionContext): Campaign {
    EndedBy(c, Cancelled, ctx)
  }

  // How far a cancel() comes whose process dies in it: to its row, its event, its checkpoint, or to its end.
  datatype Reach = JustWritten | JustTold | Filed | Whole

  function CancelledUpTo(c: Campaign, ctx: TransitionContext, reach: Reach): Campaign {
    match reach
    case JustWritten => Committed(c, Cancelled, ctx, Never)
    case JustTold => Enter(c, Cancelled, ctx)
    case Filed => Enter(c, Cancelled, ctx).(steps := Mark(c.steps, Cancelled))
    case Whole => CancelledBy(c, ctx)
  }

  lemma CancelledUpToTheEnd(c: Campaign, ctx: TransitionContext)
    ensures CancelledUpTo(c, ctx, Whole) == CancelledBy(c, ctx) && CancelledBy(c, ctx).row.state == Cancelled
    ensures CancelledBy(c, ctx).row.version == c.row.version + 1
  {}

  lemma EnterMoves(c: Campaign, target: CampaignState, ctx: TransitionContext)
    ensures var entered := Enter(c, target, ctx);
            entered.row.state == target && entered.row.version == c.row.version + 1 && entered.steps == c.steps
  {}

  // The label a checkpoint is stored under: a stage's own name, or "terminal".
  datatype Label = ForStage(stage: CampaignState) | AtEnd

  datatype Checkpoint = Checkpoint(state: CampaignState, version: nat, at: Label)

  class CampaignController {
    const searchId: string
    const cancellation: CancellationController
    var row: Row
    var steps: seq<CampaignState>
    var log: seq<Event>
    var disk: Disk
    var checkpoints: seq<Checkpoint>
    var orchestratorRound: nat      // runtime's orchestrator_round, 1 until a round is stored
    ghost var commits: seq<Commit>

    ghost function View(): Campaign
      reads this
    {
      Campaign(row, steps, log, commits)
    }

    ghost predicate CancelRequested()
      reads cancellation
    {
      cancellation.IsSet(searchId)
    }

    constructor (searchId: string, cancellation: CancellationController)
      ensures this.searchId == searchId && this.cancellation == cancellation
      ensures View() == Create() && checkpoints == [] && orchestratorRound == 1 && disk == NOTHING_STORED
    {
      this.searchId, this.cancellation := searchId, cancellation;
      row, steps, checkpoints := Row(Created, 0, None, "", None), [], [];
      log := Emit([], SearchState, 0, Some(Created));
      disk, orchestratorRound, commits := NOTHING_STORED, 1, [Commit(Created, AtOnce)];
    }

    // The controller of the next process: what is stored is read back, whatever became of the flags.
    constructor Load(stored: CampaignController, cancellation: CancellationController)
      ensures searchId == stored.searchId && this.cancellation == cancellation
      ensures View() == stored.View() && disk == stored.disk && checkpoints == stored.checkpoints
      ensures orchestratorRound == stored.orchestratorRound
    {
      searchId, this.cancellation := stored.searchId, cancellation;
      row, steps, log := stored.row, stored.steps, stored.log;
      disk, checkpoints, orchestratorRound := stored.disk, stored.checkpoints, stored.orchestratorRound;
      commits := stored.commits;
    }

    /** update_campaign_blob: the row that was read is written back changed, unless it is no longer the stored one. */
    method WriteRow(seen: Row, target: CampaignState, ctx: TransitionContext, ghost telling: Telling)
      returns (current: bool)
      modifies this`row, this`commits
      ensures current == (old(row.version) == seen.version)
      ensures View() == if current then old(View()).(row := Written(seen, target, ctx),
                                                   commits := old(commits) + [Commit(target, telling)])
                        else old(View())
    {
      current := row.version == seen.version;
      if current {
        row := Written(seen, target, ctx);
        commits := commits + [Commit(target, telling)];
      }
    }

    /** transition(): a refusal changes nothing; a success commits one version and announces it. */
    method Transition(target: CampaignState, ctx: TransitionContext) returns (r: Outcome<Error>)
      modifies this`row, this`log, this`commits, cancellation
      ensures r == TransitionCheck(old(row.state), old(CancelRequested()), target, ctx)
      ensures View() == if r.Pass? then Enter(old(View()), target, ctx) else old(View())
      ensures CancelRequested() == old(CancelRequested())
    {
      hide TransitionCheck, ContextFromDisk;
      CancelIgnoresTheFlag(row.state, ctx);
      var cancelled := false;
      if target != Cancelled {
        cancelled := cancellation.IsCancelled(searchId);
      }
      r := TransitionCheck(row.state, cancelled, target, ctx);
      if r.Pass? {
        var version := row.version + 1;
        var current := WriteRow(row, target, ctx, AtOnce);
        Tell(version, target);
      }
    }

    // The event of a version.
    method Tell(version: nat, state: CampaignState)
      modifies this`log
      ensures View() == Told(old(View()), version, state)
    {
      log := Emit(log, SearchState, version, Some(state));
    }

    method Announce(name: EventName, entered: Option<CampaignState>)
      modifies this`log
      ensures View() == old(View()).(log := Emit(old(log), name, row.version, entered))
    {
      log := Emit(log, name, row.version, entered);
    }

    method MarkStep(s: CampaignState)
      modifies this`steps
      ensures View() == old(View()).(steps := Mark(old(steps), s))
    {
      if s !in steps {
        steps := steps + [s];
      }
    }

    // checkpoint(): it marks the state the row shows now, whatever stage the caller is finishing.
    method TakeCheckpoint(at: Label)
      modifies this`steps, this`checkpoints
      ensures View() == old(View()).(steps := Mark(old(steps), row.state))
      ensures checkpoints == old(checkpoints) + [Checkpoint(row.state, row.version, at)]
    {
      StoreCheckpoint(at);
      MarkStep(row.state);
    }

    // Its first write.
    method StoreCheckpoint(at: Label)
      modifies this`checkpoints
      ensures checkpoints == old(checkpoints) + [Checkpoint(row.state, row.version, at)]
    {
      checkpoints := checkpoints + [Checkpoint(row.state, row.version, at)];
    }

    /** cancel(): the flag is always set, and a campaign that is not terminal ends CANCELLED. */
    method Cancel()
      modifies this`row, this`steps, this`log, this`checkpoints, this`commits, cancellation
      ensures CancelRequested()
      ensures View() == if IsTerminal(old(row.state)) then old(View())
                        else CancelledBy(old(View()), CancelContext(old(row), disk))
      ensures IsTerminal(row.state)
      ensures checkpoints == old(checkpoints) + (if IsTerminal(old(row.state)) then []
                                                 else [Checkpoint(Cancelled, row.version, AtEnd)])
    {
      hide CancelledUpTo, CancelContext;
      CancelUpTo(Whole);
      CancelledUpToTheEnd(old(View()), CancelContext(old(row), disk));
    }

    // cancel() as far as it comes.
    method CancelUpTo(reach: Reach)
      modifies this`row, this`steps, this`log, this`checkpoints, this`commits, cancellation
      ensures CancelRequested()
      ensures View() == if IsTerminal(old(row.state)) then old(View())
                        else CancelledUpTo(old(View()), CancelContext(old(row), disk), reach)
      ensures checkpoints == old(checkpoints) + (if IsTerminal(old(row.state)) || reach in {JustWritten, JustTold}
                                                 then []
                                                 else [Checkpoint(Cancelled, old(row.version) + 1, AtEnd)])
    {
      hide TransitionCheck, ContextFromDisk, Written, Emit, Mark;
      cancellation.Request(searchId);
      if IsTerminal(row.state) {
        return;
      }
      var ctx := CancelContext(row, disk);
      CancelPasses(row.state, true, ctx);
      if reach == JustWritten {
        var current := WriteRow(row, Cancelled, ctx, Never);
        return;
      }
      var r := Transition(Cancelled, ctx);
      EnterMoves(old(View()), Cancelled, ctx);
      if reach != JustTold {
        TakeCheckpoint(AtEnd);
      }
      if reach == Whole {
        Announce(SearchComplete, Some(Cancelled));
      }
    }
  }

  // ---------------------------------------------------------------- whole runs

  datatype Op =
    | DoTransition(target: CampaignState, ctx: TransitionContext)
    | DoEmit(name: EventName)
    | DoCheckpoint
    | DoMark(s: CampaignState)
    | DoCancel(disk: Disk)

  // One controller call at a time, on (campaign, flag). search.state is announced by transitions only.
  function Apply(c: Campaign, flag: bool, op: Op): (Campaign, bool) {
    match op
    case DoTransition(target, ctx) =>
      (if TransitionCheck(c.row.state, flag, target, ctx).Pass? then Enter(c, target, ctx) else c, flag)
    case DoEmit(name) => (if name == SearchState then c else c.(log := Emit(c.log, name, c.row.version, None)), flag)
    case DoCheckpoint => (c.(steps := Mark(c.steps, c.row.state)), flag)
    case DoMark(s) => (c.(steps := Mark(c.steps, s)), flag)
    case DoCancel(disk) =>
      (if IsTerminal(c.row.state) then c
       else CancelledBy(c, CancelContext(c.row, disk)), true)
  }

  function Perform(ops: seq<Op>): (Campaign, bool)
    decreases |ops|
  {
    if ops == [] then (Create(), false)
    else
      var (c, flag) := Perform(ops[..|ops| - 1]);
      Apply(c, flag, ops[|ops| - 1])
  }

  /** The calls themselves, one after the other on one controller, whatever is stored when a cancel() comes. */
  method CallAll(searchId: string, ops: seq<Op>) returns (controller: CampaignController)
    ensures fresh(controller) && fresh(controller.cancellation)
    ensures (controller.View(), controller.CancelRequested()) == Perform(ops)
  {
    hide Apply;
    var cancellation := new CancellationController();
    controller := new CampaignController(searchId, cancellation);
    for i := 0 to |ops|
      invariant fresh(controller) && controller.cancellation == cancellation && fresh(cancellation)
      invariant (controller.View(), controller.CancelRequested()) == Perform(ops[..i])
    {
      assert ops[..i + 1][..i] == ops[..i];
      CallOne(controller, ops[i]);
    }
    assert ops[..|ops|] == ops;
  }

  method CallOne(controller: CampaignController, op: Op)
    modifies controller, controller.cancellation
    ensures (controller.View(), controller.CancelRequested())
            == Apply(old(controller.View()), old(controller.CancelRequested()), op)
  {
    hide TransitionCheck, CancelContext, CancelledBy, Enter;
    match op {
      case DoTransition(target, ctx) => var r := controller.Transition(target, ctx);
      case DoEmit(name) =>
        if name != SearchState {
          controller.Announce(name, None);
        }
      case DoCheckpoint => controller.TakeCheckpoint(AtEnd);
      case DoMark(s) => controller.MarkStep(s);
      case DoCancel(disk) =>
        controller.disk := disk;
        controller.Cancel();
    }
  }

  // The states announced by the log's search.state events, in order.
  function Announced(log: seq<Event>): (states: seq<Event>) {
    if log == [] then []
    else Announced(log[..|log| - 1]) + (if log[|log| - 1].name == SearchState then [log[|log| - 1]] else [])
  }

  // Replaying the search.state events retells the row's whole life: version k announces the k-th
  // state, each by a legal edge from the one before, and the last is the state the row shows.
  ghost predicate LogRetellsRow(c: Campaign) {
    var told := Announced(c.log);
    && ChainOk(c.log)
    && |told| == c.row.version + 1
    && told[0].state == Some(Created) && told[c.row.version].state == Some(c.row.state)
    && (forall k :: 0 <= k < |told| ==> told[k].version == k && told[k].state.Some?)
    && (forall k :: 0 < k < |told| ==> told[k].state.value in Forward(told[k - 1].state.value))
    && (IsTerminal(c.row.state) <==> c.row.verdict == Some(c.row.state))
    && (!IsTerminal(c.row.state) ==> c.row.verdict == None)
  }

  lemma EmitOther(c: Campaign, name: EventName, version: nat, state: Option<CampaignState>)
    requires LogRetellsRow(c) && name != SearchState
    ensures LogRetellsRow(c.(log := Emit(c.log, name, version, state)))
  {
    var longer := Emit(c.log, name, version, state);
    assert longer[..|c.log|] == c.log;
    ChainOneMore(c.log, longer[|c.log|]);
  }

  lemma OnlyActiveIsLeft(s: CampaignState, target: CampaignState)
    requires target in Forward(s)
    ensures !IsTerminal(s)
  {}

  lemma EnterRetold(c: Campaign, target: CampaignState, ctx: TransitionContext)
    requires LogRetellsRow(c) && target in Forward(c.row.state)
    ensures LogRetellsRow(Enter(c, target, ctx))
  {
    hide ChainOk, Forward;
    OnlyActiveIsLeft(c.row.state, target);
    var next := Enter(c, target, ctx);
    assert next.log[..|c.log|] == c.log;
    ChainOneMore(c.log, next.log[|c.log|]);
    assert Announced(next.log) == Announced(c.log) + [next.log[|c.log|]];
  }

  ghost predicate NoRepeats(steps: seq<CampaignState>) {
    forall i, j :: 0 <= i < j < |steps| ==> steps[i] != steps[j]
  }

  lemma CancelledRetold(c: Campaign, ctx: TransitionContext)
    requires LogRetellsRow(c) && !IsTerminal(c.row.state)
    ensures LogRetellsRow(CancelledBy(c, ctx))
  {
    CancelOpenIffActive(c.row.state, ctx);
    EnterRetold(c, Cancelled, ctx);
    var entered := Enter(c, Cancelled, ctx);
    EmitOther(entered, SearchComplete, entered.row.version, Some(Cancelled));
  }

  lemma ApplyRetold(c: Campaign, flag: bool, op: Op)
    requires LogRetellsRow(c)
    ensures LogRetellsRow(Apply(c, flag, op).0)
  {
    match op
    case DoTransition(target, ctx) =>
      if TransitionCheck(c.row.state, flag, target, ctx).Pass? { EnterRetold(c, target, ctx); }
    case DoEmit(name) =>
      if name != SearchState { EmitOther(c, name, c.row.version, None); }
    case DoCheckpoint =>
    case DoMark(s) =>
    case DoCancel(disk) =>
      if !IsTerminal(c.row.state) {
        CancelledRetold(c, CancelContext(c.row, disk));
      }
  }

  lemma ApplyNoRepeats(c: Campaign, flag: bool, op: Op)
    requires NoRepeats(c.steps)
    ensures NoRepeats(Apply(c, flag, op).0.steps)
  {}

  lemma CreateRetold()
    ensures LogRetellsRow(Create())
  {
    var log := Create().log;
    assert log[..0] == [];
    assert Announced(log) == [log[0]];
    assert Follows(log, 0);
  }

  /** After any sequence of create, transition, emit, checkpoint, mark and cancel, the event chain is
      intact, the log retells the row, and no completed step is listed twice. */
  lemma {:induction false} LogAlwaysRetellsRow(ops: seq<Op>)
    ensures LogRetellsRow(Perform(ops).0) && NoRepeats(Perform(ops).0.steps)
    decreases |ops|
  {
    if ops == [] {
      CreateRetold();
    } else {
      LogAlwaysRetellsRow(ops[..|ops| - 1]);
      var (c, flag) := Perform(ops[..|ops| - 1]);
      ApplyRetold(c, flag, ops[|ops| - 1]);
      ApplyNoRepeats(c, flag, ops[|ops| - 1]);
    }
  }

  lemma TerminalStays(c: Campaign, flag: bool, op: Op)
    requires IsTerminal(c.row.state)
    ensures Apply(c, flag, op).0.row == c.row && (flag ==> Apply(c, flag, op).1)
  {}

  lemma CancelEnds(c: Campaign, flag: bool, disk: Disk)
    ensures IsTerminal(Apply(c, flag, DoCancel(disk)).0.row.state) && Apply(c, flag, DoCancel(disk)).1
  {}

  /** After a completed cancel() the row is terminal, nothing changes it again, and the flag stays up. */
  lemma {:induction false} CancelIsFinal(before: seq<Op>, disk: Disk, after: seq<Op>)
    ensures IsTerminal(Perform(before + [DoCancel(disk)]).0.row.state)
    ensures Perform(before + [DoCancel(disk)] + after).0.row == Perform(before + [DoCancel(disk)]).0.row
    ensures Perform(before + [DoCancel(disk)] + after).1
    decreases |after|
  {
    hide Apply;
    var ops := before + [DoCancel(disk)];
    assert ops[..|ops| - 1] == before;
    if after == [] {
      CancelEnds(Perform(before).0, Perform(before).1, disk);
      assert ops + after == ops;
    } else {
      var front := after[..|after| - 1];
      CancelIsFinal(before, disk, front);
      assert (ops + after)[..|ops + after| - 1] == ops + front;
      TerminalStays(Perform(ops + front).0, Perform(ops + front).1, after[|after| - 1]);
    }
  }

  // ---------------------------------------------------------------- what the row says

  // The last receipt that was given, if one was.
  predicate IsLastGiven(receipt: Option<string>, given: seq<TransitionContext>) {
    if receipt == None then forall k :: 0 <= k < |given| ==> !Given(given[k].exhaustionReceipt)
    else exists k :: 0 <= k < |given| && GivesLast(given, k) && given[k].exhaustionReceipt == receipt
  }

  predicate GivesLast(given: seq<TransitionContext>, k: nat)
    requires k < |given|
  {
    Given(given[k].exhaustionReceipt) && forall j :: k < j < |given| ==> !Given(given[j].exhaustionReceipt)
  }

  // The row shows what the contexts it was committed with gave: the last receipt, and the reason of its end.
  predicate RowTells(given: seq<TransitionContext>, row: Row) {
    && |given| == row.version && IsLastGiven(row.exhaustionReceipt, given)
    && row.reason == (if IsTerminal(row.state) && given != [] then given[|given| - 1].reason else "")
    && row.verdict == (if IsTerminal(row.state) then Some(row.state) else None)
  }

  lemma LastGivenOneMore(receipt: Option<string>, given: seq<TransitionContext>, ctx: TransitionContext)
    requires IsLastGiven(receipt, given)
    ensures IsLastGiven(if Given(ctx.exhaustionReceipt) then ctx.exhaustionReceipt else receipt, given + [ctx])
  {
    var longer := given + [ctx];
    if Given(ctx.exhaustionReceipt) {
      assert GivesLast(longer, |given|);
    } else if receipt != None {
      var k :| 0 <= k < |given| && GivesLast(given, k) && given[k].exhaustionReceipt == receipt;
      assert longer[k] == given[k] && GivesLast(longer, k);
    }
  }

  lemma WrittenTells(given: seq<TransitionContext>, row: Row, target: CampaignState, ctx: TransitionContext)
    requires RowTells(given, row) && !IsTerminal(row.state)
    ensures RowTells(given + [ctx], Written(row, target, ctx))
  {
    hide IsLastGiven;
    LastGivenOneMore(row.exhaustionReceipt, given, ctx);
  }

  // The contexts of the calls that committed a version.
  function Contexts(ops: seq<Op>): (given: seq<TransitionContext>)
    decreases |ops|
  {
    if ops == [] then []
    else
      var (c, flag) := Perform(ops[..|ops| - 1]);
      Contexts(ops[..|ops| - 1])
      + match ops[|ops| - 1]
        case DoTransition(target, ctx) => if TransitionCheck(c.row.state, flag, target, ctx).Pass? then [ctx] else []
        case DoCancel(disk) => if IsTerminal(c.row.state) then [] else [CancelContext(c.row, disk)]
        case _ => []
  }

  lemma PassIsActive(state: CampaignState, flag: bool, target: CampaignState, ctx: TransitionContext)
    ensures TransitionCheck(state, flag, target, ctx).Pass? ==> !IsTerminal(state)
  {}

  /** After any calls the row shows the last receipt that a commit was given, and in the end its reason. */
  lemma {:induction false} RowTellsItsCommits(ops: seq<Op>)
    ensures RowTells(Contexts(ops), Perform(ops).0.row)
    decreases |ops|
  {
    hide RowTells, TransitionCheck, Written, CancelContext;
    if ops == [] {
      NewRowTells();
    } else {
      var front, op := ops[..|ops| - 1], ops[|ops| - 1];
      RowTellsItsCommits(front);
      var (c, flag) := Perform(front);
      assert Contexts(front) + [] == Contexts(front);
      match op
      case DoTransition(target, ctx) =>
        PassIsActive(c.row.state, flag, target, ctx);
        if TransitionCheck(c.row.state, flag, target, ctx).Pass? {
          WrittenTells(Contexts(front), c.row, target, ctx);
        }
      case DoCancel(disk) =>
        if !IsTerminal(c.row.state) {
          WrittenTells(Contexts(front), c.row, Cancelled, CancelContext(c.row, disk));
        }
      case _ =>
    }
  }

  lemma NewRowTells()
    ensures RowTells(Contexts([]), Perform([]).0.row)
  {}

  /** A campaign that a cancel() ended says so, and keeps the receipt it had or the one that is stored. */
  lemma CancelSaysSo(c: Campaign, disk: Disk)
    requires !IsTerminal(c.row.state)
    ensures var row := CancelledBy(c, CancelContext(c.row, disk)).row;
            && row.state == Cancelled && row.reason == "cancelled by operator" && row.verdict == Some(Cancelled)
            && (Given(c.row.exhaustionReceipt) ==> row.exhaustionReceipt == c.row.exhaustionReceipt)
            && (!Given(c.row.exhaustionReceipt) && Given(disk.exhaustionReceipt) ==>
                  row.exhaustionReceipt == disk.exhaustionReceipt)
  {}

  /** What the guards of the walk come to on what is stored. */
  lemma GuardsReadTheDisk(row: Row, disk: Disk)
    ensures var ctx := ContextFromDisk(row, disk);
            && (GuardHolds(Discovering, ctx) <==> disk.queries != [] || disk.hasVisual)
            && (GuardHolds(FineMatching, ctx) <==> disk.candidates > 0)
            && (GuardHolds(AuthenticityReview, ctx)
                <==> !disk.sellerTextOnly && (disk.candidates > 0 || disk.acceptedEvidence > 0 || disk.hasVisual))
            && (GuardHolds(Complete, ctx)
                <==> Given(row.exhaustionReceipt) || Given(disk.exhaustionReceipt) || Given(disk.saturationReceipt))
            && !GuardHolds(Failed, ctx)
  {}
}
