/** What the stage walk of src/searcher/campaigns/orchestrator.py stands on: the sequence of stages, where
    a stored campaign can be found between two of them, and which edges are open from there. */
module Walk {
  import opened Wrappers
  import opened Transitions
  import opened EventLog
  import opened Controller
  import T = Terminal

  const EARLY: seq<CampaignState> :=
    [PlanningSources, Discovering, Acquiring, Normalizing, Deduplicating, BroadRetrieval]

  predicate IsEarly(s: CampaignState) {
    s.PlanningSources? || s.Discovering? || s.Acquiring? || s.Normalizing? || s.Deduplicating? || s.BroadRetrieval?
  }

  const LATE: seq<CampaignState> := [FineMatching, AuthenticityReview, LiveChecking, Ranking, Publishing]

  // _sequence: the matching stages take part only when there are candidates.
  function Sequence(hasCandidates: bool): (stages: seq<CampaignState>) {
    EARLY + (if hasCandidates then LATE else []) + [GapAnalysis]
  }

  const STAGES: set<CampaignState> :=
    {PlanningSources, Discovering, Acquiring, Normalizing, Deduplicating, BroadRetrieval,
     FineMatching, AuthenticityReview, LiveChecking, Ranking, Publishing, GapAnalysis}

  const MATCH_STAGES: set<CampaignState> := {FineMatching, AuthenticityReview, LiveChecking, Ranking, Publishing}

  function Remaining(stages: seq<CampaignState>, completed: seq<CampaignState>): (rest: seq<CampaignState>)
    ensures forall s :: s in rest ==> s in stages && s !in completed
  {
    if stages == [] then []
    else (if stages[0] in completed then [] else [stages[0]]) + Remaining(stages[1..], completed)
  }

  datatype Exn = BudgetExceeded | CancelledError | Refused(refusal: Refusal) | Stale | OtherError

  datatype Status = Done | Crashed | Raised(exn: Exn)

  // An illegal edge was asked for: one out of an active state.
  predicate IllegalRaise(status: Status) {
    && status.Raised? && status.exn.Refused? && status.exn.refusal.IllegalTransition?
    && !IsTerminal(status.exn.refusal.source)
  }

  // A transition was overtaken by a cancel(): it read the row too late, or wrote it too late.
  predicate Overtaken(status: Status) {
    || status == Raised(Stale)
    || (status.Raised? && status.exn.Refused? && status.exn.refusal.IllegalTransition?
        && IsTerminal(status.exn.refusal.source))
  }

  function Thrown(error: Error): Exn {
    if error.CampaignCancelled? then CancelledError else Exn.Refused(error.refusal)
  }

  // ---------------------------------------------------------------- where a campaign can be

  // The states a pass can stand in with exactly its first k stages behind it: the last of them, the
  // next one, or REPLANNING just before the first or after the last.
  predicate Stands(state: CampaignState, stages: seq<CampaignState>, k: nat)
    requires k <= |stages|
  {
    || state == (if k == 0 then PlanningQueries else stages[k - 1])
    || (k < |stages| && state == stages[k])
    || (state == Replanning && (k == 0 || k == |stages|))
  }

  // Exactly the first k stages are completed, and none outside the sequence is.
  ghost predicate At(state: CampaignState, steps: seq<CampaignState>, stages: seq<CampaignState>, k: nat) {
    && k <= |stages|
    && PlanningQueries in steps
    && (forall i :: 0 <= i < |stages| ==> (stages[i] in steps <==> i < k))
    && (forall s :: s in steps && s in STAGES ==> s in stages)
    && Stands(state, stages, k)
  }

  // What a list of stages must be for the walk to make sense.
  ghost predicate IsPlan(stages: seq<CampaignState>) {
    && |stages| >= 7
    && (forall i :: 0 <= i < |stages| ==> stages[i] in STAGES && (IsEarly(stages[i]) <==> i < 6))
    && (forall i :: 0 <= i < 6 ==> stages[i] == EARLY[i])
    && (forall i, j :: 0 <= i < j < |stages| ==> stages[i] != stages[j])
    && stages[|stages| - 1] == GapAnalysis
  }

  lemma SequenceIsPlan(hasCandidates: bool)
    ensures IsPlan(Sequence(hasCandidates))
  {}

  // Wherever a pass can stand, its next stage is a legal edge away.
  lemma SequenceIsLegal(state: CampaignState, hasCandidates: bool, k: nat)
    requires k < |Sequence(hasCandidates)| && Stands(state, Sequence(hasCandidates), k)
    ensures state == Sequence(hasCandidates)[k] || Sequence(hasCandidates)[k] in Forward(state)
  {}

  lemma {:induction false} RemainingAfterPrefix(stages: seq<CampaignState>, completed: seq<CampaignState>, k: nat)
    requires k <= |stages|
    requires forall i :: 0 <= i < |stages| ==> (stages[i] in completed <==> i < k)
    ensures Remaining(stages, completed) == stages[k..]
    decreases |stages|
  {
    if stages != [] {
      RemainingAfterPrefix(stages[1..], completed, if k == 0 then 0 else k - 1);
    }
  }

  // What is left to do is the plan from the first uncompleted stage on.
  lemma RemainingAt(state: CampaignState, steps: seq<CampaignState>, stages: seq<CampaignState>, k: nat)
    requires IsPlan(stages) && At(state, steps, stages, k)
    ensures Remaining(stages, steps) == stages[k..]
  {
    RemainingAfterPrefix(stages, steps, k);
  }

  lemma StandingIsActive(state: CampaignState, stages: seq<CampaignState>, k: nat)
    requires IsPlan(stages) && k <= |stages| && Stands(state, stages, k)
    ensures !IsTerminal(state)
  {}

  lemma EnteringStays(state: CampaignState, steps: seq<CampaignState>, stages: seq<CampaignState>, k: nat)
    requires IsPlan(stages) && At(state, steps, stages, k) && k < |stages|
    ensures At(stages[k], steps, stages, k) && !IsTerminal(stages[k])
  {
    StandingIsActive(stages[k], stages, k);
  }

  lemma FinishingAdvances(steps: seq<CampaignState>, stages: seq<CampaignState>, k: nat)
    requires IsPlan(stages) && k < |stages| && At(stages[k], steps, stages, k)
    ensures At(stages[k], Mark(steps, stages[k]), stages, k + 1)
  {}

  // Up to BROAD_RETRIEVAL all plans agree, so candidates may come and go.
  lemma EarlyPlansAgree(state: CampaignState, steps: seq<CampaignState>, a: seq<CampaignState>, b: seq<CampaignState>,
                        k: nat)
    requires IsPlan(a) && IsPlan(b) && k < 6 && At(state, steps, a, k)
    ensures At(state, steps, b, k)
  {
    forall i | 0 <= i < |b| ensures b[i] in steps <==> i < k {
      if i < 6 {
        assert a[i] == b[i];
      } else if j :| 0 <= j < k && a[j] == b[i] {
        assert false;
      }
    }
    forall s | s in steps && s in STAGES ensures s in b {
      var j :| 0 <= j < |a| && a[j] == s;
      assert b[j] == a[j];
    }
    if k > 0 {
      assert a[k - 1] == b[k - 1];
    }
  }

  // From every standing the next stage is a legal edge away, and entering it is not yet finishing it.
  lemma NextEdge(state: CampaignState, steps: seq<CampaignState>, has: bool, k: nat)
    requires At(state, steps, Sequence(has), k) && k < |Sequence(has)|
    ensures state == Sequence(has)[k] || Sequence(has)[k] in Forward(state)
    ensures At(Sequence(has)[k], steps, Sequence(has), k) && !IsTerminal(state) && !IsTerminal(Sequence(has)[k])
  {
    SequenceIsPlan(has);
    StandingIsActive(state, Sequence(has), k);
    EnteringStays(state, steps, Sequence(has), k);
    SequenceIsLegal(state, has, k);
  }

  // Whatever the handler found or lost, the stage it handled is still the k-th, and finishing it leaves k + 1.
  lemma HandlingAdvances(stage: CampaignState, steps: seq<CampaignState>, had: bool, has: bool, k: nat)
    requires k < |Sequence(had)| && stage == Sequence(had)[k] && At(stage, steps, Sequence(had), k)
    requires IsEarly(stage) || had == has
    ensures At(stage, steps, Sequence(has), k) && At(stage, Mark(steps, stage), Sequence(has), k + 1)
  {
    SequenceIsPlan(had);
    SequenceIsPlan(has);
    if had != has {
      EarlyPlansAgree(stage, steps, Sequence(had), Sequence(has), k);
      assert Sequence(has)[k] == EARLY[k] == Sequence(had)[k];
    }
    FinishingAdvances(steps, Sequence(has), k);
  }

  // The stages handled by one pass: the plan from stage k on, without a gap or a repeat.
  predicate Walked(handled: seq<CampaignState>, stages: seq<CampaignState>, k: nat) {
    k + |handled| <= |stages| && forall i :: 0 <= i < |handled| ==> handled[i] == stages[k + i]
  }

  lemma RemainingAreStages(has: bool, steps: seq<CampaignState>)
    ensures forall s :: s in Remaining(Sequence(has), steps) ==> s in STAGES && !IsTerminal(s)
  {
    SequenceIsPlan(has);
    forall s | s in STAGES ensures !IsTerminal(s) {}
  }

  lemma PlanningSourcesFirst(has: bool, steps: seq<CampaignState>)
    requires PlanningSources !in steps
    ensures Remaining(Sequence(has), steps) != [] && Remaining(Sequence(has), steps)[0] == PlanningSources
  {
    SequenceIsPlan(has);
    assert Sequence(has)[0] == EARLY[0];
  }

  // ---------------------------------------------------------------- the reference wave

  // A campaign inside the wave stands in one of its states, no stage of the walk is done, and the
  // wave counts as done only in its last state.
  ghost predicate InWave(state: CampaignState, steps: seq<CampaignState>, i: nat) {
    && i <= 6 && state == SPINE[i]
    && (forall s :: s in steps ==> s !in STAGES)
    && (PlanningQueries in steps ==> i == 6)
  }

  lemma WaveEdges(i: nat)
    requires i < 6
    ensures SPINE[i + 1] !in STAGES && !IsTerminal(SPINE[i + 1]) && SPINE[i + 1] in Forward(SPINE[i])
  {}

  lemma OffTheWave(state: CampaignState)
    ensures ValidatingInput in Forward(state) <==> state == Created
  {}

  lemma WaveStepDone(i: nat, steps: seq<CampaignState>)
    requires 1 <= i <= 6 && InWave(SPINE[i], steps, i)
    ensures InWave(SPINE[i], Mark(steps, SPINE[i]), i)
  {}

  // A finished wave is a pass with nothing behind it.
  lemma WaveDone(state: CampaignState, steps: seq<CampaignState>, stages: seq<CampaignState>, i: nat)
    requires IsPlan(stages) && InWave(state, steps, i)
    ensures PlanningQueries in steps ==> At(state, steps, stages, 0)
  {}

  predicate BeforeTheWalk(s: CampaignState) {
    s in {Created, ValidatingInput, IngestingReferences, CalibratingReferences, DecomposingReferences,
          FormingHypotheses, PlanningQueries}
  }

  lemma WaveIsBeforeTheWalk(state: CampaignState, steps: seq<CampaignState>, i: nat)
    requires InWave(state, steps, i)
    ensures BeforeTheWalk(state) && !IsTerminal(state) && (i <= 1 <==> state == Created || state == ValidatingInput)
  {}

  lemma ReferenceIsDone(state: CampaignState, steps: seq<CampaignState>, stages: seq<CampaignState>, k: nat)
    requires At(state, steps, stages, k)
    ensures PlanningQueries in steps
  {}

  // ---------------------------------------------------------------- replanning and stopping

  // A finished pass may be replanned, and the cleared campaign is a pass with nothing behind it.
  lemma FinishedPassMayReplan(state: CampaignState, steps: seq<CampaignState>, has: bool)
    requires At(state, steps, Sequence(has), |Sequence(has)|)
    ensures !IsTerminal(state) && PlanningQueries in steps
    ensures state == Replanning || Replanning in Forward(state)
    ensures At(Replanning, steps, Sequence(has), |Sequence(has)|)
  {
    SequenceIsPlan(has);
    StandingIsActive(state, Sequence(has), |Sequence(has)|);
  }

  lemma ReplanningCheck(state: CampaignState, cancelRequested: bool, ctx: TransitionContext)
    ensures Replanning in Forward(state) && !IsTerminal(state) ==>
              TransitionCheck(state, cancelRequested, Replanning, ctx)
                == if cancelRequested then Fail(CampaignCancelled) else Pass
  {}

  lemma ClearedIsUnwalked(steps: seq<CampaignState>, stages: seq<CampaignState>)
    requires IsPlan(stages) && PlanningQueries in steps
    requires forall s :: s in steps ==> s == PlanningQueries || s == Replanning
    ensures At(Replanning, steps, stages, 0)
  {
    forall s | s in steps ensures s !in STAGES {}
  }

  // The receipts a verdict is stored with have an id; which one does not matter here.
  const RECEIPT_ID := "receipt"

  // The fixed reason of _fail, in pieces short enough for the solver and cut before its only m.
  const INTERNAL_ERROR_HEAD :=
    "The search failed because" + " of an internal error." + " This is not a no-results" + " outco"
  const INTERNAL_ERROR := INTERNAL_ERROR_HEAD + "me."

  function VerdictContext(row: Row, disk: Disk, choice: T.Choice, ofTheLane: string): (ctx: TransitionContext) {
    ContextFromDisk(row, disk).(
      exhaustionReceipt := Some(RECEIPT_ID),
      saturationReceipt := if choice.saturation then Some(RECEIPT_ID) else disk.saturationReceipt,
      reason := T.Sentence(choice.reason, ofTheLane))
  }

  // Whether a verdict can be recorded depends on the state alone, and on nobody having cancelled.
  lemma VerdictCheck(state: CampaignState, cancelRequested: bool, choice: T.Choice, row: Row, disk: Disk,
                     reason: string)
    requires choice.target in {Complete, Partial, Blocked}
    ensures TransitionCheck(state, cancelRequested, choice.target, VerdictContext(row, disk, choice, reason))
            == if cancelRequested then Fail(CampaignCancelled)
               else if !IsTerminal(state) && choice.target in Forward(state) then Pass
               else Fail(Error.Refused(IllegalTransition(state, choice.target)))
  {}

  // Every verdict can be recorded once a pass is finished.
  lemma FinishedPassMayStop(state: CampaignState, steps: seq<CampaignState>, has: bool)
    requires At(state, steps, Sequence(has), |Sequence(has)|)
    ensures !IsTerminal(state) && {Complete, Partial, Blocked} <= Forward(state)
  {
    SequenceIsPlan(has);
  }

  lemma VerdictTargets(facts: T.Facts, forced: Option<CampaignState>)
    requires forced in {None, Some(Partial)}
    ensures T.TerminalFor(facts, forced).target in {Complete, Partial, Blocked}
  {
    T.CompleteIffEarned(facts);
  }

  lemma ForcedVerdict(facts: T.Facts, state: CampaignState)
    ensures T.TerminalFor(facts, Some(Partial)).target == Partial
    ensures Partial !in Forward(state) && !IsTerminal(state) ==> !AfterDiscovery(state)
  {}

  lemma DiscoveryReopens(cancelRequested: bool, row: Row, disk: Disk)
    ensures row.state == Replanning && disk.queries != [] ==>
              TransitionCheck(row.state, cancelRequested, Discovering, ContextFromDisk(row, disk))
              == if cancelRequested then Fail(CampaignCancelled) else Pass
  {}

  function FailContext(row: Row, disk: Disk): (ctx: TransitionContext) {
    ContextFromDisk(row, disk).(errorClass := Some(InternalInvariant), reason := INTERNAL_ERROR)
  }

  lemma {:induction false} LowerAt(s: string, j: nat)
    requires j < |s| && Lower(s)[j] == 'm'
    ensures s[j] == 'm' || s[j] == 'M'
  {
    if j > 0 {
      LowerAt(s[1..], j - 1);
    }
  }

  // Any m of a contained text has at least as many characters after it as in that text.
  lemma {:induction false} ContainedChar(s: string, part: string, d: nat) returns (j: nat)
    requires Contains(s, part) && d < |part|
    ensures j + |part| <= |s| + d && s[j] == part[d]
  {
    if part <= s {
      return d;
    }
    j := ContainedChar(s[1..], part, d);
    j := j + 1;
  }

  lemma NoEarlyM()
    ensures 'm' !in INTERNAL_ERROR_HEAD && 'M' !in INTERNAL_ERROR_HEAD
  {
    assert forall c :: c in "The search failed because" ==> c != 'm' && c != 'M';
    assert forall c :: c in " of an internal error." ==> c != 'm' && c != 'M';
    assert forall c :: c in " This is not a no-results" ==> c != 'm' && c != 'M';
    assert forall c :: c in " outco" ==> c != 'm' && c != 'M';
  }

  // The sentence _fail records never trips the guard against blaming missing matches.
  lemma InternalErrorBlamesNoMatches()
    ensures !BlamesZeroMatches(INTERNAL_ERROR)
  {
    var s := INTERNAL_ERROR;
    NoEarlyM();
    if BlamesZeroMatches(s) {
      var j: nat;
      if Contains(Lower(s), "no match") {
        j := ContainedChar(Lower(s), "no match", 3);
      } else {
        j := ContainedChar(Lower(s), "zero match", 5);
      }
      LowerAt(s, j);
      assert false;
    }
  }

  lemma FailureCheck(state: CampaignState, cancelRequested: bool, row: Row, disk: Disk)
    requires !IsTerminal(state)
    ensures TransitionCheck(state, cancelRequested, Failed, FailContext(row, disk))
            == if cancelRequested then Fail(CampaignCancelled) else Pass
  {
    InternalErrorBlamesNoMatches();
  }
}
