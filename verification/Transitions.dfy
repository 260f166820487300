/** The campaign states, the table of legal edges and the guards of src/searcher/campaigns/states.py
    and transitions.py, with what every legal run owes to them. */
module Transitions {
  import opened Wrappers

  datatype CampaignState =
    | Created | ValidatingInput | IngestingReferences | CalibratingReferences | DecomposingReferences
    | FormingHypotheses | PlanningQueries | PlanningSources | Discovering | Acquiring | Normalizing
    | Deduplicating | BroadRetrieval | FineMatching | AuthenticityReview | LiveChecking | Ranking
    | Publishing | GapAnalysis | Replanning
    | Complete | Partial | Blocked | Failed | Cancelled

  predicate IsTerminal(s: CampaignState) {
    s in {Complete, Partial, Blocked, Failed, Cancelled}
  }

  // terminal_verdict_for: the five terminal states are their own verdicts.
  function TerminalVerdictFor(s: CampaignState): (verdict: Option<CampaignState>) {
    if IsTerminal(s) then Some(s) else None
  }

  function Forward(s: CampaignState): (targets: set<CampaignState>) {
    match s
    case Created => {ValidatingInput, Cancelled, Failed}
    case ValidatingInput => {IngestingReferences, Blocked, Cancelled, Failed}
    case IngestingReferences => {CalibratingReferences, Blocked, Cancelled, Failed}
    case CalibratingReferences => {DecomposingReferences, Blocked, Cancelled, Failed}
    case DecomposingReferences => {FormingHypotheses, Blocked, Cancelled, Failed}
    case FormingHypotheses => {PlanningQueries, Blocked, Cancelled, Failed}
    case PlanningQueries => {PlanningSources, Blocked, Cancelled, Failed}
    case PlanningSources => {Discovering, Blocked, Cancelled, Failed}
    case Discovering => {Acquiring, Replanning, Blocked, Cancelled, Failed, Partial}
    case Acquiring => {Normalizing, Discovering, Blocked, Cancelled, Failed, Partial}
    case Normalizing => {Deduplicating, Blocked, Cancelled, Failed, Partial}
    case Deduplicating => {BroadRetrieval, Blocked, Cancelled, Failed, Partial}
    case BroadRetrieval => {FineMatching, GapAnalysis, Blocked, Cancelled, Failed, Partial}
    case FineMatching => {AuthenticityReview, GapAnalysis, Blocked, Cancelled, Failed, Partial}
    case AuthenticityReview => {LiveChecking, Blocked, Cancelled, Failed, Partial}
    case LiveChecking => {Ranking, Blocked, Cancelled, Failed, Partial}
    case Ranking => {Publishing, Blocked, Cancelled, Failed, Partial}
    case Publishing => {GapAnalysis, Complete, Partial, Blocked, Cancelled, Failed}
    case GapAnalysis => {Replanning, Complete, Partial, Blocked, Cancelled, Failed}
    case Replanning => {PlanningQueries, PlanningSources, Discovering, Complete, Partial, Blocked, Cancelled, Failed}
    case Complete | Partial | Blocked | Failed | Cancelled => {}
  }

  datatype ErrorClass =
    | Input | Policy | Network | RateLimit | AccessBlock | AuthRequired | Parse | MalformedContent
    | Model | Browser | Storage | Database | Timeout | BudgetClass | CancelledClass | InternalInvariant

  const INTERNAL_FAILURES: set<ErrorClass> := {InternalInvariant, Database, Storage, Model, Browser}

  datatype TransitionContext = TransitionContext(
    hasQuery: bool,
    hasVisualRepresentation: bool,
    normalizedCandidateCount: nat,
    hasVisualOrNormalizedEvidence: bool,
    sellerTextOnly: bool,
    exhaustionReceipt: Option<string>,
    saturationReceipt: Option<string>,
    errorClass: Option<ErrorClass>,
    reason: string)

  datatype Refusal =
    | IllegalTransition(source: CampaignState, target: CampaignState)
    | InvariantViolation(entering: CampaignState)

  // Python truth of an optional string.
  predicate Given(s: Option<string>) {
    s.Some? && s.value != ""
  }

  function Lower(s: string): (lower: string)
    ensures |lower| == |s|
  {
    if s == "" then "" else [if 'A' <= s[0] <= 'Z' then s[0] - 'A' + 'a' else s[0]] + Lower(s[1..])
  }

  predicate Contains(s: string, part: string) {
    part <= s || (s != "" && Contains(s[1..], part))
  }

  predicate BlamesZeroMatches(reason: string) {
    Contains(Lower(reason), "no match") || Contains(Lower(reason), "zero match")
  }

  function AssertLegal(source: CampaignState, target: CampaignState): (r: Outcome<Refusal>) {
    if IsTerminal(source) || target !in Forward(source) then Fail(IllegalTransition(source, target)) else Pass
  }

  predicate GuardHolds(target: CampaignState, ctx: TransitionContext) {
    && (target == Discovering ==> ctx.hasQuery || ctx.hasVisualRepresentation)
    && (target == FineMatching ==> ctx.normalizedCandidateCount >= 1)
    && (target == AuthenticityReview ==> !ctx.sellerTextOnly && ctx.hasVisualOrNormalizedEvidence)
    && (target == Complete ==> Given(ctx.exhaustionReceipt) || Given(ctx.saturationReceipt))
    && (target == Failed ==>
          ctx.errorClass.Some? && ctx.errorClass.value in INTERNAL_FAILURES && !BlamesZeroMatches(ctx.reason))
  }

  function AssertInvariants(target: CampaignState, ctx: TransitionContext): (r: Outcome<Refusal>) {
    if GuardHolds(target, ctx) then Pass else Fail(InvariantViolation(target))
  }

  predicate Admits(source: CampaignState, target: CampaignState, ctx: TransitionContext) {
    AssertLegal(source, target).Pass? && AssertInvariants(target, ctx).Pass?
  }

  // ---------------------------------------------------------------- legal runs

  // One committed entry of a campaign: the state entered and the facts its guard saw.
  datatype Entry = Entry(state: CampaignState, ctx: TransitionContext)

  ghost predicate LegalRun(run: seq<Entry>) {
    && |run| > 0 && run[0].state == Created
    && forall i :: 0 < i < |run| ==> Edge(run, i)
  }

  ghost predicate Edge(run: seq<Entry>, i: nat)
    requires 0 < i < |run|
  {
    Admits(run[i - 1].state, run[i].state, run[i].ctx)
  }

  const SPINE: seq<CampaignState> :=
    [Created, ValidatingInput, IngestingReferences, CalibratingReferences, DecomposingReferences,
     FormingHypotheses, PlanningQueries, PlanningSources, Discovering]

  // Until discovery a run can only follow the spine or stop.
  lemma {:induction false} RunFollowsSpine(run: seq<Entry>, k: nat)
    requires LegalRun(run) && k < |run| && k < |SPINE|
    ensures run[k].state == SPINE[k] || IsTerminal(run[k].state)
    ensures !IsTerminal(run[k].state) ==> forall i :: 0 <= i <= k ==> run[i].state == SPINE[i]
  {
    if k > 0 {
      RunFollowsSpine(run, k - 1);
      assert Edge(run, k);
    }
  }

  // The states that cannot be reached without discovery.
  predicate AfterDiscovery(s: CampaignState) {
    s in {Discovering, Acquiring, Normalizing, Deduplicating, BroadRetrieval, FineMatching, AuthenticityReview,
          LiveChecking, Ranking, Publishing, GapAnalysis, Replanning, Complete, Partial}
  }

  lemma LateStatesComeFromLateStates(source: CampaignState, target: CampaignState)
    requires target in Forward(source) && AfterDiscovery(target)
    ensures target == Discovering || AfterDiscovery(source)
  {}

  lemma {:induction false} DiscoveryComesFirst(run: seq<Entry>, k: nat)
    requires LegalRun(run) && k < |run| && AfterDiscovery(run[k].state)
    ensures exists d :: 8 <= d <= k && run[d].state == Discovering && GuardHolds(Discovering, run[d].ctx)
  {
    if k > 0 {
      assert Edge(run, k);
      LateStatesComeFromLateStates(run[k - 1].state, run[k].state);
      if run[k].state != Discovering {
        DiscoveryComesFirst(run, k - 1);
      } else if k < 8 {
        RunFollowsSpine(run, k);
      }
    }
  }

  // Only the last entry of a legal run can be terminal.
  lemma NonTerminalBefore(run: seq<Entry>, i: nat, k: nat)
    requires LegalRun(run) && i < k < |run|
    ensures !IsTerminal(run[i].state)
  {
    assert Edge(run, i + 1);
  }

  /** COMPLETE and PARTIAL are never reached without the whole reference spine and a guarded entry
      into DISCOVERING, COMPLETE holds a receipt at its own commit, and nothing follows either. */
  lemma {:induction false} CompleteIsEarned(run: seq<Entry>, k: nat)
    requires LegalRun(run) && k < |run| && run[k].state in {Complete, Partial}
    ensures k >= |SPINE| && forall i :: 0 <= i < |SPINE| ==> run[i].state == SPINE[i]
    ensures exists d :: 8 <= d < k && run[d].state == Discovering
                        && (run[d].ctx.hasQuery || run[d].ctx.hasVisualRepresentation)
    ensures run[k].state == Complete ==> Given(run[k].ctx.exhaustionReceipt) || Given(run[k].ctx.saturationReceipt)
    ensures k == |run| - 1
  {
    DiscoveryComesFirst(run, k);
    var d :| 8 <= d <= k && run[d].state == Discovering && GuardHolds(Discovering, run[d].ctx);
    assert Edge(run, k);
    NonTerminalBefore(run, 8, k);
    RunFollowsSpine(run, 8);
    if k + 1 < |run| {
      NonTerminalBefore(run, k, k + 1);
    }
  }

  // Each stage after discovery, up to publication, has one way in.
  function Before(s: CampaignState): CampaignState {
    match s
    case Acquiring => Discovering
    case Normalizing => Acquiring
    case Deduplicating => Normalizing
    case BroadRetrieval => Deduplicating
    case FineMatching => BroadRetrieval
    case AuthenticityReview => FineMatching
    case LiveChecking => AuthenticityReview
    case Ranking => LiveChecking
    case Publishing => Ranking
    case _ => s
  }

  lemma EnteredFromBefore(run: seq<Entry>, k: nat)
    requires LegalRun(run) && k < |run| && Before(run[k].state) != run[k].state
    ensures k > 0 && run[k - 1].state == Before(run[k].state)
  {
    if k > 0 {
      assert Edge(run, k);
    }
  }

  lemma GuardHeldOnEntry(run: seq<Entry>, i: nat)
    requires LegalRun(run) && 0 < i < |run|
    ensures GuardHolds(run[i].state, run[i].ctx)
  {
    assert Edge(run, i);
  }

  lemma FineMatchingFollowsDiscovery(run: seq<Entry>, k: nat)
    requires LegalRun(run) && k < |run| && run[k].state == FineMatching
    ensures k >= 5 && run[k - 5].state == Discovering && run[k - 4].state == Acquiring
            && run[k - 3].state == Normalizing
    ensures run[k - 2].state == Deduplicating && run[k - 1].state == BroadRetrieval
  {
    hide LegalRun, Forward;
    EnteredFromBefore(run, k);
    EnteredFromBefore(run, k - 1);
    EnteredFromBefore(run, k - 2);
    EnteredFromBefore(run, k - 3);
    EnteredFromBefore(run, k - 4);
  }

  lemma PublishingFollowsFineMatching(run: seq<Entry>, k: nat)
    requires LegalRun(run) && k < |run| && run[k].state == Publishing
    ensures k >= 4 && run[k - 4].state == FineMatching && run[k - 3].state == AuthenticityReview
    ensures run[k - 2].state == LiveChecking && run[k - 1].state == Ranking
  {
    hide LegalRun, Forward;
    EnteredFromBefore(run, k);
    EnteredFromBefore(run, k - 1);
    EnteredFromBefore(run, k - 2);
    EnteredFromBefore(run, k - 3);
  }

  lemma DiscoveringIsNinth(run: seq<Entry>, k: nat)
    requires LegalRun(run) && k < |run| && run[k].state == Discovering
    ensures k >= 8
  {
    if k < 8 {
      RunFollowsSpine(run, k);
    }
  }

  /** Every PUBLISHING entry is immediately preceded by DISCOVERING through RANKING, one after the
      other, with the DISCOVERING, FINE_MATCHING and AUTHENTICITY_REVIEW guards true where those
      were entered. */
  lemma {:induction false} PublishingIsEarned(run: seq<Entry>, k: nat)
    requires LegalRun(run) && k < |run| && run[k].state == Publishing
    ensures k >= 17 && run[k - 9].state == Discovering && run[k - 8].state == Acquiring
            && run[k - 7].state == Normalizing
    ensures run[k - 6].state == Deduplicating && run[k - 5].state == BroadRetrieval && run[k - 4].state == FineMatching
    ensures run[k - 3].state == AuthenticityReview && run[k - 2].state == LiveChecking && run[k - 1].state == Ranking
    ensures run[k - 9].ctx.hasQuery || run[k - 9].ctx.hasVisualRepresentation
    ensures run[k - 4].ctx.normalizedCandidateCount >= 1
    ensures !run[k - 3].ctx.sellerTextOnly && run[k - 3].ctx.hasVisualOrNormalizedEvidence
  {
    hide LegalRun, Forward, Before;
    PublishingFollowsFineMatching(run, k);
    FineMatchingFollowsDiscovery(run, k - 4);
    DiscoveringIsNinth(run, k - 9);
    GuardHeldOnEntry(run, k - 9);
    GuardHeldOnEntry(run, k - 4);
    GuardHeldOnEntry(run, k - 3);
  }

  // ---------------------------------------------------------------- which exits are open

  /** Cancellation is open from exactly the states that are not terminal, whatever the facts. */
  lemma CancelOpenIffActive(s: CampaignState, ctx: TransitionContext)
    ensures Admits(s, Cancelled, ctx) <==> !IsTerminal(s)
  {
    assert Forward(s) == {} || Cancelled in Forward(s);
  }

  lemma PartialListedIffDiscovered(s: CampaignState)
    ensures Partial in Forward(s) <==> AfterDiscovery(s) && !IsTerminal(s)
  {}

  /** A budget stop can be recorded as PARTIAL from exactly the active states at or after discovery. */
  lemma PartialOpenIffDiscovered(s: CampaignState, ctx: TransitionContext)
    ensures Admits(s, Partial, ctx) <==> AfterDiscovery(s) && !IsTerminal(s)
  {
    PartialListedIffDiscovered(s);
  }

  /** The first edge of the second round, wanted after a replan, exists only from PLANNING_QUERIES and REPLANNING. */
  lemma PlanningSourcesOpenFrom(s: CampaignState, ctx: TransitionContext)
    ensures Admits(s, PlanningSources, ctx) <==> s in {PlanningQueries, Replanning}
  {
    assert PlanningSources in Forward(s) <==> s in {PlanningQueries, Replanning};
  }

  // ---------------------------------------------------------------- the table from its other end

  /** Where every state can be entered from, the table read from its other end: the references, one after the other; */
  lemma WaysIntoTheReferences(s: CampaignState)
    ensures Created !in Forward(s)
    ensures ValidatingInput in Forward(s) <==> s == Created
    ensures IngestingReferences in Forward(s) <==> s == ValidatingInput
    ensures CalibratingReferences in Forward(s) <==> s == IngestingReferences
    ensures DecomposingReferences in Forward(s) <==> s == CalibratingReferences
  {}

  /** the search, planned anew from REPLANNING only; */
  lemma WaysIntoTheSearch(s: CampaignState)
    ensures FormingHypotheses in Forward(s) <==> s == DecomposingReferences
    ensures PlanningQueries in Forward(s) <==> s == FormingHypotheses || s == Replanning
    ensures PlanningSources in Forward(s) <==> s == PlanningQueries || s == Replanning
    ensures Discovering in Forward(s) <==> s == PlanningSources || s == Acquiring || s == Replanning
  {}

  /** the pass, one stage after the other, or past the matching to the gap analysis; */
  lemma WaysIntoThePass(s: CampaignState)
    ensures Acquiring in Forward(s) <==> s == Discovering
    ensures Normalizing in Forward(s) <==> s == Acquiring
    ensures Deduplicating in Forward(s) <==> s == Normalizing
    ensures BroadRetrieval in Forward(s) <==> s == Deduplicating
    ensures FineMatching in Forward(s) <==> s == BroadRetrieval
  {}

  lemma WaysOutOfThePass(s: CampaignState)
    ensures AuthenticityReview in Forward(s) <==> s == FineMatching
    ensures LiveChecking in Forward(s) <==> s == AuthenticityReview
    ensures Ranking in Forward(s) <==> s == LiveChecking
    ensures Publishing in Forward(s) <==> s == Ranking
    ensures GapAnalysis in Forward(s) <==> s == BroadRetrieval || s == FineMatching || s == Publishing
    ensures Replanning in Forward(s) <==> s == Discovering || s == GapAnalysis
  {}

  /** and the ends: every active state can fail and be cancelled, and all but the first be blocked; COMPLETE is open
      from the last three, PARTIAL from discovery on. */
  lemma WaysToTheEnds(s: CampaignState)
    ensures Complete in Forward(s) <==> s == Publishing || s == GapAnalysis || s == Replanning
    ensures Partial in Forward(s) <==> AfterDiscovery(s) && !IsTerminal(s)
    ensures Blocked in Forward(s) <==> s != Created && !IsTerminal(s)
    ensures Failed in Forward(s) <==> !IsTerminal(s)
    ensures Cancelled in Forward(s) <==> !IsTerminal(s)
  {}

  // ---------------------------------------------------------------- what FAILED may say

  // The part stands in the text at this place, upper or lower case.
  ghost predicate StandsAt(s: string, part: string, at: nat) {
    at + |part| <= |s|
    && forall k :: 0 <= k < |part| ==>
         s[at + k] == part[k] || ('A' <= s[at + k] <= 'Z' && s[at + k] - 'A' + 'a' == part[k])
  }

  lemma {:induction false} LowerEach(s: string, k: nat)
    requires k < |s|
    ensures Lower(s)[k] == if 'A' <= s[k] <= 'Z' then s[k] - 'A' + 'a' else s[k]
  {
    if k > 0 {
      LowerEach(s[1..], k - 1);
    }
  }

  lemma LowerFront(s: string, part: string)
    requires forall k :: 0 <= k < |part| ==> !('A' <= part[k] <= 'Z')
    ensures part <= Lower(s) <==> StandsAt(s, part, 0)
  {
    forall k | 0 <= k < |s| ensures Lower(s)[k] == if 'A' <= s[k] <= 'Z' then s[k] - 'A' + 'a' else s[k] {
      LowerEach(s, k);
    }
  }

  // A lower-case text is found in any case.
  lemma {:induction false} FoundInAnyCase(s: string, part: string)
    requires forall k :: 0 <= k < |part| ==> !('A' <= part[k] <= 'Z')
    ensures Contains(Lower(s), part) <==> exists at :: StandsAt(s, part, at)
  {
    hide StandsAt;
    LowerFront(s, part);
    if s == "" {
      NothingStandsLater(s, part);
    } else {
      assert Lower(s)[1..] == Lower(s[1..]);
      FoundInAnyCase(s[1..], part);
      if at :| StandsAt(s[1..], part, at) {
        OneFurther(s, part, at);
      }
      if at: nat :| StandsAt(s, part, at) && at > 0 {
        OneFurther(s, part, at - 1);
      }
    }
  }

  lemma NothingStandsLater(s: string, part: string)
    requires s == ""
    ensures forall at :: StandsAt(s, part, at) ==> at == 0
  {}

  lemma OneFurther(s: string, part: string, at: nat)
    requires s != ""
    ensures StandsAt(s, part, at + 1) <==> StandsAt(s[1..], part, at)
  {
    var rest := s[1..];
    forall k | 0 <= k < |rest| ensures rest[k] == s[1 + k] {}
  }

  /** FAILED is for the inside only: an active campaign may enter it exactly with an internal error class and a
      reason that speaks of no match and of zero matches nowhere, in upper or lower case. */
  lemma FailedIsInternal(s: CampaignState, ctx: TransitionContext)
    ensures Admits(s, Failed, ctx)
            <==> && !IsTerminal(s)
                 && (|| ctx.errorClass == Some(InternalInvariant) || ctx.errorClass == Some(Database)
                     || ctx.errorClass == Some(Storage) || ctx.errorClass == Some(Model)
                     || ctx.errorClass == Some(Browser))
                 && (forall at :: !StandsAt(ctx.reason, "no match", at) && !StandsAt(ctx.reason, "zero match", at))
  {
    FoundInAnyCase(ctx.reason, "no match");
    FoundInAnyCase(ctx.reason, "zero match");
    assert !IsTerminal(s) ==> Failed in Forward(s);
  }

  /** What every other state asks for when it is entered. */
  lemma GuardsAsk(t: CampaignState, ctx: TransitionContext)
    requires t != Failed
    ensures GuardHolds(t, ctx)
            <==> match t
                 case Discovering => ctx.hasQuery || ctx.hasVisualRepresentation
                 case FineMatching => ctx.normalizedCandidateCount > 0
                 case AuthenticityReview => ctx.hasVisualOrNormalizedEvidence && !ctx.sellerTextOnly
                 case Complete => (ctx.exhaustionReceipt != None && ctx.exhaustionReceipt != Some(""))
                                  || (ctx.saturationReceipt != None && ctx.saturationReceipt != Some(""))
                 case _ => true
  {}
}
