/** How a campaign decides what to call itself when it stops: the coverage rows of _ui_coverage, the
    verdict of _choose_terminal and published_terminal_status. COMPLETE is a coverage claim. */
module Terminal {
  import opened Wrappers
  import opened Transitions
  import opened Text

  // A source's recorded outcome; Unlisted is any text outside the enumeration, the empty one included.
  datatype Status =
    | SearchedNoMatch | SearchedMatchesFound | BlockedByAccess | BlockedByPolicy | AuthRequiredOutcome | RateLimited
    | ParserFailed | NetworkFailed | SourceUnavailable | Unmeasurable | NotAttempted | Unlisted

  const COVERAGE_UNRESOLVED: set<Status> :=
    {NetworkFailed, ParserFailed, RateLimited, SourceUnavailable, Unmeasurable, NotAttempted}

  // is_block, and the further outcomes _ui_coverage files under blocked.
  const FILED_AS_BLOCKED: set<Status> :=
    {BlockedByAccess, BlockedByPolicy, AuthRequiredOutcome, RateLimited, SourceUnavailable, Unmeasurable}

  // Coverage rows are records on the live path and bare names on others.
  datatype CoverageRow = Record(id: string, status: Status) | BareName(name: string) | Unreadable

  datatype Coverage = Coverage(completed: seq<CoverageRow>, blocked: seq<CoverageRow>, pagesFetched: int, hidden: nat)

  datatype Lane = Discovery | Routing | Retrieval | Matching | Authenticity | LiveCheck | Verification | RankingLane

  datatype Facts = Facts(
    realCount: nat, possiblyRealCount: nat, saturationReal: int,
    coverage: Coverage,
    candidates: nat,
    blockedLanes: set<Lane>,
    queries: seq<string>)

  datatype Reason =
    | BudgetExhausted | ForcedName | DiscoveryBlocked | SuccessSaturation | SourcesBlocked | SomeSourcesBlocked
    | LanesDegraded | LaneBlocked | NoUsableQuery | NoSourceWork | SourceUnanswered | NothingFetched | CoverageExhausted

  datatype Choice = Choice(target: CampaignState, reason: Reason, saturation: bool)

  // ---------------------------------------------------------------- the coverage of a discovery run

  function RowsFiled(perSource: seq<(string, Status)>, asBlocked: bool): (rows: seq<CoverageRow>) {
    if perSource == [] then []
    else
      var (id, status) := perSource[|perSource| - 1];
      RowsFiled(perSource[..|perSource| - 1], asBlocked)
        + (if (status in FILED_AS_BLOCKED) == asBlocked then [Record(id, status)] else [])
  }

  // _ui_coverage: each source becomes one row, filed by its outcome; hidden results are counted.
  method UiCoverage(perSource: seq<(string, Status)>, pages: nat, hiddenRows: seq<bool>) returns (coverage: Coverage)
    ensures coverage.completed == RowsFiled(perSource, false) && coverage.blocked == RowsFiled(perSource, true)
    ensures coverage.pagesFetched == pages && coverage.hidden == multiset(hiddenRows)[true]
  {
    var completed: seq<CoverageRow>, blocked: seq<CoverageRow> := [], [];
    for i := 0 to |perSource|
      invariant completed == RowsFiled(perSource[..i], false) && blocked == RowsFiled(perSource[..i], true)
    {
      var (id, status) := perSource[i];
      assert perSource[..i + 1][..i] == perSource[..i];
      if status in FILED_AS_BLOCKED {
        blocked := blocked + [Record(id, status)];
      } else {
        completed := completed + [Record(id, status)];
      }
    }
    assert perSource[..|perSource|] == perSource;
    var hidden := 0;
    for i := 0 to |hiddenRows|
      invariant hidden == multiset(hiddenRows[..i])[true]
    {
      assert hiddenRows[..i + 1] == hiddenRows[..i] + [hiddenRows[i]];
      if hiddenRows[i] {
        hidden := hidden + 1;
      }
    }
    assert hiddenRows[..|hiddenRows|] == hiddenRows;
    coverage := Coverage(completed, blocked, pages, hidden);
  }

  // ---------------------------------------------------------------- the verdict

  // The outcome each named source ends up with: a record overwrites, a bare name only fills a gap.
  function Outcomes(rows: seq<CoverageRow>): (outcomes: map<string, Status>) {
    if rows == [] then map[]
    else
      var earlier := Outcomes(rows[..|rows| - 1]);
      match rows[|rows| - 1]
      case Record(id, status) => if id == "" then earlier else earlier[id := status]
      case BareName(name) => if name == "" || name in earlier then earlier else earlier[name := Unlisted]
      case Unreadable => earlier
  }

  predicate AnyUnresolved(outcomes: map<string, Status>) {
    exists id :: id in outcomes && outcomes[id] in COVERAGE_UNRESOLVED
  }

  function PublishedTerminalStatus(proposed: CampaignState, pagesFetched: int, candidates: int,
                                   queriesCompiled: Option<int>, saturation: bool,
                                   outcomes: Option<map<string, Status>>): (status: CampaignState)
  {
    if proposed != Complete || saturation then proposed
    else if queriesCompiled.Some? && queriesCompiled.value <= 0 then Blocked
    else if pagesFetched <= 0 && candidates <= 0 then Blocked
    else if outcomes.Some? && AnyUnresolved(outcomes.value) then Partial
    else proposed
  }

  predicate IsBlank(text: string) {
    forall i :: 0 <= i < |text| ==> IsSpace(text[i])
  }

  predicate AnyUsable(queries: seq<string>) {
    exists i :: 0 <= i < |queries| && !IsBlank(queries[i])
  }

  // The verdict of _choose_terminal, in the order its branches are tried.
  function TerminalFor(f: Facts, forced: Option<CampaignState>): (choice: Choice) {
    if forced.Some? then Choice(forced.value, if forced.value == Partial then BudgetExhausted else ForcedName, false)
    else if Discovery in f.blockedLanes && f.candidates == 0 then Choice(Blocked, DiscoveryBlocked, false)
    else if f.realCount >= f.saturationReal then Choice(Complete, SuccessSaturation, true)
    else if f.coverage.blocked != [] && f.coverage.completed == [] && f.candidates == 0
    then Choice(Blocked, SourcesBlocked, false)
    else if f.coverage.blocked != [] && (f.realCount > 0 || f.possiblyRealCount > 0 || f.candidates > 0)
    then Choice(Partial, SomeSourcesBlocked, false)
    else if f.blockedLanes != {} && (f.realCount > 0 || f.possiblyRealCount > 0)
    then Choice(Partial, LanesDegraded, false)
    else if f.blockedLanes != {} && f.candidates == 0 then Choice(Blocked, LaneBlocked, false)
    else if !AnyUsable(f.queries) then Choice(Blocked, NoUsableQuery, false)
    else if f.coverage.completed == [] && f.coverage.blocked == [] then Choice(Blocked, NoSourceWork, false)
    else if f.coverage.pagesFetched <= 0 && f.candidates == 0 then Choice(Blocked, NothingFetched, false)
    else if AnyUnresolved(Outcomes(f.coverage.completed + f.coverage.blocked))
    then Choice(Partial, SourceUnanswered, false)
    else Choice(Complete, CoverageExhausted, false)
  }

  method CountUsable(queries: seq<string>) returns (usable: nat)
    ensures usable > 0 <==> AnyUsable(queries)
  {
    usable := 0;
    for i := 0 to |queries|
      invariant usable > 0 <==> exists k :: 0 <= k < i && !IsBlank(queries[k])
    {
      if !IsBlank(queries[i]) {
        usable := usable + 1;
      }
    }
  }

  method CollectOutcomes(rows: seq<CoverageRow>) returns (outcomes: map<string, Status>)
    ensures outcomes == Outcomes(rows)
  {
    outcomes := map[];
    for i := 0 to |rows|
      invariant outcomes == Outcomes(rows[..i])
    {
      assert rows[..i + 1][..i] == rows[..i];
      match rows[i] {
        case Record(id, status) =>
          if id != "" {
            outcomes := outcomes[id := status];
          }
        case BareName(name) =>
          if name != "" && name !in outcomes {
            outcomes := outcomes[name := Unlisted];
          }
        case Unreadable =>
      }
    }
    assert rows[..|rows|] == rows;
  }

  method ChooseTerminal(f: Facts, forced: Option<CampaignState>) returns (choice: Choice)
    ensures choice == TerminalFor(f, forced)
  {
    if forced.Some? {
      return Choice(forced.value, if forced.value == Partial then BudgetExhausted else ForcedName, false);
    }
    var blocked, completed := f.coverage.blocked, f.coverage.completed;
    if Discovery in f.blockedLanes && f.candidates == 0 {
      return Choice(Blocked, DiscoveryBlocked, false);
    }
    if f.realCount >= f.saturationReal {
      return Choice(Complete, SuccessSaturation, true);
    }
    if blocked != [] && completed == [] && f.candidates == 0 {
      return Choice(Blocked, SourcesBlocked, false);
    }
    if blocked != [] && (f.realCount > 0 || f.possiblyRealCount > 0 || f.candidates > 0) {
      return Choice(Partial, SomeSourcesBlocked, false);
    }
    if f.blockedLanes != {} && (f.realCount > 0 || f.possiblyRealCount > 0) {
      return Choice(Partial, LanesDegraded, false);
    }
    if f.blockedLanes != {} && f.candidates == 0 {
      return Choice(Blocked, LaneBlocked, false);
    }
    var usable := CountUsable(f.queries);
    if f.queries == [] || usable == 0 {
      return Choice(Blocked, NoUsableQuery, false);
    }
    if completed == [] && blocked == [] {
      return Choice(Blocked, NoSourceWork, false);
    }
    var outcomes := CollectOutcomes(completed + blocked);
    var verdict := PublishedTerminalStatus(Complete, f.coverage.pagesFetched, f.candidates, Some(usable), false,
                                           if outcomes == map[] then None else Some(outcomes));
    if verdict == Partial {
      return Choice(Partial, SourceUnanswered, false);
    }
    if verdict != Complete {
      return Choice(Blocked, NothingFetched, false);
    }
    return Choice(Complete, CoverageExhausted, false);
  }

  // ---------------------------------------------------------------- COMPLETE is honest

  // Everything an exhaustion claim stands for.
  ghost predicate CoverageWasExhausted(f: Facts) {
    && AnyUsable(f.queries)
    && (f.coverage.completed != [] || f.coverage.blocked != [])
    && (f.coverage.pagesFetched > 0 || f.candidates > 0)
    && (f.coverage.blocked != [] ==>
          f.candidates == 0 && f.realCount == 0 && f.possiblyRealCount == 0 && f.coverage.completed != [])
    && (f.blockedLanes != {} ==> f.candidates > 0 && f.realCount == 0 && f.possiblyRealCount == 0)
    && forall id :: id in Outcomes(f.coverage.completed + f.coverage.blocked) ==>
                      Outcomes(f.coverage.completed + f.coverage.blocked)[id] !in COVERAGE_UNRESOLVED
  }

  // An unforced verdict is COMPLETE exactly on saturation or on exhausted coverage, and says which.
  lemma CompleteIffEarned(f: Facts)
    ensures TerminalFor(f, None) == Choice(Complete, CoverageExhausted, false)
            <==> f.realCount < f.saturationReal && CoverageWasExhausted(f)
    ensures TerminalFor(f, None).target == Complete && TerminalFor(f, None).saturation
            <==> f.realCount >= f.saturationReal && !(Discovery in f.blockedLanes && f.candidates == 0)
    ensures TerminalFor(f, None).target in {Complete, Partial, Blocked}
  {}

  lemma OutcomesOneMore(rows: seq<CoverageRow>, id: string, status: Status)
    ensures Outcomes(rows + [Record(id, status)]) == if id == "" then Outcomes(rows) else Outcomes(rows)[id := status]
  {
    assert (rows + [Record(id, status)])[..|rows|] == rows;
  }

  lemma FiledOneMore(perSource: seq<(string, Status)>, asBlocked: bool, earlier: seq<CoverageRow>)
    requires perSource != []
    ensures var (id, status) := perSource[|perSource| - 1];
            var front := Outcomes(earlier + RowsFiled(perSource[..|perSource| - 1], asBlocked));
            Outcomes(earlier + RowsFiled(perSource, asBlocked))
            == if (status in FILED_AS_BLOCKED) == asBlocked && id != "" then front[id := status] else front
  {
    var (id, status) := perSource[|perSource| - 1];
    var frontRows := earlier + RowsFiled(perSource[..|perSource| - 1], asBlocked);
    if (status in FILED_AS_BLOCKED) == asBlocked {
      assert earlier + RowsFiled(perSource, asBlocked) == frontRows + [Record(id, status)];
      OutcomesOneMore(frontRows, id, status);
    } else {
      assert earlier + RowsFiled(perSource, asBlocked) == frontRows;
    }
  }

  ghost predicate EndsAs(outcomes: map<string, Status>, id: string, status: Status) {
    id in outcomes && outcomes[id] == status
  }

  // A source listed once keeps its outcome through the filing that lists it and through the other one.
  lemma {:induction false} OutcomeSurvives(perSource: seq<(string, Status)>, asBlocked: bool, earlier: seq<CoverageRow>,
                                           id: string, status: Status)
    requires id != ""
    requires forall i :: 0 <= i < |perSource| && perSource[i].0 == id ==> perSource[i].1 == status
    requires EndsAs(Outcomes(earlier), id, status)
             || ((id, status) in perSource && (status in FILED_AS_BLOCKED) == asBlocked)
    ensures EndsAs(Outcomes(earlier + RowsFiled(perSource, asBlocked)), id, status)
    decreases |perSource|
  {
    if perSource == [] {
      assert earlier + RowsFiled(perSource, asBlocked) == earlier;
    } else {
      FiledOneMore(perSource, asBlocked, earlier);
      if perSource[|perSource| - 1] != (id, status) || EndsAs(Outcomes(earlier), id, status) {
        OutcomeSurvives(perSource[..|perSource| - 1], asBlocked, earlier, id, status);
      }
    }
  }

  // The coverage rows of a discovery run over sources with distinct, non-empty ids.
  ghost predicate CoverageOf(coverage: Coverage, perSource: seq<(string, Status)>) {
    && coverage.completed == RowsFiled(perSource, false) && coverage.blocked == RowsFiled(perSource, true)
    && (forall i :: 0 <= i < |perSource| ==> perSource[i].0 != "")
    && (forall a, b :: 0 <= a < b < |perSource| ==> perSource[a].0 != perSource[b].0)
  }

  lemma SourceKeepsItsOutcome(coverage: Coverage, perSource: seq<(string, Status)>, i: nat)
    requires CoverageOf(coverage, perSource) && i < |perSource|
    ensures EndsAs(Outcomes(coverage.completed + coverage.blocked), perSource[i].0, perSource[i].1)
  {
    hide Outcomes, RowsFiled;
    var (id, status) := perSource[i];
    assert (id, status) in perSource;
    if status !in FILED_AS_BLOCKED {
      assert [] + RowsFiled(perSource, false) == coverage.completed;
      OutcomeSurvives(perSource, false, [], id, status);
    }
    OutcomeSurvives(perSource, true, coverage.completed, id, status);
  }

  /** On the live path: if the coverage is that of a discovery run, an unforced, unsaturated COMPLETE
      means every planned source answered, and one that was refused leaves no candidate and no card. */
  lemma CompleteMeansEverySourceAnswered(f: Facts, perSource: seq<(string, Status)>)
    requires CoverageOf(f.coverage, perSource)
    requires TerminalFor(f, None) == Choice(Complete, CoverageExhausted, false)
    ensures perSource != [] && forall i :: 0 <= i < |perSource| ==> perSource[i].1 !in COVERAGE_UNRESOLVED
    ensures (exists i :: 0 <= i < |perSource| && perSource[i].1 in FILED_AS_BLOCKED)
            ==> f.candidates == 0 && f.realCount == 0 && f.possiblyRealCount == 0 && f.coverage.pagesFetched > 0
  {
    hide TerminalFor, Outcomes, AnyUsable;
    CompleteIffEarned(f);
    forall i | 0 <= i < |perSource| ensures perSource[i].1 !in COVERAGE_UNRESOLVED {
      SourceKeepsItsOutcome(f.coverage, perSource, i);
    }
    if i :| 0 <= i < |perSource| && perSource[i].1 in FILED_AS_BLOCKED {
      FiledSomewhere(perSource, true, i);
    }
  }

  lemma {:induction false} FiledSomewhere(perSource: seq<(string, Status)>, asBlocked: bool, i: nat)
    requires i < |perSource| && (perSource[i].1 in FILED_AS_BLOCKED) == asBlocked
    ensures RowsFiled(perSource, asBlocked) != []
    decreases |perSource|
  {
    if i < |perSource| - 1 {
      FiledSomewhere(perSource[..|perSource| - 1], asBlocked, i);
    }
  }

  // What _emit_discovery_fallback stores when discovery could not run.
  const FALLBACK_COVERAGE := Coverage([], [Record("live_discovery", SourceUnavailable)], 0, 0)

  // Nothing was ever asked, or nothing but the fallback is on record.
  predicate IsHollow(coverage: Coverage) {
    coverage.completed == [] && coverage.blocked in {[], [Record("live_discovery", SourceUnavailable)]}
  }

  /** A campaign whose discovery fell back can never claim exhausted coverage, even in a later process
      that no longer remembers the blocked lane. */
  lemma FallbackIsNeverExhaustion(f: Facts)
    requires IsHollow(f.coverage) && f.realCount < f.saturationReal
    ensures TerminalFor(f, None).target in {Blocked, Partial}
  {}

  // ---------------------------------------------------------------- rows from anywhere

  // The record whose outcome its source ends up with: no later record has its id.
  ghost predicate LastOf(rows: seq<CoverageRow>, i: int, id: string) {
    && 0 <= i < |rows| && rows[i].Record? && rows[i].id == id && id != ""
    && forall k :: i < k < |rows| && rows[k].Record? ==> rows[k].id != id
  }

  ghost predicate LastRecordSays(rows: seq<CoverageRow>, id: string, status: Status) {
    exists i :: LastOf(rows, i, id) && rows[i].status == status
  }

  // A row that is no record of this source leaves its last record where it was.
  lemma LastRecordStays(rows: seq<CoverageRow>, id: string, status: Status)
    requires rows != [] && (rows[|rows| - 1].Record? ==> rows[|rows| - 1].id != id || id == "")
    ensures LastRecordSays(rows, id, status) <==> LastRecordSays(rows[..|rows| - 1], id, status)
  {
    var front := rows[..|rows| - 1];
    forall i | 0 <= i < |rows| ensures LastOf(rows, i, id) <==> LastOf(front, i, id) {}
    if i :| LastOf(rows, i, id) && rows[i].status == status {
      assert LastOf(front, i, id) && front[i].status == status;
    }
    if i :| LastOf(front, i, id) && front[i].status == status {
      assert LastOf(rows, i, id) && rows[i].status == status;
    }
  }

  lemma {:induction false} OutcomeIsTheLastRecord(rows: seq<CoverageRow>, id: string, status: Status)
    requires status != Unlisted
    ensures EndsAs(Outcomes(rows), id, status) <==> LastRecordSays(rows, id, status)
    decreases |rows|
  {
    if rows != [] {
      var last := rows[|rows| - 1];
      OutcomeIsTheLastRecord(rows[..|rows| - 1], id, status);
      if last.Record? && last.id == id && id != "" {
        assert LastOf(rows, |rows| - 1, id) && forall i :: LastOf(rows, i, id) ==> i == |rows| - 1;
      } else {
        LastRecordStays(rows, id, status);
      }
    }
  }

  // The last record of some source is an unresolved one.
  ghost predicate UnansweredAtLast(rows: seq<CoverageRow>) {
    exists id, status :: status in COVERAGE_UNRESOLVED && LastRecordSays(rows, id, status)
  }

  /** For rows of any shape and order, the verdict notices an unresolved outcome exactly when it is the last
      record of its source: another record under the same id hides it, a bare name does not. */
  lemma UnresolvedIffUnansweredAtLast(rows: seq<CoverageRow>)
    ensures AnyUnresolved(Outcomes(rows)) <==> UnansweredAtLast(rows)
  {
    hide Outcomes, LastRecordSays;
    if id :| id in Outcomes(rows) && Outcomes(rows)[id] in COVERAGE_UNRESOLVED {
      OutcomeIsTheLastRecord(rows, id, Outcomes(rows)[id]);
    }
    if id, status :| status in COVERAGE_UNRESOLVED && LastRecordSays(rows, id, status) {
      OutcomeIsTheLastRecord(rows, id, status);
      assert id in Outcomes(rows);
    }
  }

  /** So where the outcomes decide, COMPLETE means that every source's last record is an answer, and PARTIAL that
      one is not. */
  lemma CompleteIffLastRecordsAnswer(f: Facts)
    requires TerminalFor(f, None) in {Choice(Complete, CoverageExhausted, false),
                                      Choice(Partial, SourceUnanswered, false)}
    ensures TerminalFor(f, None) == Choice(Complete, CoverageExhausted, false)
            <==> !UnansweredAtLast(f.coverage.completed + f.coverage.blocked)
  {
    hide UnansweredAtLast, AnyUnresolved, Outcomes;
    UnresolvedIffUnansweredAtLast(f.coverage.completed + f.coverage.blocked);
  }

  // ---------------------------------------------------------------- PARTIAL and BLOCKED on the facts alone

  predicate HasCard(f: Facts) {
    f.realCount > 0 || f.possiblyRealCount > 0
  }

  // No candidate, and discovery is blocked or every source it asked is.
  predicate FoundNothing(f: Facts) {
    f.candidates == 0 && (Discovery in f.blockedLanes || (f.coverage.blocked != [] && f.coverage.completed == []))
  }

  // Something useful is there, and part of what was planned is not.
  predicate IsDegraded(f: Facts) {
    || (f.coverage.blocked != [] && (HasCard(f) || f.candidates > 0))
    || (f.blockedLanes != {} && HasCard(f))
  }

  // The planned search was carried out, whatever the sources answered.
  ghost predicate WasCarriedOut(f: Facts) {
    && (exists i :: 0 <= i < |f.queries| && exists k :: 0 <= k < |f.queries[i]| && !IsSpace(f.queries[i][k]))
    && f.coverage.completed + f.coverage.blocked != []
    && (f.coverage.pagesFetched > 0 || f.candidates > 0)
    && (f.blockedLanes != {} ==> f.candidates > 0)
  }

  lemma UsableQuery(queries: seq<string>)
    ensures AnyUsable(queries)
            <==> exists i :: 0 <= i < |queries| && exists k :: 0 <= k < |queries[i]| && !IsSpace(queries[i][k])
  {
    forall i | 0 <= i < |queries| ensures !IsBlank(queries[i])
                                       <==> exists k :: 0 <= k < |queries[i]| && !IsSpace(queries[i][k]) {}
  }

  /** The verdict of a campaign that is not saturated, on its facts alone: BLOCKED if there is nothing to go on with;
      PARTIAL if something useful is there and part of the plan is not; else COMPLETE or PARTIAL by what the sources
      said at last, if the search was carried out; else BLOCKED. */
  lemma VerdictOnTheFacts(f: Facts)
    requires f.realCount < f.saturationReal
    ensures var unanswered := UnansweredAtLast(f.coverage.completed + f.coverage.blocked);
            var target := TerminalFor(f, None).target;
            && (target == Blocked <==> FoundNothing(f) || (!IsDegraded(f) && !WasCarriedOut(f)))
            && (target == Partial
                <==> !FoundNothing(f) && (IsDegraded(f) || (WasCarriedOut(f) && unanswered)))
            && (target == Complete
                <==> !FoundNothing(f) && !IsDegraded(f) && WasCarriedOut(f) && !unanswered)
  {
    hide AnyUnresolved, UnansweredAtLast, AnyUsable, Outcomes;
    UsableQuery(f.queries);
    UnresolvedIffUnansweredAtLast(f.coverage.completed + f.coverage.blocked);
  }

  /** A saturated one is COMPLETE, with a saturation receipt, unless discovery is blocked and left no candidate. */
  lemma VerdictOfTheSaturated(f: Facts)
    requires f.realCount >= f.saturationReal
    ensures TerminalFor(f, None).target
            == if Discovery in f.blockedLanes && f.candidates == 0 then Blocked else Complete
    ensures TerminalFor(f, None).saturation <==> TerminalFor(f, None).target == Complete
  {}

  /** With a card and a blocked source or lane a campaign is PARTIAL, unless it has no candidate and discovery or
      every source is blocked: then it is BLOCKED, card or not. */
  lemma CardsAreNotBlocked(f: Facts)
    requires f.realCount < f.saturationReal && HasCard(f) && (f.coverage.blocked != [] || f.blockedLanes != {})
    ensures TerminalFor(f, None).target == if FoundNothing(f) then Blocked else Partial
  {}

  // ---------------------------------------------------------------- what a verdict says

  // The sentence a verdict is recorded with. That of a blocked lane is the lane's own.
  function Sentence(reason: Reason, ofTheLane: string): (sentence: string) {
    match reason
    case BudgetExhausted => "budget exhausted"
    case ForcedName => ofTheLane
    case DiscoveryBlocked => ofTheLane
    case SuccessSaturation => "success saturation"
    case SourcesBlocked => "admitted sources were blocked or unavailable"
    case SomeSourcesBlocked => "useful coverage remains incomplete; some sources blocked"
    case LanesDegraded => "one or more lanes degraded; results are incomplete"
    case LaneBlocked => ofTheLane
    case NoUsableQuery => "no usable query was compiled"
    case NoSourceWork => "no source work was planned"
    case SourceUnanswered => "a planned source did not answer; coverage is incomplete"
    case NothingFetched => "nothing was fetched"
    case CoverageExhausted => "coverage exhausted"
  }

  /** The sentence a verdict is recorded with is true of its facts; that of a blocked lane comes with the lane. */
  lemma ReasonIsTrue(f: Facts, ofTheLane: string)
    ensures var unanswered := UnansweredAtLast(f.coverage.completed + f.coverage.blocked);
            var reason := TerminalFor(f, None).reason;
            var sentence := Sentence(reason, ofTheLane);
            match reason
            case DiscoveryBlocked => sentence == ofTheLane && Discovery in f.blockedLanes && f.candidates == 0
            case LaneBlocked => sentence == ofTheLane && f.blockedLanes != {} && f.candidates == 0
            case SuccessSaturation => sentence == "success saturation" && f.realCount >= f.saturationReal
            case SourcesBlocked =>
              && sentence == "admitted sources were blocked or unavailable"
              && f.coverage.blocked != [] && f.coverage.completed == [] && f.candidates == 0
            case SomeSourcesBlocked =>
              && sentence == "useful coverage remains incomplete; some sources blocked"
              && f.coverage.blocked != [] && (HasCard(f) || f.candidates > 0)
            case LanesDegraded =>
              && sentence == "one or more lanes degraded; results are incomplete"
              && f.blockedLanes != {} && HasCard(f)
            case NoUsableQuery => sentence == "no usable query was compiled" && !AnyUsable(f.queries)
            case NoSourceWork =>
              sentence == "no source work was planned" && f.coverage.completed == [] && f.coverage.blocked == []
            case NothingFetched =>
              sentence == "nothing was fetched" && f.coverage.pagesFetched <= 0 && f.candidates == 0
            case SourceUnanswered =>
              sentence == "a planned source did not answer; coverage is incomplete" && unanswered
            case CoverageExhausted => sentence == "coverage exhausted" && !unanswered
            case _ => false
  {
    ReasonHolds(f);
    hide TerminalFor, UnansweredAtLast, AnyUsable, HasCard;
  }

  lemma ReasonHolds(f: Facts)
    ensures var unanswered := UnansweredAtLast(f.coverage.completed + f.coverage.blocked);
            match TerminalFor(f, None).reason
            case DiscoveryBlocked => Discovery in f.blockedLanes && f.candidates == 0
            case LaneBlocked => f.blockedLanes != {} && f.candidates == 0
            case SuccessSaturation => f.realCount >= f.saturationReal
            case SourcesBlocked => f.coverage.blocked != [] && f.coverage.completed == [] && f.candidates == 0
            case SomeSourcesBlocked => f.coverage.blocked != [] && (HasCard(f) || f.candidates > 0)
            case LanesDegraded => f.blockedLanes != {} && HasCard(f)
            case NoUsableQuery => !AnyUsable(f.queries)
            case NoSourceWork => f.coverage.completed == [] && f.coverage.blocked == []
            case NothingFetched => f.coverage.pagesFetched <= 0 && f.candidates == 0
            case SourceUnanswered => unanswered
            case CoverageExhausted => !unanswered
            case _ => false
  {
    hide AnyUnresolved, UnansweredAtLast, AnyUsable, Outcomes;
    UnresolvedIffUnansweredAtLast(f.coverage.completed + f.coverage.blocked);
  }

  // ---------------------------------------------------------------- one source more

  // An unsaturated campaign without cards, candidates or blocked lanes that asked these sources.
  predicate AskedOnly(f: Facts, perSource: seq<(string, Status)>) {
    && f.realCount == f.possiblyRealCount == f.candidates == 0 && f.saturationReal > 0 && f.blockedLanes == {}
    && AnyUsable(f.queries) && f.coverage.pagesFetched > 0
    && f.coverage.completed == RowsFiled(perSource, false) && f.coverage.blocked == RowsFiled(perSource, true)
  }

  lemma OutcomesOf(first: string, answer: Status, second: string, status: Status)
    requires first != second && second != ""
    ensures Outcomes([Record(second, status)]) == map[second := status]
    ensures first != "" ==>
              Outcomes([Record(first, answer), Record(second, status)]) == map[first := answer, second := status]
  {
    OutcomesOneMore([], second, status);
    OutcomesOneMore([], first, answer);
    OutcomesOneMore([Record(first, answer)], second, status);
    assert [] + [Record(second, status)] == [Record(second, status)];
    assert [] + [Record(first, answer)] == [Record(first, answer)];
    assert [Record(first, answer)] + [Record(second, status)] == [Record(first, answer), Record(second, status)];
  }

  lemma UnresolvedAmong(first: string, answer: Status, second: string, status: Status)
    requires first != second && answer !in COVERAGE_UNRESOLVED
    ensures AnyUnresolved(map[second := status]) <==> status in COVERAGE_UNRESOLVED
    ensures AnyUnresolved(map[first := answer, second := status]) <==> status in COVERAGE_UNRESOLVED
  {
    assert second in map[second := status] && second in map[first := answer, second := status];
  }

  // Alone.
  lemma OutcomeDecides(f: Facts, status: Status)
    requires AskedOnly(f, [("a", status)])
    ensures TerminalFor(f, None).target
            == if status in FILED_AS_BLOCKED then Blocked
               else if status in COVERAGE_UNRESOLVED then Partial else Complete
  {
    hide AnyUsable, RowsFiled, Outcomes, AnyUnresolved;
    FiledOnce("a", status);
    OutcomesOf("", SearchedNoMatch, "a", status);
    UnresolvedAmong("", SearchedNoMatch, "a", status);
  }

  // Beside a source that answered.
  lemma SecondOutcomeDecides(f: Facts, status: Status)
    requires AskedOnly(f, [("a", SearchedNoMatch), ("b", status)])
    ensures TerminalFor(f, None).target == if status in COVERAGE_UNRESOLVED then Partial else Complete
  {
    hide AnyUsable, RowsFiled, Outcomes, AnyUnresolved;
    FiledTwice("a", SearchedNoMatch, "b", status);
    OutcomesOf("a", SearchedNoMatch, "b", status);
    UnresolvedAmong("a", SearchedNoMatch, "b", status);
  }

  /** What every outcome of a source comes to: alone, and beside a source that answered. */
  lemma OutcomesDecide(f: Facts, g: Facts, status: Status)
    requires AskedOnly(f, [("a", status)]) && AskedOnly(g, [("a", SearchedNoMatch), ("b", status)])
    ensures TerminalFor(f, None).target
            == match status
               case SearchedNoMatch | SearchedMatchesFound | Unlisted => Complete
               case NetworkFailed | ParserFailed | NotAttempted => Partial
               case BlockedByAccess | BlockedByPolicy | AuthRequiredOutcome | RateLimited | SourceUnavailable
                  | Unmeasurable => Blocked
    ensures TerminalFor(g, None).target
            == match status
               case SearchedNoMatch | SearchedMatchesFound | Unlisted | BlockedByAccess | BlockedByPolicy
                  | AuthRequiredOutcome => Complete
               case NetworkFailed | ParserFailed | NotAttempted | RateLimited | SourceUnavailable
                  | Unmeasurable => Partial
  {
    hide TerminalFor, AskedOnly;
    OutcomeDecides(f, status);
    SecondOutcomeDecides(g, status);
  }

  lemma FiledOnce(id: string, status: Status)
    ensures RowsFiled([(id, status)], false) + RowsFiled([(id, status)], true) == [Record(id, status)]
    ensures RowsFiled([(id, status)], true) == if status in FILED_AS_BLOCKED then [Record(id, status)] else []
  {
    assert [(id, status)][..0] == [];
  }

  lemma FiledTwice(first: string, answer: Status, second: string, status: Status)
    requires answer !in FILED_AS_BLOCKED
    ensures var rows := [(first, answer), (second, status)];
            && RowsFiled(rows, false) + RowsFiled(rows, true) == [Record(first, answer), Record(second, status)]
            && RowsFiled(rows, true) == (if status in FILED_AS_BLOCKED then [Record(second, status)] else [])
            && RowsFiled(rows, false) != []
  {
    var rows := [(first, answer), (second, status)];
    assert rows[..1] == [(first, answer)];
    FiledOnce(first, answer);
  }
}
