/** Publication: which public list a bucket decision lands on (src/searcher/campaigns/publication.py),
    and the _publish step of src/searcher/campaigns/orchestrator.py that stores and announces it. */
module Publication {
  import opened Wrappers
  import opened EventLog

  datatype Bucket = Real | PossiblyReal | Replica | Hidden

  const SELF_DECLARED_REPLICA := "SELF_DECLARED_REPLICA"
  const REPLICA_SOURCE_REASON := "REPLICA_SOURCE_FAMILY"

  // A listing as publication sees it. Splitting its URL and reading its text for a replica
  // declaration are not part of this model: scheme, hasHost and textDeclaresReplica are their answers.
  datatype Listing = Listing(scheme: string, hasHost: bool, fromReplicaSource: bool, textDeclaresReplica: bool)

  datatype Decision = Decision(candidateId: string, bucket: Bucket, hardVetoes: seq<string>, reasonCodes: seq<string>) {
    // The rule every BucketDecision is validated against when it is built.
    predicate Valid() {
      hardVetoes != [] ==> bucket != Real && bucket != PossiblyReal
    }
  }

  predicate IsReplicaResult(listing: Option<Listing>, d: Decision) {
    || (listing.Some? && listing.value.fromReplicaSource)
    || SELF_DECLARED_REPLICA in d.hardVetoes + d.reasonCodes
    || REPLICA_SOURCE_REASON in d.hardVetoes + d.reasonCodes
    || (listing.Some? && listing.value.textDeclaresReplica)
  }

  predicate HasUsableLink(listing: Option<Listing>) {
    listing.Some? && listing.value.scheme in {"http", "https"} && listing.value.hasHost
  }

  function PublicBucket(d: Decision, listing: Option<Listing>): (bucket: Bucket) {
    var shown := d.bucket == Real || d.bucket == PossiblyReal;
    if IsReplicaResult(listing, d) then Replica
    else if shown && d.reasonCodes == [] && d.hardVetoes == [] then Hidden
    else if shown && !HasUsableLink(listing) then Hidden
    else d.bucket
  }

  /** A valid decision is shown as Real or Possibly Real exactly when it says so itself, is no replica,
      can be opened, and carries a reason; and then it carries no veto. */
  lemma ShownIffEarned(d: Decision, listing: Option<Listing>, shown: Bucket)
    requires d.Valid() && shown in {Real, PossiblyReal}
    ensures PublicBucket(d, listing) == shown <==>
              d.bucket == shown && !IsReplicaResult(listing, d) && HasUsableLink(listing) && d.reasonCodes != []
    ensures PublicBucket(d, listing) == shown ==> d.hardVetoes == []
  {}

  function EventFor(bucket: Bucket): EventName {
    match bucket
    case Real => ResultReal
    case PossiblyReal => ResultPossiblyReal
    case Replica => ResultReplica
    case Hidden => ResultRemoved
  }

  datatype ResultRow = ResultRow(resultId: string, candidateId: string, bucket: Bucket, decision: Decision)

  datatype Announcement = Announcement(name: EventName, candidateId: string, resultId: string)

  datatype Counts = Counts(shownReal: nat, possiblyReal: nat, hidden: nat)

  // How many rows are on one public list.
  function CountIn(rows: seq<ResultRow>, bucket: Bucket): (n: nat) {
    if rows == [] then 0
    else CountIn(rows[..|rows| - 1], bucket) + (if rows[|rows| - 1].bucket == bucket then 1 else 0)
  }

  // The row and the event that stand for one decision.
  ghost predicate Stands(row: ResultRow, event: Announcement, d: Decision, listings: map<string, Listing>) {
    && row.candidateId == d.candidateId && row.decision == d
    && row.bucket == PublicBucket(d, Find(listings, d.candidateId))
    && event == Announcement(EventFor(row.bucket), row.candidateId, row.resultId)
  }

  function Find(listings: map<string, Listing>, id: string): Option<Listing> {
    if id in listings then Some(listings[id]) else None
  }

  // The recount over the stored rows; the hidden ones are added to a count already begun.
  method Recount(rows: seq<ResultRow>, begun: nat) returns (counts: Counts)
    ensures counts == Counts(CountIn(rows, Real), CountIn(rows, PossiblyReal), begun + CountIn(rows, Hidden))
  {
    counts := Counts(0, 0, begun);
    for i := 0 to |rows|
      invariant counts == Counts(CountIn(rows[..i], Real), CountIn(rows[..i], PossiblyReal),
                                 begun + CountIn(rows[..i], Hidden))
    {
      assert rows[..i + 1][..i] == rows[..i];
      match rows[i].bucket {
        case Real => counts := counts.(shownReal := counts.shownReal + 1);
        case PossiblyReal => counts := counts.(possiblyReal := counts.possiblyReal + 1);
        case Hidden => counts := counts.(hidden := counts.hidden + 1);
        case Replica =>
      }
    }
    assert rows[..|rows|] == rows;
  }

  // The first n decisions, in order, have their one row and their one event; hidden is the count so far.
  ghost predicate PublishedUpTo(decisions: seq<Decision>, listings: map<string, Listing>, rows: seq<ResultRow>,
                                events: seq<Announcement>, earlier: nat, n: nat, hidden: nat) {
    && n <= |decisions| && |rows| == n && |events| == earlier + n
    && (forall i :: 0 <= i < n ==> Stands(rows[i], events[earlier + i], decisions[i], listings))
    && hidden == CountIn(rows, Hidden)
  }

  lemma OneMorePublished(decisions: seq<Decision>, listings: map<string, Listing>, rows: seq<ResultRow>,
                         events: seq<Announcement>, earlier: nat, n: nat, hidden: nat, resultId: string)
    requires n < |decisions| && PublishedUpTo(decisions, listings, rows, events, earlier, n, hidden)
    ensures var d := decisions[n];
            var bucket := PublicBucket(d, Find(listings, d.candidateId));
            PublishedUpTo(decisions, listings, rows + [ResultRow(resultId, d.candidateId, bucket, d)],
                          events + [Announcement(EventFor(bucket), d.candidateId, resultId)], earlier, n + 1,
                          if EventFor(bucket) == ResultRemoved then hidden + 1 else hidden)
  {
    hide PublicBucket, Find;
    var d := decisions[n];
    var longer := rows + [ResultRow(resultId, d.candidateId, PublicBucket(d, Find(listings, d.candidateId)), d)];
    assert longer[..n] == rows;
  }

  lemma NothingPublished(decisions: seq<Decision>, listings: map<string, Listing>, rows: seq<ResultRow>,
                         events: seq<Announcement>)
    requires rows == []
    ensures PublishedUpTo(decisions, listings, rows, events, |events|, 0, 0)
  {}

  lemma AllPublished(decisions: seq<Decision>, listings: map<string, Listing>, rows: seq<ResultRow>,
                     events: seq<Announcement>, earlier: nat, hidden: nat)
    requires PublishedUpTo(decisions, listings, rows, events, earlier, |decisions|, hidden)
    ensures hidden == CountIn(rows, Hidden)
  {}

  class Publisher {
    var decisions: seq<Decision>
    var listings: map<string, Listing>
    var results: seq<ResultRow>
    var events: seq<Announcement>
    var counts: Option<Counts>
    var coverageHidden: Option<nat>       // candidates_hidden, when a coverage map is stored

    // Every decision, in order, has its one row and its one event.
    ghost predicate Published(earlier: nat)
      reads this
    {
      PublishedUpTo(decisions, listings, results, events, earlier, |decisions|, CountIn(results, Hidden))
    }

    /** _publish. Once rows exist a call changes nothing; the first call stores and announces each
        decision once. The stored real and possibly_real are the recount, the stored hidden twice it. */
    method Publish(newId: nat -> string)
      modifies this`results, this`events, this`counts, this`coverageHidden
      ensures old(results) != [] ==>
                results == old(results) && events == old(events) && counts == old(counts)
                && coverageHidden == old(coverageHidden)
      ensures old(results) == [] ==>
                && Published(|old(events)|) && old(events) <= events
                && counts == Some(Counts(CountIn(results, Real), CountIn(results, PossiblyReal),
                                         2 * CountIn(results, Hidden)))
                && coverageHidden == (if old(coverageHidden).Some? then Some(2 * CountIn(results, Hidden)) else None)
    {
      hide PublicBucket, Find, EventFor, CountIn, PublishedUpTo, Stands;
      if results != [] {
        return;
      }
      var hidden := 0;
      ghost var earlier := |events|;
      NothingPublished(decisions, listings, results, events);
      for i := 0 to |decisions|
        invariant PublishedUpTo(decisions, listings, results, events, earlier, i, hidden) && old(events) <= events
        invariant counts == old(counts) && coverageHidden == old(coverageHidden)
      {
        var d := decisions[i];
        var resultId := newId(i);
        var bucket := PublicBucket(d, Find(listings, d.candidateId));
        OneMorePublished(decisions, listings, results, events, earlier, i, hidden, resultId);
        results := results + [ResultRow(resultId, d.candidateId, bucket, d)];
        var name := EventFor(bucket);
        if name == ResultRemoved {
          hidden := hidden + 1;
        }
        events := events + [Announcement(name, d.candidateId, resultId)];
      }
      AllPublished(decisions, listings, results, events, earlier, hidden);
      var recount := Recount(results, hidden);
      counts := Some(recount);
      if coverageHidden.Some? {
        coverageHidden := Some(recount.hidden);
      }
    }
  }

  /** Every stored row that is shown belongs to a decision that earned it. */
  lemma PublishedIsSound(p: Publisher, earlier: nat, i: nat)
    requires p.Published(earlier) && i < |p.results|
    requires forall k :: 0 <= k < |p.decisions| ==> p.decisions[k].Valid()
    requires p.results[i].bucket in {Real, PossiblyReal}
    ensures var listing := Find(p.listings, p.results[i].candidateId);
            && !IsReplicaResult(listing, p.decisions[i]) && HasUsableLink(listing)
            && p.decisions[i].hardVetoes == [] && p.decisions[i].reasonCodes != []
            && p.decisions[i].bucket == p.results[i].bucket
  {
    assert Stands(p.results[i], p.events[earlier + i], p.decisions[i], p.listings);
    ShownIffEarned(p.decisions[i], Find(p.listings, p.results[i].candidateId), p.results[i].bucket);
  }

  // The rows of all four lists together are all the rows: nothing is lost between the lists.
  lemma {:induction false} ListsShareTheRows(rows: seq<ResultRow>)
    ensures CountIn(rows, Real) + CountIn(rows, PossiblyReal) + CountIn(rows, Replica) + CountIn(rows, Hidden) == |rows|
    decreases |rows|
  {
    if rows != [] {
      ListsShareTheRows(rows[..|rows| - 1]);
    }
  }

  // ---------------------------------------------------------------- on the decision and the listing alone

  // What marks a replica, each by itself.
  predicate MarkedReplica(d: Decision, listing: Option<Listing>) {
    || SELF_DECLARED_REPLICA in d.hardVetoes || SELF_DECLARED_REPLICA in d.reasonCodes
    || REPLICA_SOURCE_REASON in d.hardVetoes || REPLICA_SOURCE_REASON in d.reasonCodes
    || (listing.Some? && (listing.value.fromReplicaSource || listing.value.textDeclaresReplica))
  }

  // A link somebody can open.
  predicate CanBeOpened(listing: Option<Listing>) {
    listing.Some? && listing.value.hasHost && (listing.value.scheme == "http" || listing.value.scheme == "https")
  }

  /** The list of every valid decision: the replicas, whatever else is said of them; what says so itself, can be
      opened and gives a reason, on the list it says; and out of sight everything else. */
  lemma ListOfEach(d: Decision, listing: Option<Listing>)
    requires d.Valid()
    ensures var bucket := PublicBucket(d, listing);
            && (bucket == Replica <==> MarkedReplica(d, listing) || d.bucket == Replica)
            && (bucket == Real <==> d.bucket == Real && !MarkedReplica(d, listing)
                                    && CanBeOpened(listing) && d.reasonCodes != [])
            && (bucket == PossiblyReal <==> d.bucket == PossiblyReal && !MarkedReplica(d, listing)
                                            && CanBeOpened(listing) && d.reasonCodes != [])
            && (bucket == Hidden <==> !MarkedReplica(d, listing) && d.bucket != Replica
                                      && (d.bucket == Hidden || !CanBeOpened(listing) || d.reasonCodes == []))
  {}

  /** What is announced of every decision that was published: the event of its list, for its candidate and its row. */
  lemma EventOfEach(p: Publisher, earlier: nat, i: nat)
    requires p.Published(earlier) && i < |p.decisions| && p.decisions[i].Valid()
    ensures |p.events| == earlier + |p.decisions| && |p.results| == |p.decisions|
    ensures var d, event := p.decisions[i], p.events[earlier + i];
            var listing := if d.candidateId in p.listings then Some(p.listings[d.candidateId]) else None;
            && event.candidateId == d.candidateId && event.resultId == p.results[i].resultId
            && (event.name == ResultReplica <==> MarkedReplica(d, listing) || d.bucket == Replica)
            && (event.name == ResultReal <==> d.bucket == Real && !MarkedReplica(d, listing)
                                              && CanBeOpened(listing) && d.reasonCodes != [])
            && (event.name == ResultPossiblyReal <==> d.bucket == PossiblyReal && !MarkedReplica(d, listing)
                                                      && CanBeOpened(listing) && d.reasonCodes != [])
            && event.name in {ResultReplica, ResultReal, ResultPossiblyReal, ResultRemoved}
  {
    hide PublicBucket, MarkedReplica, CanBeOpened, CountIn;
    var d := p.decisions[i];
    assert Stands(p.results[i], p.events[earlier + i], d, p.listings);
    ListOfEach(d, Find(p.listings, d.candidateId));
  }

  // Where events of one name stand.
  function Named(events: seq<Announcement>, name: EventName): (at: set<nat>) {
    set i: nat | i < |events| && events[i].name == name
  }

  lemma NamedOneMore(events: seq<Announcement>, last: Announcement, name: EventName)
    ensures |Named(events + [last], name)| == |Named(events, name)| + if last.name == name then 1 else 0
  {
    assert Named(events + [last], name) == Named(events, name) + if last.name == name then {|events|} else {};
  }

  lemma {:induction false} RowsAreAnnounced(rows: seq<ResultRow>, events: seq<Announcement>, bucket: Bucket,
                                            name: EventName)
    requires |rows| == |events|
    requires forall i :: 0 <= i < |rows| ==> (rows[i].bucket == bucket <==> events[i].name == name)
    ensures CountIn(rows, bucket) == |Named(events, name)|
    decreases |rows|
  {
    hide Named;
    if rows == [] {
      NothingNamed(name);
    } else {
      var front, last := events[..|events| - 1], events[|events| - 1];
      RowsAreAnnounced(rows[..|rows| - 1], front, bucket, name);
      NamedOneMore(front, last, name);
      assert front + [last] == events;
    }
  }

  lemma NothingNamed(name: EventName)
    ensures Named([], name) == {}
  {}

  /** The counts of a publication are those of its events: as many of each kind as there are rows on its list. */
  lemma CountsAreAnnounced(p: Publisher, earlier: nat)
    requires p.Published(earlier)
    ensures earlier <= |p.events|
    ensures var events := p.events[earlier..];
            && CountIn(p.results, Real) == |Named(events, ResultReal)|
            && CountIn(p.results, PossiblyReal) == |Named(events, ResultPossiblyReal)|
            && CountIn(p.results, Replica) == |Named(events, ResultReplica)|
            && CountIn(p.results, Hidden) == |Named(events, ResultRemoved)|
  {
    hide PublicBucket, CountIn, Named;
    var events := p.events[earlier..];
    forall i | 0 <= i < |p.results| ensures events[i].name == EventFor(p.results[i].bucket) {
      assert Stands(p.results[i], p.events[earlier + i], p.decisions[i], p.listings);
    }
    RowsAreAnnounced(p.results, events, Real, ResultReal);
    RowsAreAnnounced(p.results, events, PossiblyReal, ResultPossiblyReal);
    RowsAreAnnounced(p.results, events, Replica, ResultReplica);
    RowsAreAnnounced(p.results, events, Hidden, ResultRemoved);
  }
}
