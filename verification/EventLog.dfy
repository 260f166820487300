/** The append-only campaign log of src/searcher/campaigns/events.py: its predecessor chain and the
    numbering of public events. */
module EventLog {
  import opened Wrappers
  import opened Transitions

  // The public names; Private stands for every name outside that list.
  datatype EventName =
    | SearchState | SearchProgress | SearchCoverage | CandidateDiscovered | CandidateNormalized | CandidatePromoted
    | CandidateUpdated | ResultReal | ResultPossiblyReal | ResultReplica | ResultRemoved | SearchWarning
    | SearchComplete | Private

  // new_id never repeats, so an event's id can be its place in the log.
  datatype Event = Event(id: nat, predecessor: Option<nat>, name: EventName, version: nat, state: Option<CampaignState>)

  function LastId(log: seq<Event>): (id: Option<nat>) {
    if log == [] then None else Some(log[|log| - 1].id)
  }

  // _emit with nothing in between: read the last id, append an event that points at it.
  function Emit(log: seq<Event>, name: EventName, version: nat, state: Option<CampaignState>): (longer: seq<Event>)
    ensures log <= longer
  {
    log + [Event(|log|, LastId(log), name, version, state)]
  }

  // ---------------------------------------------------------------- the predecessor chain

  ghost predicate Follows(log: seq<Event>, i: nat)
    requires i < |log|
  {
    log[i].predecessor == LastId(log[..i])
  }

  ghost predicate ChainOk(log: seq<Event>) {
    forall i :: 0 <= i < |log| ==> Follows(log, i)
  }

  method EventChainOk(log: seq<Event>) returns (ok: bool)
    ensures ok <==> ChainOk(log)
  {
    var predecessor: Option<nat> := None;
    for i := 0 to |log|
      invariant predecessor == LastId(log[..i])
      invariant forall k :: 0 <= k < i ==> Follows(log, k)
    {
      if log[i].predecessor != predecessor {
        assert !Follows(log, i);
        return false;
      }
      predecessor := Some(log[i].id);
      assert log[..i + 1] == log[..i] + [log[i]];
    }
    return true;
  }

  lemma ChainOneMore(log: seq<Event>, e: Event)
    ensures ChainOk(log + [e]) <==> ChainOk(log) && e.predecessor == LastId(log)
  {
    var longer := log + [e];
    assert longer[..|log|] == log;
    assert Follows(longer, |log|) <==> e.predecessor == LastId(log);
    forall i | 0 <= i < |log| ensures Follows(longer, i) <==> Follows(log, i) {
      assert longer[..i] == log[..i];
    }
  }

  // ---------------------------------------------------------------- numbering

  function PublicEvents(log: seq<Event>): (events: seq<Event>) {
    if log == [] then []
    else PublicEvents(log[..|log| - 1]) + (if log[|log| - 1].name.Private? then [] else [log[|log| - 1]])
  }

  // The places of the public events, all of them and in order.
  ghost predicate ArePlaces(log: seq<Event>, places: seq<nat>) {
    && (forall k :: 0 <= k < |places| ==> places[k] < |log| && !log[places[k]].name.Private?)
    && (forall j, k :: 0 <= j < k < |places| ==> places[j] < places[k])
    && (forall i: nat :: i < |log| && !log[i].name.Private? ==> i in places)
  }

  ghost predicate StandAt(log: seq<Event>, places: seq<nat>, events: seq<Event>) {
    |places| == |events| && forall k :: 0 <= k < |places| ==> places[k] < |log| && events[k] == log[places[k]]
  }

  /** The public events are the log's own: each is the event at its place, and every place of a public event
      is there once, in order. */
  lemma {:induction false} PublicEventsAreTheLogs(log: seq<Event>) returns (places: seq<nat>)
    ensures ArePlaces(log, places) && StandAt(log, places, PublicEvents(log))
    decreases |log|
  {
    if log == [] {
      places := [];
    } else {
      hide ArePlaces, StandAt;
      var front := PublicEventsAreTheLogs(log[..|log| - 1]);
      if log[|log| - 1].name.Private? {
        places := front;
        PrivateAfter(log, front, PublicEvents(log[..|log| - 1]));
      } else {
        places := front + [|log| - 1];
        PublicAfter(log, front, PublicEvents(log[..|log| - 1]));
      }
    }
  }

  lemma PrivateAfter(log: seq<Event>, front: seq<nat>, events: seq<Event>)
    requires log != [] && ArePlaces(log[..|log| - 1], front) && StandAt(log[..|log| - 1], front, events)
    requires log[|log| - 1].name.Private?
    ensures ArePlaces(log, front) && StandAt(log, front, events)
  {
    forall i: nat | i < |log| && !log[i].name.Private? ensures i in front {
      assert log[..|log| - 1][i] == log[i];
    }
  }

  lemma PublicAfter(log: seq<Event>, front: seq<nat>, events: seq<Event>)
    requires log != [] && ArePlaces(log[..|log| - 1], front) && StandAt(log[..|log| - 1], front, events)
    requires !log[|log| - 1].name.Private?
    ensures ArePlaces(log, front + [|log| - 1]) && StandAt(log, front + [|log| - 1], events + [log[|log| - 1]])
  {
    var places := front + [|log| - 1];
    forall i: nat | i < |log| && !log[i].name.Private? ensures i in places {
      if i < |log| - 1 {
        assert log[..|log| - 1][i] == log[i];
      } else {
        assert places[|front|] == i;
      }
    }
  }

  // The k-th public event carries number k, counted from 1; a reader that has number `after` gets the rest.
  function NumberedAfter(events: seq<Event>, after: nat): (r: seq<(nat, Event)>)
    ensures |r| == if after <= |events| then |events| - after else 0
    ensures forall i :: 0 <= i < |r| ==> r[i] == (after + i + 1, events[after + i])
  {
    if after <= |events|
    then seq(|events| - after, i requires 0 <= i < |events| - after => (after + i + 1, events[after + i]))
    else []
  }

  method NumberedPublicEvents(log: seq<Event>, after: nat) returns (out: seq<(nat, Event)>)
    ensures out == NumberedAfter(PublicEvents(log), after)
  {
    out := [];
    var number := 0;
    for i := 0 to |log|
      invariant number == |PublicEvents(log[..i])|
      invariant out == NumberedAfter(PublicEvents(log[..i]), after)
    {
      assert log[..i + 1][..i] == log[..i];
      if !log[i].name.Private? {
        number := number + 1;
        if number > after {
          out := out + [(number, log[i])];
        }
      }
    }
    assert log[..|log|] == log;
  }

  /** Appending never renumbers: what was public keeps its place when the log grows. */
  lemma {:induction false} NumbersAreStable(log: seq<Event>, longer: seq<Event>)
    requires log <= longer
    ensures PublicEvents(log) <= PublicEvents(longer)
    decreases |longer|
  {
    if |log| < |longer| {
      NumbersAreStable(log, longer[..|longer| - 1]);
    } else {
      assert log == longer;
    }
  }
}
