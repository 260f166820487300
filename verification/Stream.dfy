/** The server-sent replay of src/searcher/api/events.py: a polling loop over the log, resumed by the
    last id the client saw. */
module Stream {
  import opened Wrappers
  import opened EventLog
  import opened Text

  // ---------------------------------------------------------------- Last-Event-ID

  predicate IsDigit(c: char) {
    '0' <= c <= '9'
  }

  // The digits of a Python integer literal; a single underscore may stand between two digits.
  function Digits(s: string): (value: Option<nat>) {
    if s == "" || !IsDigit(s[|s| - 1]) then None
    else
      var digit: nat := (s[|s| - 1] - '0') as nat;
      if |s| == 1 then Some(digit)
      else
        var front := s[..|s| - 1];
        match Digits(if front[|front| - 1] == '_' then front[..|front| - 1] else front)
        case None => None
        case Some(high) => Some(10 * high + digit)
  }

  function ParseInt(s: string): (value: Option<int>) {
    if s != "" && (s[0] == '+' || s[0] == '-') then
      match Digits(s[1..])
      case None => None
      case Some(n) => (var magnitude: int := n; Some(if s[0] == '-' then -magnitude else magnitude))
    else
      match Digits(s)
      case None => None
      case Some(n) => Some(n)
  }

  // _parse_last_event_id: anything unreadable or negative means "from the beginning".
  function ParseLastEventId(raw: Option<string>): (after: nat) {
    if raw.None? || raw.value == "" then 0
    else
      match ParseInt(Strip(raw.value))
      case None => 0
      case Some(n) => if n < 0 then 0 else n
  }

  // How an id is written in the `id:` field of a message.
  function Decimal(n: nat): (s: string)
    ensures s != "" && forall i :: 0 <= i < |s| ==> IsDigit(s[i])
  {
    if n < 10 then ['0' + n as char] else Decimal(n / 10) + ['0' + (n % 10) as char]
  }

  lemma {:induction false} DigitsOfDecimal(n: nat)
    ensures Digits(Decimal(n)) == Some(n)
  {
    if n >= 10 {
      DigitsOfDecimal(n / 10);
      var s := Decimal(n);
      assert s[..|s| - 1] == Decimal(n / 10);
    }
  }

  /** The id a client echoes back is the id it was sent. */
  lemma LastEventIdRoundTrip(n: nat)
    ensures ParseLastEventId(Some(Decimal(n))) == n
  {
    DigitsOfDecimal(n);
    assert Strip(Decimal(n)) == Decimal(n);
  }

  // ---------------------------------------------------------------- every other header

  // Digits, with single underscores between them.
  predicate IsGrouped(s: string) {
    && s != "" && IsDigit(s[0]) && IsDigit(s[|s| - 1])
    && (forall i :: 0 <= i < |s| ==> IsDigit(s[i]) || s[i] == '_')
    && (forall i :: 0 < i < |s| ==> IsDigit(s[i - 1]) || IsDigit(s[i]))
  }

  function Ungrouped(s: string): (plain: string) {
    if s == "" then "" else Ungrouped(s[..|s| - 1]) + (if s[|s| - 1] == '_' then [] else [s[|s| - 1]])
  }

  function Zeros(n: nat): (zeros: string) {
    seq(n, i => '0')
  }

  // All but the last digit, and the underscore before it.
  function Higher(s: string): (high: string)
    requires |s| > 1
  {
    if s[|s| - 2] == '_' then s[..|s| - 2] else s[..|s| - 1]
  }

  lemma HigherIsGrouped(s: string)
    requires |s| > 1 && IsDigit(s[|s| - 1])
    ensures IsGrouped(s) <==> IsGrouped(Higher(s))
    ensures Ungrouped(s) == Ungrouped(Higher(s)) + [s[|s| - 1]]
  {
    var front := s[..|s| - 1];
    if s[|s| - 2] == '_' {
      assert front[..|front| - 1] == Higher(s);
    }
    if IsGrouped(s) {
      GroupedBelow(s);
    }
    if IsGrouped(Higher(s)) {
      GroupedAbove(s);
    }
  }

  lemma GroupedBelow(s: string)
    requires |s| > 1 && IsGrouped(s)
    ensures IsGrouped(Higher(s))
  {
    hide IsDigit;
    var high := Higher(s);
    assert IsDigit(s[|s| - 2]) || s[|s| - 2] == '_';
    assert !IsDigit('_') by {
      DashesAreNoDigits();
    }
    assert |s| > 2 && s[|s| - 2] == '_' ==> IsDigit(s[|s| - 3]);
    assert forall i :: 0 <= i < |high| ==> high[i] == s[i];
  }

  lemma GroupedAbove(s: string)
    requires |s| > 1 && IsDigit(s[|s| - 1]) && IsGrouped(Higher(s))
    ensures IsGrouped(s)
  {
    hide IsDigit;
    var high := Higher(s);
    assert high[|high| - 1] == s[|high| - 1];
    forall i | 0 <= i < |s| ensures IsDigit(s[i]) || s[i] == '_' {
      assert i < |high| ==> s[i] == high[i];
    }
    forall i | 0 < i < |s| ensures IsDigit(s[i - 1]) || IsDigit(s[i]) {
      assert i < |high| ==> s[i - 1] == high[i - 1] && s[i] == high[i];
    }
  }

  lemma DashesAreNoDigits()
    ensures !IsDigit('_')
  {}

  lemma {:induction false} OnlyGroupedIsRead(s: string)
    ensures Digits(s).Some? ==> IsGrouped(s)
    decreases |s|
  {
    if |s| > 1 && IsDigit(s[|s| - 1]) {
      OnlyGroupedIsRead(Higher(s));
      HigherIsGrouped(s);
      assert s[|s| - 2] == '_' ==> s[..|s| - 1][..|s| - 2] == Higher(s);
    }
  }

  lemma {:induction false} ReadsTheNumber(s: string) returns (zeros: nat)
    requires IsGrouped(s)
    ensures Digits(s).Some? && Ungrouped(s) == Zeros(zeros) + Decimal(Digits(s).value)
    decreases |s|
  {
    if |s| == 1 {
      zeros := 0;
      assert Ungrouped(s) == Ungrouped([]) + [s[0]];
    } else {
      HigherIsGrouped(s);
      assert s[|s| - 2] == '_' ==> s[..|s| - 1][..|s| - 2] == Higher(s);
      var more := ReadsTheNumber(Higher(s));
      zeros := if Digits(Higher(s)).value == 0 then more + 1 else more;
      OneDigitMore(s, Digits(Higher(s)).value, more);
    }
  }

  lemma OneDigitMore(s: string, high: nat, more: nat)
    requires |s| > 1 && IsDigit(s[|s| - 1]) && Digits(Higher(s)) == Some(high)
    requires Ungrouped(s) == Zeros(more) + Decimal(high) + [s[|s| - 1]]
    ensures Digits(s).Some?
            && Ungrouped(s) == Zeros(if high == 0 then more + 1 else more) + Decimal(Digits(s).value)
  {
    var digit: nat := (s[|s| - 1] - '0') as nat;
    DigitsOneMore(s, high);
    hide Ungrouped, Digits, Decimal, Zeros;
    DecimalOneMore(high, digit);
    ZerosOneMore(more);
    if high > 0 {
      assert Zeros(more) + Decimal(high) + [s[|s| - 1]] == Zeros(more) + (Decimal(high) + [s[|s| - 1]]);
    }
  }

  lemma DigitsOneMore(s: string, high: nat)
    requires |s| > 1 && IsDigit(s[|s| - 1]) && Digits(Higher(s)) == Some(high)
    ensures Digits(s) == Some(10 * high + (s[|s| - 1] - '0') as nat)
  {
    assert s[|s| - 2] == '_' ==> s[..|s| - 1][..|s| - 2] == Higher(s);
  }

  lemma DecimalOneMore(high: nat, digit: nat)
    requires digit < 10
    ensures Decimal(10 * high + digit) == (if high == 0 then [] else Decimal(high)) + ['0' + digit as char]
    ensures Decimal(0) == ['0']
  {
    assert (10 * high + digit) / 10 == high && (10 * high + digit) % 10 == digit;
  }

  lemma ZerosOneMore(n: nat)
    ensures Zeros(n) + ['0'] == Zeros(n + 1)
  {}

  /** What a header means: a number, with a plus sign, leading zeros and grouping underscores or without, between
      whitespace; anything else, negative numbers too, means from the beginning. */
  lemma WhatAHeaderMeans(raw: string) returns (zeros: nat)
    ensures var text := Strip(raw);
            var number := if text != "" && text[0] == '+' then text[1..] else text;
            if IsGrouped(number)
            then Ungrouped(number) == Zeros(zeros) + Decimal(ParseLastEventId(Some(raw)))
            else ParseLastEventId(Some(raw)) == 0
  {
    hide Digits, Ungrouped, Zeros, Decimal, IsGrouped;
    zeros := 0;
    var text := Strip(raw);
    var number := if text != "" && text[0] == '+' then text[1..] else text;
    OnlyGroupedIsRead(number);
    NoSignIsGrouped(number);
    if IsGrouped(number) {
      zeros := ReadsTheNumber(number);
    }
  }

  lemma NoSignIsGrouped(s: string)
    ensures IsGrouped(s) ==> s[0] != '-' && s[0] != '+'
  {}

  // ---------------------------------------------------------------- one connection

  // What one turn of the loop observes: the log is read twice, before and after the closed check.
  datatype Poll = Poll(disconnected: bool, deleted: bool, first: seq<Event>, closed: bool, second: seq<Event>)

  // Read in this order, the log only ever grows.
  ghost predicate AppendOnly(polls: seq<Poll>) {
    && (forall i :: 0 <= i < |polls| ==> polls[i].first <= polls[i].second)
    && (forall i, j :: 0 <= i < j < |polls| ==> polls[i].second <= polls[j].first)
  }

  datatype Ending = Disconnected | Deleted | Closed | StillOpen

  // The log a connection has caught up with after n full turns.
  function ReadBy(polls: seq<Poll>, n: nat): (read: seq<Event>)
    requires n <= |polls|
  {
    if n == 0 then [] else polls[n - 1].first
  }

  lemma ReadsGrow(polls: seq<Poll>, i: nat)
    requires AppendOnly(polls) && i < |polls|
    ensures ReadBy(polls, i) <= polls[i].first <= polls[i].second
  {
    if i > 0 {
      assert polls[i - 1].first <= polls[i - 1].second <= polls[i].first;
    }
  }

  // Nothing public was appended between the two reads of this turn.
  predicate NothingRemains(poll: Poll) {
    |PublicEvents(poll.second)| == |PublicEvents(poll.first)|
  }

  // The turn goes on to the next one. A client ahead of the log sees nothing remain either.
  predicate GoesOn(poll: Poll, lastId: nat) {
    !poll.disconnected && !poll.deleted
    && !(poll.closed && (NothingRemains(poll) || lastId >= |PublicEvents(poll.second)|))
  }

  // n turns were taken, each but the last went on, and the connection ended as told.
  ghost predicate EndsAfter(polls: seq<Poll>, lastId: nat, n: nat, sent: seq<(nat, Event)>, ending: Ending) {
    && n <= |polls| && sent == NumberedAfter(PublicEvents(ReadBy(polls, n)), lastId)
    && (forall k :: 0 <= k < n && (k < n - 1 || ending != Closed) ==> GoesOn(polls[k], lastId))
    && (forall k :: 0 <= k < n ==> !polls[k].disconnected && !polls[k].deleted)
    && match ending
       case Disconnected => n < |polls| && polls[n].disconnected
       case Deleted => n < |polls| && !polls[n].disconnected && polls[n].deleted
       case Closed => n > 0 && polls[n - 1].closed && sent == NumberedAfter(PublicEvents(polls[n - 1].second), lastId)
       case StillOpen => n == |polls|
  }

  /** generate(): over any polls it sends exactly the numbered public events of the last log it caught
      up with, after the client's id; a close-triggered return has sent every public event of its final read. */
  method Generate(lastId: nat, polls: seq<Poll>) returns (sent: seq<(nat, Event)>, ending: Ending)
    requires AppendOnly(polls)
    ensures exists turns :: EndsAfter(polls, lastId, turns, sent, ending)
  {
    NothingRead(polls, lastId);
    hide PublicEvents, NumberedAfter, GoesOn, AppendOnly, EndsAfter, ReadBy;
    var cursor := lastId;
    sent := [];
    for i := 0 to |polls|
      invariant Caught(polls, lastId, i, sent) && cursor == lastId + |sent|
    {
      var poll := polls[i];
      if poll.disconnected || poll.deleted {
        ending := if poll.disconnected then Disconnected else Deleted;
        CutOff(polls, lastId, i, sent);
        return;
      }
      ReadsGrow(polls, i);
      var batch: seq<(nat, Event)>, closing: bool;
      batch, cursor, closing := Turn(poll, cursor, lastId, ReadBy(polls, i), sent);
      ghost var more := sent + batch;
      if closing {
        ClosedAfter(polls, lastId, i, sent, more);
        return sent + batch, Closed;
      }
      OneMoreTurn(polls, lastId, i, sent, more);
      sent := sent + batch;
    }
    ending := StillOpen;
    OutOfPolls(polls, lastId, sent);
  }

  /** A connection goes on after its campaign is closed only while there is more to send, and only while nobody has
      left or deleted. */
  lemma GoesOnForMore(polls: seq<Poll>, lastId: nat, n: nat, sent: seq<(nat, Event)>, ending: Ending, k: nat)
    requires AppendOnly(polls) && EndsAfter(polls, lastId, n, sent, ending) && k < n
    ensures !polls[k].disconnected && !polls[k].deleted
    ensures polls[k].closed && (k < n - 1 || ending != Closed) ==>
              && PublicEvents(polls[k].first) < PublicEvents(polls[k].second)
              && lastId < |PublicEvents(polls[k].second)|
  {
    hide PublicEvents, NumberedAfter;
    NumbersAreStable(polls[k].first, polls[k].second);
  }

  // n turns were taken, all of them went on, and everything read in them was sent.
  ghost predicate Caught(polls: seq<Poll>, lastId: nat, n: nat, sent: seq<(nat, Event)>) {
    && n <= |polls| && sent == NumberedAfter(PublicEvents(ReadBy(polls, n)), lastId)
    && forall k :: 0 <= k < n ==> GoesOn(polls[k], lastId)
  }

  lemma NothingRead(polls: seq<Poll>, lastId: nat)
    ensures Caught(polls, lastId, 0, [])
  {
    assert PublicEvents([]) == [];
  }

  lemma OneMoreTurn(polls: seq<Poll>, lastId: nat, n: nat, sent: seq<(nat, Event)>, more: seq<(nat, Event)>)
    requires n < |polls| && Caught(polls, lastId, n, sent) && GoesOn(polls[n], lastId)
    requires more == NumberedAfter(PublicEvents(polls[n].first), lastId)
    ensures Caught(polls, lastId, n + 1, more)
  {
    hide PublicEvents, NumberedAfter, GoesOn;
  }

  lemma CutOff(polls: seq<Poll>, lastId: nat, n: nat, sent: seq<(nat, Event)>)
    requires n < |polls| && Caught(polls, lastId, n, sent) && (polls[n].disconnected || polls[n].deleted)
    ensures EndsAfter(polls, lastId, n, sent, if polls[n].disconnected then Disconnected else Deleted)
  {
    hide PublicEvents, NumberedAfter, NothingRemains;
  }

  lemma ClosedAfter(polls: seq<Poll>, lastId: nat, n: nat, sent: seq<(nat, Event)>, more: seq<(nat, Event)>)
    requires n < |polls| && Caught(polls, lastId, n, sent) && polls[n].closed
    requires !polls[n].disconnected && !polls[n].deleted
    requires more == NumberedAfter(PublicEvents(polls[n].first), lastId)
             == NumberedAfter(PublicEvents(polls[n].second), lastId)
    ensures EndsAfter(polls, lastId, n + 1, more, Closed)
  {
    hide PublicEvents, NumberedAfter, NothingRemains;
  }

  lemma OutOfPolls(polls: seq<Poll>, lastId: nat, sent: seq<(nat, Event)>)
    requires Caught(polls, lastId, |polls|, sent)
    ensures EndsAfter(polls, lastId, |polls|, sent, StillOpen)
  {
    hide PublicEvents, NumberedAfter, NothingRemains;
  }

  // One turn: send what is new, then look once more if the campaign is closed.
  method Turn(poll: Poll, cursor: nat, ghost lastId: nat, ghost read: seq<Event>, ghost sent: seq<(nat, Event)>)
    returns (batch: seq<(nat, Event)>, after: nat, closing: bool)
    requires read <= poll.first <= poll.second && !poll.disconnected && !poll.deleted
    requires sent == NumberedAfter(PublicEvents(read), lastId) && cursor == lastId + |sent|
    ensures sent + batch == NumberedAfter(PublicEvents(poll.first), lastId) && after == cursor + |batch|
    ensures closing <==> !GoesOn(poll, lastId)
    ensures closing ==> poll.closed && sent + batch == NumberedAfter(PublicEvents(poll.second), lastId)
  {
    hide PublicEvents, NumberedAfter, GoesOn;
    batch := NumberedPublicEvents(poll.first, cursor);
    CatchUp(read, poll.first, lastId, cursor, sent);
    after := cursor;
    for k := 0 to |batch|
      invariant after == cursor + k
    {
      after := batch[k].0;
    }
    var remaining := NumberedPublicEvents(poll.second, after);
    closing := poll.closed && remaining == [];
    TurnGoesOn(poll, lastId);
    if closing {
      CatchUp(poll.first, poll.second, lastId, after, sent + batch);
    }
  }

  lemma TurnGoesOn(poll: Poll, lastId: nat)
    requires poll.first <= poll.second && !poll.disconnected && !poll.deleted
    ensures var cursor := lastId + |NumberedAfter(PublicEvents(poll.first), lastId)|;
            GoesOn(poll, lastId) <==> !(poll.closed && NumberedAfter(PublicEvents(poll.second), cursor) == [])
  {
    NumbersAreStable(poll.first, poll.second);
  }

  lemma CatchUp(read: seq<Event>, longer: seq<Event>, lastId: nat, cursor: nat, sent: seq<(nat, Event)>)
    requires read <= longer
    requires sent == NumberedAfter(PublicEvents(read), lastId) && cursor == lastId + |sent|
    ensures sent + NumberedAfter(PublicEvents(longer), cursor) == NumberedAfter(PublicEvents(longer), lastId)
  {
    NumbersAreStable(read, longer);
    TheRestFollows(PublicEvents(read), PublicEvents(longer), lastId);
  }

  lemma TheRestFollows(some: seq<Event>, all: seq<Event>, after: nat)
    requires some <= all
    ensures NumberedAfter(some, after) + NumberedAfter(all, after + |NumberedAfter(some, after)|)
            == NumberedAfter(all, after)
  {}

  // ---------------------------------------------------------------- any number of connections

  // One connection as the client lives it: the log the server last read for it, and how many of the
  // messages sent arrived before the connection was lost.
  datatype Session = Session(read: seq<Event>, arrived: nat)

  function LastNumber(received: seq<(nat, Event)>): (n: nat) {
    if received == [] then 0 else received[|received| - 1].0
  }

  // The Last-Event-ID header: the last id received, as the WHATWG HTML Standard, section 9.2, has clients send it.
  function Header(received: seq<(nat, Event)>): (raw: Option<string>) {
    if received == [] then None else Some(Decimal(LastNumber(received)))
  }

  function FirstOf(sent: seq<(nat, Event)>, arrived: nat): (messages: seq<(nat, Event)>) {
    if arrived < |sent| then sent[..arrived] else sent
  }

  function Reconnect(received: seq<(nat, Event)>, session: Session): (more: seq<(nat, Event)>) {
    received + FirstOf(NumberedAfter(PublicEvents(session.read), ParseLastEventId(Header(received))), session.arrived)
  }

  function ReceiveAll(sessions: seq<Session>): (received: seq<(nat, Event)>)
    decreases |sessions|
  {
    if sessions == [] then [] else Reconnect(ReceiveAll(sessions[..|sessions| - 1]), sessions[|sessions| - 1])
  }

  ghost predicate Within(sessions: seq<Session>, log: seq<Event>) {
    forall i :: 0 <= i < |sessions| ==> sessions[i].read <= log
  }

  lemma MessagesExtend(all: seq<Event>, read: seq<Event>, n: nat, arrived: nat)
    requires read <= all && n <= |all| && arrived <= |NumberedAfter(read, n)|
    ensures NumberedAfter(all, 0)[..n] + NumberedAfter(read, n)[..arrived]
            == NumberedAfter(all, 0)[..n + arrived]
  {}

  lemma OneReconnect(received: seq<(nat, Event)>, session: Session, log: seq<Event>)
    requires received <= NumberedAfter(PublicEvents(log), 0) && session.read <= log
    ensures Reconnect(received, session) <= NumberedAfter(PublicEvents(log), 0)
    ensures session.arrived >= |PublicEvents(session.read)| ==>
              NumberedAfter(PublicEvents(session.read), 0) <= Reconnect(received, session)
  {
    var all, n := PublicEvents(log), |received|;
    assert received == NumberedAfter(all, 0)[..n];
    assert LastNumber(received) == n;
    if received != [] {
      LastEventIdRoundTrip(n);
    }
    NumbersAreStable(session.read, log);
    var sent := NumberedAfter(PublicEvents(session.read), n);
    MessagesExtend(all, PublicEvents(session.read), n, if session.arrived < |sent| then session.arrived else |sent|);
    assert sent[..|sent|] == sent;
  }

  /** However often the client is cut off and reconnects, what it has received is a gap-free,
      duplicate-free prefix of the public events under their final numbers. */
  lemma {:induction false} ReplayIsExactlyOnce(sessions: seq<Session>, log: seq<Event>)
    requires Within(sessions, log)
    ensures ReceiveAll(sessions) <= NumberedAfter(PublicEvents(log), 0)
    decreases |sessions|
  {
    if sessions != [] {
      var front, last := sessions[..|sessions| - 1], sessions[|sessions| - 1];
      ReplayIsExactlyOnce(front, log);
      OneReconnect(ReceiveAll(front), last, log);
    }
  }

  /** A session that is not cut off leaves the client with every public event its last read showed. */
  lemma UncutSessionCatchesUp(sessions: seq<Session>, log: seq<Event>)
    requires Within(sessions, log) && sessions != []
    requires sessions[|sessions| - 1].arrived >= |PublicEvents(sessions[|sessions| - 1].read)|
    ensures NumberedAfter(PublicEvents(sessions[|sessions| - 1].read), 0) <= ReceiveAll(sessions)
  {
    ReplayIsExactlyOnce(sessions[..|sessions| - 1], log);
    OneReconnect(ReceiveAll(sessions[..|sessions| - 1]), sessions[|sessions| - 1], log);
  }

  // An event's id is its place.
  ghost predicate IdsArePlaces(log: seq<Event>) {
    forall i :: 0 <= i < |log| ==> log[i].id == i
  }

  /** What a gap-free prefix is of a log whose ids are places: events of that log, in its order, none twice, and
      every public event up to the last one received. */
  lemma {:induction false} EachEventOnce(received: seq<(nat, Event)>, log: seq<Event>)
    requires received <= NumberedAfter(PublicEvents(log), 0) && IdsArePlaces(log)
    ensures forall i :: 0 <= i < |received| ==>
              && received[i].0 == i + 1 && !received[i].1.name.Private?
              && received[i].1.id < |log| && log[received[i].1.id] == received[i].1
    ensures forall i, j :: 0 <= i < j < |received| ==> received[i].1.id < received[j].1.id
    ensures forall e :: e in log && !e.name.Private? && received != [] && e.id <= received[|received| - 1].1.id ==>
              exists i :: 0 <= i < |received| && received[i].1 == e
  {
    var places := PublicEventsAreTheLogs(log);
    PrefixPicks(received, log, places);
    hide NumberedAfter, PublicEvents;
    forall e | e in log && !e.name.Private? && received != [] && e.id <= received[|received| - 1].1.id
      ensures exists i :: 0 <= i < |received| && received[i].1 == e
    {
      var i := EarlierIsPicked(received, log, places, e);
    }
  }

  // What was received is what lies at the first of these places.
  ghost predicate Picks(received: seq<(nat, Event)>, log: seq<Event>, places: seq<nat>) {
    && |received| <= |places| && ArePlaces(log, places)
    && forall i :: 0 <= i < |received| ==> received[i] == (i + 1, log[places[i]])
  }

  lemma PrefixPicks(received: seq<(nat, Event)>, log: seq<Event>, places: seq<nat>)
    requires received <= NumberedAfter(PublicEvents(log), 0)
    requires ArePlaces(log, places) && |places| == |PublicEvents(log)|
    requires forall k :: 0 <= k < |places| ==> PublicEvents(log)[k] == log[places[k]]
    ensures Picks(received, log, places)
  {
    hide PublicEvents, ArePlaces;
    forall i | 0 <= i < |received| ensures received[i] == (i + 1, PublicEvents(log)[i]) {
      assert received[i] == NumberedAfter(PublicEvents(log), 0)[i];
    }
  }

  lemma EarlierIsPicked(received: seq<(nat, Event)>, log: seq<Event>, places: seq<nat>, e: Event) returns (i: nat)
    requires Picks(received, log, places) && IdsArePlaces(log) && received != []
    requires e in log && !e.name.Private? && e.id <= received[|received| - 1].1.id
    ensures i < |received| && received[i].1 == e
  {
    assert e.id in places;
    i :| i < |places| && places[i] == e.id;
  }

  // ---------------------------------------------------------------- end to end

  // One connection as it was: what the server polled, how generate() came back, and how many of the
  // messages it sent arrived.
  datatype Connection = Connection(polls: seq<Poll>, turns: nat, sent: seq<(nat, Event)>, ending: Ending, arrived: nat)

  function Received(connections: seq<Connection>): (received: seq<(nat, Event)>)
    decreases |connections|
  {
    if connections == [] then []
    else
      var last := connections[|connections| - 1];
      Received(connections[..|connections| - 1]) + FirstOf(last.sent, last.arrived)
  }

  // Every connection was served by generate(), from the header the client had by then.
  ghost predicate Served(connections: seq<Connection>)
    decreases |connections|
  {
    connections != [] ==>
      var front, last := connections[..|connections| - 1], connections[|connections| - 1];
      && Served(front) && AppendOnly(last.polls)
      && EndsAfter(last.polls, ParseLastEventId(Header(Received(front))), last.turns, last.sent, last.ending)
  }

  ghost predicate PolledWithin(connections: seq<Connection>, log: seq<Event>) {
    forall i, k :: 0 <= i < |connections| && 0 <= k < |connections[i].polls| ==> connections[i].polls[k].second <= log
  }

  // The log a connection caught up with is one of the log's own prefixes.
  lemma ReadWithin(c: Connection, lastId: nat, log: seq<Event>)
    requires AppendOnly(c.polls) && EndsAfter(c.polls, lastId, c.turns, c.sent, c.ending)
    requires forall k :: 0 <= k < |c.polls| ==> c.polls[k].second <= log
    ensures c.turns <= |c.polls| && ReadBy(c.polls, c.turns) <= log
  {
    hide PublicEvents, NumberedAfter, GoesOn;
    if c.turns > 0 {
      assert c.polls[c.turns - 1].first <= c.polls[c.turns - 1].second;
    }
  }

  // A served connection is a session over what its last turn read.
  lemma ConnectionIsASession(received: seq<(nat, Event)>, c: Connection)
    requires EndsAfter(c.polls, ParseLastEventId(Header(received)), c.turns, c.sent, c.ending)
    ensures received + FirstOf(c.sent, c.arrived) == Reconnect(received, Session(ReadBy(c.polls, c.turns), c.arrived))
  {
    hide PublicEvents, NumberedAfter, GoesOn, ParseLastEventId;
  }

  /** End to end: over any connections, each polled, cut off and closed anywhere, the client receives a gap-free,
      duplicate-free prefix of the public events; after a close it did not lose a message of, all that the
      final read showed. */
  lemma {:induction false} ClientReceivesExactlyOnce(connections: seq<Connection>, log: seq<Event>)
    requires Served(connections) && PolledWithin(connections, log)
    ensures Received(connections) <= NumberedAfter(PublicEvents(log), 0)
    ensures connections != [] && connections[|connections| - 1].ending == Closed
            && connections[|connections| - 1].arrived >= |connections[|connections| - 1].sent| ==>
              var last := connections[|connections| - 1];
              && last.turns > 0 && last.turns <= |last.polls|
              && NumberedAfter(PublicEvents(last.polls[last.turns - 1].second), 0) <= Received(connections)
    decreases |connections|
  {
    hide PublicEvents, NumberedAfter, GoesOn, ParseLastEventId, EndsAfter, AppendOnly, Header, Reconnect, ReadBy;
    if connections != [] {
      var front, last := connections[..|connections| - 1], connections[|connections| - 1];
      assert PolledWithin(front, log) by {
        assert forall i :: 0 <= i < |front| ==> front[i] == connections[i];
      }
      ClientReceivesExactlyOnce(front, log);
      var received := Received(front);
      ReadWithin(last, ParseLastEventId(Header(received)), log);
      ConnectionIsASession(received, last);
      OneReconnect(received, Session(ReadBy(last.polls, last.turns), last.arrived), log);
      if last.ending == Closed && last.arrived >= |last.sent| {
        ClosedLeavesNothing(received, last, log);
      }
    }
  }

  /** End to end on the log itself: whatever the connections were, no event reaches the client twice or out of
      order, none that is private or not in the log, and no public one is missing before the last received. */
  lemma ClientSeesEachEventOnce(connections: seq<Connection>, log: seq<Event>)
    requires Served(connections) && PolledWithin(connections, log) && IdsArePlaces(log)
    ensures var received := Received(connections);
            && (forall i :: 0 <= i < |received| ==>
                  received[i].1 in log && !received[i].1.name.Private? && received[i].0 == i + 1)
            && (forall i, j :: 0 <= i < j < |received| ==> received[i].1.id < received[j].1.id)
            && (forall e :: e in log && !e.name.Private? && received != [] && e.id <= received[|received| - 1].1.id ==>
                  exists i :: 0 <= i < |received| && received[i].1 == e)
  {
    hide Served, PolledWithin, PublicEvents, NumberedAfter, IdsArePlaces;
    ClientReceivesExactlyOnce(connections, log);
    EachEventOnce(Received(connections), log);
  }

  // After a close nothing of the final read is missing.
  lemma ClosedLeavesNothing(received: seq<(nat, Event)>, c: Connection, log: seq<Event>)
    requires received <= NumberedAfter(PublicEvents(log), 0) && AppendOnly(c.polls)
    requires forall k :: 0 <= k < |c.polls| ==> c.polls[k].second <= log
    requires EndsAfter(c.polls, ParseLastEventId(Header(received)), c.turns, c.sent, c.ending)
    requires c.ending == Closed && c.arrived >= |c.sent|
    ensures 0 < c.turns <= |c.polls|
    ensures NumberedAfter(PublicEvents(c.polls[c.turns - 1].second), 0) <= received + FirstOf(c.sent, c.arrived)
  {
    hide PublicEvents, NumberedAfter, GoesOn, ParseLastEventId, Header, Reconnect;
    var final := c.polls[c.turns - 1].second;
    OneReconnect(received, Session(final, |PublicEvents(final)| + c.arrived), log);
    AllArrives(received, final, c.sent, c.arrived);
  }

  lemma AllArrives(received: seq<(nat, Event)>, final: seq<Event>, sent: seq<(nat, Event)>, arrived: nat)
    requires sent == NumberedAfter(PublicEvents(final), ParseLastEventId(Header(received))) && arrived >= |sent|
    ensures Reconnect(received, Session(final, |PublicEvents(final)| + arrived)) == received + FirstOf(sent, arrived)
  {
    hide PublicEvents, ParseLastEventId, Header;
  }

  lemma {:induction false} GrowsIffPublic(log: seq<Event>, longer: seq<Event>)
    requires log <= longer
    ensures |PublicEvents(longer)| == |PublicEvents(log)|
            <==> forall i :: |log| <= i < |longer| ==> longer[i].name.Private?
    ensures PublicEvents(log) <= PublicEvents(longer)
    decreases |longer|
  {
    if |log| < |longer| {
      var front := longer[..|longer| - 1];
      GrowsIffPublic(log, front);
      assert forall i :: |log| <= i < |front| ==> front[i] == longer[i];
    } else {
      assert log == longer;
    }
  }

  lemma Suffix(shorter: seq<Event>, all: seq<Event>, after: nat)
    requires shorter <= all && after <= |shorter|
    ensures NumberedAfter(shorter, after) + NumberedAfter(all, |shorter|) == NumberedAfter(all, after)
    ensures NumberedAfter(shorter, after) == NumberedAfter(all, after) <==> |shorter| == |all|
  {}

  /** What a close leaves for a reconnect is exactly the public events appended after its final read:
      nothing is missed if and only if there were none. */
  lemma WhatACloseLeavesBehind(final: seq<Event>, later: seq<Event>, lastId: nat)
    requires final <= later && lastId <= |PublicEvents(final)|
    ensures NumberedAfter(PublicEvents(final), lastId) + NumberedAfter(PublicEvents(later), |PublicEvents(final)|)
            == NumberedAfter(PublicEvents(later), lastId)
    ensures NumberedAfter(PublicEvents(final), lastId) == NumberedAfter(PublicEvents(later), lastId)
            <==> forall i :: |final| <= i < |later| ==> later[i].name.Private?
  {
    GrowsIffPublic(final, later);
    Suffix(PublicEvents(final), PublicEvents(later), lastId);
  }
}
