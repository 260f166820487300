/** Idempotent worker tasks: run_task and commit_packet of src/searcher/campaigns/controller.py over
    the task table, whose key is (search id, idempotency key). */
module Tasks {
  import opened Wrappers

  datatype Key = Key(searchId: string, idempotencyKey: string)

  datatype Packet = Packet(taskId: string, searchId: string, idempotencyKey: string, evidence: seq<string>,
                           reused: bool)

  datatype Capsule = Capsule(searchId: string, idempotencyKey: string)

  // A stored task; body is None when the stored payload carries no evidence list. Dumping a packet
  // and validating the dump are taken as inverse, so a body is the packet itself.
  datatype TaskRow = TaskRow(taskId: string, body: Option<Packet>)

  datatype Store = Store(tasks: map<Key, TaskRow>, evidence: seq<string>)

  // What the worker does if it is run.
  datatype Work = Returns(packet: Packet) | ReturnsOther | Raises

  datatype TaskError = NotAPacket | DifferentKey | WorkerRaised

  function KeyOf(capsule: Capsule): Key {
    Key(capsule.searchId, capsule.idempotencyKey)
  }

  // The row the packet is filed under: its own search id, not the capsule's.
  function FiledUnder(packet: Packet): Key {
    Key(packet.searchId, packet.idempotencyKey)
  }

  function Commit(store: Store, packet: Packet): Store {
    if FiledUnder(packet) in store.tasks then store
    else Store(store.tasks[FiledUnder(packet) := TaskRow(packet.taskId, Some(packet))],
               store.evidence + packet.evidence)
  }

  datatype Run = Run(store: Store, result: Result<Packet, TaskError>, ran: bool)

  function RunOn(store: Store, capsule: Capsule, work: Work): Run {
    if KeyOf(capsule) in store.tasks then
      var row := store.tasks[KeyOf(capsule)];
      Run(store, Success(if row.body.Some? then row.body.value
                         else Packet(row.taskId, capsule.searchId, capsule.idempotencyKey, [], true)), false)
    else
      match work
      case Raises => Run(store, Failure(WorkerRaised), true)
      case ReturnsOther => Run(store, Failure(NotAPacket), true)
      case Returns(packet) =>
        if packet.idempotencyKey != capsule.idempotencyKey then Run(store, Failure(DifferentKey), true)
        else Run(Commit(store, packet), Success(packet), true)
  }

  class TaskController {
    var tasks: map<Key, TaskRow>
    var evidence: seq<string>

    ghost function View(): Store
      reads this
    {
      Store(tasks, evidence)
    }

    constructor ()
      ensures View() == Store(map[], [])
    {
      tasks, evidence := map[], [];
    }

    method CommitPacket(packet: Packet)
      modifies this
      ensures View() == Commit(old(View()), packet)
    {
      if FiledUnder(packet) in tasks {
        return;
      }
      ghost var before := evidence;
      for i := 0 to |packet.evidence|
        invariant tasks == old(tasks) && evidence == before + packet.evidence[..i]
      {
        evidence := evidence + [packet.evidence[i]];
      }
      assert packet.evidence[..|packet.evidence|] == packet.evidence;
      tasks := tasks[FiledUnder(packet) := TaskRow(packet.taskId, Some(packet))];
    }

    /** run_task: the worker is run only when no task is stored under the capsule's key. */
    method RunTask(capsule: Capsule, work: Work) returns (result: Result<Packet, TaskError>, ran: bool)
      modifies this
      ensures Run(View(), result, ran) == RunOn(old(View()), capsule, work)
      ensures ran <==> KeyOf(capsule) !in old(tasks)
    {
      if KeyOf(capsule) in tasks {
        var row := tasks[KeyOf(capsule)];
        if row.body.Some? {
          return Success(row.body.value), false;
        }
        return Success(Packet(row.taskId, capsule.searchId, capsule.idempotencyKey, [], true)), false;
      }
      match work {
        case Raises => return Failure(WorkerRaised), true;
        case ReturnsOther => return Failure(NotAPacket), true;
        case Returns(packet) =>
          if packet.idempotencyKey != capsule.idempotencyKey {
            return Failure(DifferentKey), true;
          }
          CommitPacket(packet);
          return Success(packet), true;
      }
    }
  }

  // ---------------------------------------------------------------- whole sequences of calls

  datatype Call = Call(capsule: Capsule, work: Work)

  function RunAll(calls: seq<Call>): (store: Store)
    decreases |calls|
  {
    if calls == [] then Store(map[], [])
    else RunOn(RunAll(calls[..|calls| - 1]), calls[|calls| - 1].capsule, calls[|calls| - 1].work).store
  }

  predicate IsFiled(filed: seq<Packet>, key: Key) {
    exists i :: 0 <= i < |filed| && FiledUnder(filed[i]) == key
  }

  // The packets that are filed, in the order of their calls: the first one under each key. A worker is asked while
  // nothing is filed under its capsule's key, and what it returns may belong to another campaign.
  function Filings(calls: seq<Call>): (filed: seq<Packet>)
    decreases |calls|
  {
    if calls == [] then []
    else
      var earlier, call := Filings(calls[..|calls| - 1]), calls[|calls| - 1];
      if IsFiled(earlier, KeyOf(call.capsule)) || !call.work.Returns? then earlier
      else
        var packet := call.work.packet;
        if packet.idempotencyKey != call.capsule.idempotencyKey || IsFiled(earlier, FiledUnder(packet)) then earlier
        else earlier + [packet]
  }

  function EvidenceOf(filed: seq<Packet>): (evidence: seq<string>) {
    if filed == [] then [] else EvidenceOf(filed[..|filed| - 1]) + filed[|filed| - 1].evidence
  }

  // The task table holds exactly the filed packets, one to a key, and the evidence table their evidence.
  ghost predicate Holds(store: Store, filed: seq<Packet>) {
    && (forall key :: key in store.tasks <==> IsFiled(filed, key))
    && (forall i :: 0 <= i < |filed| ==>
          FiledUnder(filed[i]) in store.tasks && store.tasks[FiledUnder(filed[i])].body == Some(filed[i]))
    && (forall i, j :: 0 <= i < j < |filed| ==> FiledUnder(filed[i]) != FiledUnder(filed[j]))
    && store.evidence == EvidenceOf(filed)
  }

  lemma FilingHolds(store: Store, filed: seq<Packet>, packet: Packet)
    requires Holds(store, filed) && !IsFiled(filed, FiledUnder(packet))
    ensures Holds(Commit(store, packet), filed + [packet])
  {
    hide IsFiled, EvidenceOf;
    var longer, next := filed + [packet], Commit(store, packet);
    EvidenceOneMore(filed, packet);
    forall key ensures key in next.tasks <==> IsFiled(longer, key) {
      FiledOneMore(filed, packet, key);
    }
    forall i | 0 <= i < |filed| ensures FiledUnder(filed[i]) != FiledUnder(packet) {
      FiledAt(filed, i);
    }
    forall i | 0 <= i < |longer|
      ensures FiledUnder(longer[i]) in next.tasks && next.tasks[FiledUnder(longer[i])].body == Some(longer[i])
    {
      if i < |filed| {
        assert longer[i] == filed[i];
      }
    }
    forall i, j | 0 <= i < j < |longer| ensures FiledUnder(longer[i]) != FiledUnder(longer[j]) {
      assert longer[i] == filed[i] && (j < |filed| ==> longer[j] == filed[j]);
    }
  }

  lemma EvidenceOneMore(filed: seq<Packet>, packet: Packet)
    ensures EvidenceOf(filed + [packet]) == EvidenceOf(filed) + packet.evidence
  {
    assert (filed + [packet])[..|filed|] == filed;
  }

  lemma FiledAt(filed: seq<Packet>, i: nat)
    requires i < |filed|
    ensures IsFiled(filed, FiledUnder(filed[i]))
  {}

  lemma FiledOneMore(filed: seq<Packet>, packet: Packet, key: Key)
    ensures IsFiled(filed + [packet], key) <==> IsFiled(filed, key) || FiledUnder(packet) == key
  {
    var longer := filed + [packet];
    assert longer[|filed|] == packet;
    if i :| 0 <= i < |filed| && FiledUnder(filed[i]) == key {
      assert longer[i] == filed[i];
    }
  }

  lemma {:induction false} FilingsAreHeld(calls: seq<Call>)
    ensures Holds(RunAll(calls), Filings(calls))
    decreases |calls|
  {
    hide Holds;
    if calls == [] {
      NothingIsHeld();
    } else {
      var front, call := calls[..|calls| - 1], calls[|calls| - 1];
      FilingsAreHeld(front);
      HeldKeys(RunAll(front), Filings(front), KeyOf(call.capsule));
      if call.work.Returns? {
        HeldKeys(RunAll(front), Filings(front), FiledUnder(call.work.packet));
        if !IsFiled(Filings(front), FiledUnder(call.work.packet)) {
          FilingHolds(RunAll(front), Filings(front), call.work.packet);
        }
      }
    }
  }

  lemma NothingIsHeld()
    ensures Holds(RunAll([]), Filings([]))
  {}

  lemma HeldKeys(store: Store, filed: seq<Packet>, key: Key)
    requires Holds(store, filed)
    ensures key in store.tasks <==> IsFiled(filed, key)
  {}

  /** A repeated task never repeats work: a worker is run if and only if no packet is filed under its capsule's key,
      and every later call returns the one that is and changes nothing; only filed packets' evidence is committed. */
  lemma WorkIsDoneOnce(calls: seq<Call>, next: Call)
    ensures var filed := Filings(calls);
            var run := RunOn(RunAll(calls), next.capsule, next.work);
            && (run.ran <==> !IsFiled(filed, KeyOf(next.capsule)))
            && (forall i :: 0 <= i < |filed| && FiledUnder(filed[i]) == KeyOf(next.capsule) ==>
                  run.result == Success(filed[i]) && run.store == RunAll(calls))
            && (forall i, j :: 0 <= i < j < |filed| ==> FiledUnder(filed[i]) != FiledUnder(filed[j]))
            && RunAll(calls).evidence == EvidenceOf(filed)
  {
    FilingsAreHeld(calls);
  }

  /** A call fails exactly when it runs a worker that gives no packet for the capsule, and says why; that leaves no
      trace, so the next call asks again. What a worker gives for the capsule is the answer. */
  lemma FailuresLeaveNoTrace(calls: seq<Call>, next: Call)
    requires !IsFiled(Filings(calls), KeyOf(next.capsule))
    ensures var run := RunOn(RunAll(calls), next.capsule, next.work);
            && (run.result.Failure? <==> !next.work.Returns?
                                         || next.work.packet.idempotencyKey != next.capsule.idempotencyKey)
            && (run.result == Failure(WorkerRaised) <==> next.work.Raises?)
            && (run.result == Failure(NotAPacket) <==> next.work.ReturnsOther?)
            && (run.result.Success? ==> run.result.value == next.work.packet)
            && (run.result.Failure? ==>
                  run.store == RunAll(calls) && Filings(calls + [next]) == Filings(calls)
                  && forall again :: RunOn(run.store, next.capsule, again).ran)
  {
    hide Holds, IsFiled, Filings;
    FilingsAreHeld(calls);
    HeldKeys(RunAll(calls), Filings(calls), KeyOf(next.capsule));
    if !next.work.Returns? || next.work.packet.idempotencyKey != next.capsule.idempotencyKey {
      NothingFiled(calls, next);
    }
  }

  lemma NothingFiled(calls: seq<Call>, next: Call)
    requires !next.work.Returns? || next.work.packet.idempotencyKey != next.capsule.idempotencyKey
    ensures Filings(calls + [next]) == Filings(calls)
  {
    hide IsFiled;
    assert (calls + [next])[..|calls|] == calls;
  }

  /** A task that was stored without evidence is not run again either: the answer is an empty packet for the capsule. */
  lemma StoredIsNotRunAgain(store: Store, capsule: Capsule, work: Work)
    requires KeyOf(capsule) in store.tasks && store.tasks[KeyOf(capsule)].body == None
    ensures var run := RunOn(store, capsule, work);
            && !run.ran && run.store == store && run.result.Success?
            && FiledUnder(run.result.value) == KeyOf(capsule) && run.result.value.evidence == []
            && run.result.value.reused && run.result.value.taskId == store.tasks[KeyOf(capsule)].taskId
  {}

  /** The exact limit: a second call of a new capsule reuses the first packet if and only if the worker
      put the capsule's own search id on it. run_task does not check that. */
  lemma RepeatReusesIffSearchIdMatches(store: Store, capsule: Capsule, packet: Packet, again: Work)
    requires KeyOf(capsule) !in store.tasks && packet.idempotencyKey == capsule.idempotencyKey
    ensures var once := RunOn(store, capsule, Returns(packet));
            once.ran && once.result == Success(packet)
            && (RunOn(once.store, capsule, again).ran <==> packet.searchId != capsule.searchId)
            && (packet.searchId == capsule.searchId ==> RunOn(once.store, capsule, again).result == Success(packet))
  {}
}
