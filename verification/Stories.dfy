/** What the search.state events of a log tell about the commits of a campaign: transition() commits a version in
    one database transaction and announces it in another, so a version can be announced late, or never. */
module Stories {
  import opened Wrappers
  import opened Transitions
  import opened EventLog
  import opened Controller

  // What one search.state event says.
  datatype Tiding = Tiding(version: nat, state: CampaignState)

  // The tidings that one more commit brings: its own, and that of the one it overtook.
  function TidingsOf(before: seq<Commit>, next: Commit): (tidings: seq<Tiding>) {
    var n := |before|;
    if next.telling != AtOnce then []
    else [Tiding(n, next.state)]
         + (if n > 0 && before[n - 1].telling == Late then [Tiding(n - 1, before[n - 1].state)] else [])
  }

  // The tidings of a row's commits in the order of their events: a late one comes after the cancellation that
  // overtook it.
  function Story(commits: seq<Commit>): (tidings: seq<Tiding>) {
    if commits == [] then []
    else Story(commits[..|commits| - 1]) + TidingsOf(commits[..|commits| - 1], commits[|commits| - 1])
  }

  predicate Tells(e: Event, t: Tiding) {
    e.version == t.version && e.state == Some(t.state)
  }

  ghost predicate Retells(log: seq<Event>, commits: seq<Commit>) {
    && |Announced(log)| == |Story(commits)|
    && forall i :: 0 <= i < |Story(commits)| ==> Tells(Announced(log)[i], Story(commits)[i])
  }

  // A version that is overtaken is overtaken by a cancellation, which is announced at once.
  predicate Overtakes(commits: seq<Commit>, k: nat)
    requires k < |commits|
  {
    commits[k].telling == Late && k + 1 < |commits| ==> commits[k + 1] == Commit(Cancelled, AtOnce)
  }

  // The commits are the row's life by version, each a legal edge from the one before.
  ghost predicate IsPast(commits: seq<Commit>, row: Row) {
    && |commits| == row.version + 1
    && commits[0] == Commit(Created, AtOnce) && commits[row.version].state == row.state
    && (forall k :: 0 <= k < |commits| ==> Overtakes(commits, k))
    && (forall k :: 0 < k < |commits| ==> commits[k].state in Forward(commits[k - 1].state))
    && (IsTerminal(row.state) <==> row.verdict == Some(row.state))
    && (!IsTerminal(row.state) ==> row.verdict == None)
  }

  // The chain is intact, and the log tells the row's past as far as it was announced.
  ghost predicate Retold(c: Campaign) {
    && ChainOk(c.log) && IsPast(c.commits, c.row) && Retells(c.log, c.commits)
    && c.commits[c.row.version].telling != Late
  }

  // ---------------------------------------------------------------- the controller's writes

  lemma CommittedIsPast(c: Campaign, target: CampaignState, ctx: TransitionContext, telling: Telling)
    requires IsPast(c.commits, c.row) && c.commits[c.row.version].telling != Late && target in Forward(c.row.state)
    ensures var v := Committed(c, target, ctx, telling); IsPast(v.commits, v.row)
  {
    hide Written, Forward;
    var v := Committed(c, target, ctx, telling);
    WrittenVerdict(c.row, target, ctx);
    forall k | 0 <= k < |v.commits| ensures Overtakes(v.commits, k) {
      if k < |c.commits| {
        assert Overtakes(c.commits, k);
      }
    }
  }

  lemma WrittenVerdict(row: Row, target: CampaignState, ctx: TransitionContext)
    ensures var v := Written(row, target, ctx);
            && v.state == target && v.version == row.version + 1
            && (target in Forward(row.state) && (!IsTerminal(row.state) ==> row.verdict == None) ==>
                  (IsTerminal(target) <==> v.verdict == Some(target)) && (!IsTerminal(target) ==> v.verdict == None))
  {}

  // An event more in the log, and the tidings of it.
  lemma AnnouncedOneMore(log: seq<Event>, name: EventName, version: nat, state: Option<CampaignState>)
    requires ChainOk(log)
    ensures var longer := Emit(log, name, version, state);
            && ChainOk(longer)
            && Announced(longer) == Announced(log) + (if name == SearchState then [longer[|log|]] else [])
            && longer[|log|].version == version && longer[|log|].state == state
  {
    var longer := Emit(log, name, version, state);
    assert longer[..|log|] == log;
    ChainOneMore(log, longer[|log|]);
  }

  lemma StoryOneMore(commits: seq<Commit>, next: Commit)
    ensures Story(commits + [next]) == Story(commits) + TidingsOf(commits, next)
  {
    hide TidingsOf;
    assert (commits + [next])[..|commits|] == commits;
  }

  lemma OtherEventRetold(c: Campaign, name: EventName, version: nat, state: Option<CampaignState>)
    requires Retold(c) && name != SearchState
    ensures Retold(c.(log := Emit(c.log, name, version, state)))
  {
    hide Emit, ChainOk, IsPast, Story;
    AnnouncedOneMore(c.log, name, version, state);
  }

  lemma UntoldRetold(c: Campaign, target: CampaignState, ctx: TransitionContext)
    requires Retold(c) && target in Forward(c.row.state)
    ensures Retold(Committed(c, target, ctx, Never))
  {
    hide ChainOk, Story, Written, IsPast, Announced;
    CommittedIsPast(c, target, ctx, Never);
    StoryOneMore(c.commits, Commit(target, Never));
    PastEnds(c.commits, c.row);
    WrittenVerdict(c.row, target, ctx);
  }

  lemma PastEnds(commits: seq<Commit>, row: Row)
    requires IsPast(commits, row)
    ensures |commits| == row.version + 1 && commits[row.version].state == row.state
  {}

  lemma EnterRetells(c: Campaign, target: CampaignState, ctx: TransitionContext)
    requires Retold(c) && target in Forward(c.row.state)
    ensures Retold(Enter(c, target, ctx))
  {
    hide Emit, ChainOk, Story, Written, IsPast, Announced;
    CommittedIsPast(c, target, ctx, AtOnce);
    StoryOneMore(c.commits, Commit(target, AtOnce));
    PastEnds(c.commits, c.row);
    WrittenVerdict(c.row, target, ctx);
    AnnouncedOneMore(c.log, SearchState, c.row.version + 1, Some(target));
  }

  lemma EndedRetold(c: Campaign, target: CampaignState, ctx: TransitionContext)
    requires Retold(c) && target in Forward(c.row.state)
    ensures Retold(EndedBy(c, target, ctx))
  {
    hide Emit, Retold, Written, Announced, Mark;
    EnterRetells(c, target, ctx);
    var entered := Enter(c, target, ctx);
    OtherEventRetold(entered, SearchComplete, entered.row.version, Some(target));
    StepsDoNotMatter(entered.(log := Emit(entered.log, SearchComplete, entered.row.version, Some(target))),
                     Mark(c.steps, target));
  }

  lemma StepsDoNotMatter(c: Campaign, steps: seq<CampaignState>)
    ensures Retold(c.(steps := steps)) <==> Retold(c)
  {}

  // A cancel() as far as it comes.
  lemma CancelledRetold(c: Campaign, ctx: TransitionContext, reach: Reach)
    requires Retold(c) && !IsTerminal(c.row.state)
    ensures Retold(CancelledUpTo(c, ctx, reach))
  {
    hide Retold, Mark, Emit, Written;
    CancelOpenIffActive(c.row.state, ctx);
    UntoldRetold(c, Cancelled, ctx);
    EnterRetells(c, Cancelled, ctx);
    EndedRetold(c, Cancelled, ctx);
    StepsDoNotMatter(Enter(c, Cancelled, ctx), Mark(c.steps, Cancelled));
  }

  // A version overtaken by a cancel(): its event comes after that of the cancellation.
  lemma OvertakenRetold(c: Campaign, target: CampaignState, ctx: TransitionContext, cancel: TransitionContext)
    requires Retold(c) && target in Forward(c.row.state) && !IsTerminal(target)
    ensures Retold(Told(CancelledBy(Committed(c, target, ctx, Late), cancel), c.row.version + 1, target))
  {
    hide Emit, ChainOk, Story, Written, IsPast, Announced, Mark;
    var late := Committed(c, target, ctx, Late);
    CommittedIsPast(c, target, ctx, Late);
    PastEnds(c.commits, c.row);
    WrittenVerdict(c.row, target, ctx);
    StoryOneMore(c.commits, Commit(target, Late));
    var cancelled := Committed(late, Cancelled, cancel, AtOnce);
    CancelOvertakes(late, cancel);
    StoryOneMore(late.commits, Commit(Cancelled, AtOnce));
    WrittenVerdict(late.row, Cancelled, cancel);
    AnnouncedOneMore(c.log, SearchState, late.row.version + 1, Some(Cancelled));
    var told := Told(cancelled, late.row.version + 1, Cancelled);
    AnnouncedOneMore(told.log, SearchComplete, late.row.version + 1, Some(Cancelled));
    var ended := Emit(told.log, SearchComplete, late.row.version + 1, Some(Cancelled));
    AnnouncedOneMore(ended, SearchState, c.row.version + 1, Some(target));
  }

  lemma CancelOvertakes(c: Campaign, ctx: TransitionContext)
    requires IsPast(c.commits, c.row) && !IsTerminal(c.row.state)
    ensures var v := Committed(c, Cancelled, ctx, AtOnce); IsPast(v.commits, v.row)
  {
    hide Written;
    CancelOpenIffActive(c.row.state, ctx);
    var v := Committed(c, Cancelled, ctx, AtOnce);
    WrittenVerdict(c.row, Cancelled, ctx);
    forall k | 0 <= k < |v.commits| ensures Overtakes(v.commits, k) {
      if k < |c.commits| {
        assert Overtakes(c.commits, k);
      }
    }
  }

  lemma CreateIsRetold()
    ensures Retold(Create())
  {
    CreateRetold();
    assert Create().commits[..0] == [];
    assert Announced(Create().log[..0]) == [];
  }

  // ---------------------------------------------------------------- what a story tells

  ghost predicate Announces(log: seq<Event>, version: nat) {
    exists i :: 0 <= i < |Announced(log)| && Announced(log)[i].version == version
  }

  // This version is in the story of its commits.
  predicate IsTold(commits: seq<Commit>, k: nat)
    requires k < |commits|
  {
    commits[k].telling == AtOnce || (commits[k].telling == Late && k + 1 < |commits|)
  }

  predicate IsOneOf(t: Tiding, commits: seq<Commit>) {
    t.version < |commits| && t.state == commits[t.version].state && IsTold(commits, t.version)
  }

  ghost predicate Orderly(commits: seq<Commit>) {
    forall k :: 0 <= k < |commits| ==> Overtakes(commits, k)
  }

  // The story without its last commit, and what that one adds.
  lemma StoryOfFront(commits: seq<Commit>)
    requires Orderly(commits) && commits != []
    ensures var n := |commits| - 1;
            && Orderly(commits[..n]) && Story(commits) == Story(commits[..n]) + TidingsOf(commits[..n], commits[n])
            && (n > 0 && commits[n - 1].telling == Late ==> commits[n].telling == AtOnce)
  {
    hide Story;
    var n := |commits| - 1;
    StoryOneMore(commits[..n], commits[n]);
    assert commits[..n] + [commits[n]] == commits;
    assert forall k :: 0 <= k < n ==> (Overtakes(commits, k) ==> Overtakes(commits[..n], k));
    assert n > 0 ==> Overtakes(commits, n - 1);
  }

  // Each tiding is one of the commits.
  lemma {:induction false} StoryIsTrue(commits: seq<Commit>, i: nat)
    requires Orderly(commits) && i < |Story(commits)|
    ensures IsOneOf(Story(commits)[i], commits)
    decreases |commits|
  {
    hide Orderly;
    if commits != [] {
      var front := commits[..|commits| - 1];
      StoryOfFront(commits);
      hide Story;
      if i < |Story(front)| {
        StoryIsTrue(front, i);
      }
    }
  }

  // Each commit that is told has one.
  lemma {:induction false} StoryIsWhole(commits: seq<Commit>, k: nat) returns (i: nat)
    requires Orderly(commits) && k < |commits| && IsTold(commits, k)
    ensures i < |Story(commits)| && Story(commits)[i].version == k
    decreases |commits|
  {
    hide Story, Orderly;
    var n := |commits| - 1;
    StoryOfFront(commits);
    if k == n {
      i := |Story(commits[..n])|;
    } else if IsTold(commits[..n], k) {
      i := StoryIsWhole(commits[..n], k);
    } else {
      i := |Story(commits[..n])| + 1;
    }
  }

  // The tidings come in the order of their versions, but for one that was overtaken.
  predicate InOrder(a: Tiding, b: Tiding, commits: seq<Commit>) {
    a.version < b.version || (a.version == b.version + 1 < |commits| && commits[b.version].telling == Late)
  }

  lemma {:induction false} StoryIsOrdered(commits: seq<Commit>, i: nat, j: nat)
    requires Orderly(commits) && i < j < |Story(commits)|
    ensures InOrder(Story(commits)[i], Story(commits)[j], commits)
    decreases |commits|
  {
    hide Orderly;
    if commits != [] {
      var front := commits[..|commits| - 1];
      StoryOfFront(commits);
      hide Story;
      if j < |Story(front)| {
        StoryIsOrdered(front, i, j);
      } else if i < |Story(front)| {
        StoryIsTrue(front, i);
      }
    }
  }

  function Unannounced(commits: seq<Commit>): (n: nat) {
    if commits == [] then 0
    else Unannounced(commits[..|commits| - 1]) + (if commits[|commits| - 1].telling == Never then 1 else 0)
  }

  lemma {:induction false} StoryLength(commits: seq<Commit>)
    requires Orderly(commits)
    ensures |Story(commits)| + Unannounced(commits)
            + (if commits != [] && commits[|commits| - 1].telling == Late then 1 else 0)
            == |commits|
    decreases |commits|
  {
    hide Orderly;
    if commits != [] {
      StoryOfFront(commits);
      StoryLength(commits[..|commits| - 1]);
    }
  }

  lemma EachEventIsTrue(c: Campaign, i: nat)
    requires Retold(c) && i < |Announced(c.log)|
    ensures var e := Announced(c.log)[i];
            && e.version <= c.row.version && e.state == Some(c.commits[e.version].state)
            && c.commits[e.version].telling != Never && Tells(e, Story(c.commits)[i])
  {
    hide ChainOk, Announced, Story;
    StoryIsTrue(c.commits, i);
    assert Tells(Announced(c.log)[i], Story(c.commits)[i]);
  }

  lemma ToldUnlessNever(c: Campaign, k: nat)
    requires Retold(c) && k <= c.row.version
    ensures Announces(c.log, k) <==> c.commits[k].telling != Never
  {
    hide ChainOk, Announced, Story, Retold;
    RetoldPast(c);
    if IsTold(c.commits, k) {
      var i := StoryIsWhole(c.commits, k);
      assert Tells(Announced(c.log)[i], Story(c.commits)[i]);
    }
    forall i | 0 <= i < |Announced(c.log)| && Announced(c.log)[i].version == k ensures c.commits[k].telling != Never {
      EachEventIsTrue(c, i);
    }
  }

  lemma RetoldPast(c: Campaign)
    requires Retold(c)
    ensures IsPast(c.commits, c.row) && Orderly(c.commits) && Retells(c.log, c.commits) && ChainOk(c.log)
    ensures c.commits[c.row.version].telling != Late
  {}

  lemma TwoEventsInOrder(c: Campaign, i: nat, j: nat)
    requires Retold(c) && i < j < |Announced(c.log)|
    ensures var told := Announced(c.log);
            || told[i].version < told[j].version
            || (told[i].version == told[j].version + 1 == c.row.version && c.row.state == Cancelled
                && c.commits[told[j].version].telling == Late)
  {
    hide ChainOk, Announced, Story, Retold, IsPast;
    RetoldPast(c);
    EachEventIsTrue(c, i);
    EachEventIsTrue(c, j);
    StoryIsOrdered(c.commits, i, j);
    var k := Story(c.commits)[j].version;
    PastEnds(c.commits, c.row);
    if Story(c.commits)[i].version == k + 1 && c.commits[k].telling == Late {
      assert Overtakes(c.commits, k);
      NothingFollowsCancelled(c.commits, c.row, k + 1);
    }
  }

  /** What the log of a campaign says: every event the state the row had at its version, every version once unless
      it was left untold, and all in order but for one overtaken by a cancellation. */
  lemma WhatTheLogTells(c: Campaign)
    requires Retold(c)
    ensures ChainOk(c.log)
    ensures var told := Announced(c.log);
            && (forall i :: 0 <= i < |told| ==>
                  told[i].version <= c.row.version && told[i].state == Some(c.commits[told[i].version].state))
            && (forall k :: 0 <= k <= c.row.version ==> (Announces(c.log, k) <==> c.commits[k].telling != Never))
            && (forall i, j :: 0 <= i < j < |told| ==>
                  || told[i].version < told[j].version
                  || (told[i].version == told[j].version + 1 == c.row.version && c.row.state == Cancelled))
            && |told| + Unannounced(c.commits) == c.row.version + 1
  {
    hide ChainOk, Announced, Story, Retold, IsPast, Announces;
    RetoldPast(c);
    PastEnds(c.commits, c.row);
    StoryLength(c.commits);
    var told := Announced(c.log);
    forall i | 0 <= i < |told| ensures told[i].version <= c.row.version
                                     && told[i].state == Some(c.commits[told[i].version].state) {
      EachEventIsTrue(c, i);
    }
    forall k | 0 <= k <= c.row.version ensures Announces(c.log, k) <==> c.commits[k].telling != Never {
      ToldUnlessNever(c, k);
    }
    forall i, j | 0 <= i < j < |told|
      ensures || told[i].version < told[j].version
              || (told[i].version == told[j].version + 1 == c.row.version && c.row.state == Cancelled)
    {
      TwoEventsInOrder(c, i, j);
    }
  }

  lemma NothingFollowsCancelled(commits: seq<Commit>, row: Row, k: nat)
    requires IsPast(commits, row) && k < |commits| && commits[k].state == Cancelled
    ensures k == row.version
  {
    assert k < row.version ==> commits[k + 1].state in Forward(commits[k].state);
  }
}
