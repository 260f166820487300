/** The versions of a campaign that no search.state event ever announces, over the lives of any number of processes:
    when one is left untold, how many there can be, and what the log says of the others. */
module Untold {
  import opened Wrappers
  import opened Transitions
  import opened EventLog
  import opened Controller
  import opened Stories
  import opened Walk
  import opened Process
  import opened Resume
  import opened Runs
  import opened Restarts
  import opened Witnesses
  import opened Lifetimes
  import opened Retelling

  // ---------------------------------------------------------------- one process after the other

  lemma NewIsIntact()
    ensures Intact(NewWorld().c)
  {
    hide Retold;
    CreateIsRetold();
  }

  lemma {:induction false} LivesGoOn(w: World, lives: seq<Life>, i: nat)
    requires Intact(w.c) && i < |lives|
    ensures Intact(FoundBy(w, lives, i).c) && w.c.commits <= FoundBy(w, lives, i).c.commits
    ensures GoesOn(lives[i].env, FoundBy(w, lives, i), EndOf(Lived(w, lives)[i]))
    decreases |lives|
  {
    hide Intact, Run;
    var found := Restarted(w, lives[0]);
    RunGoesOn(lives[0].setup, found, lives[0].env);
    if i > 0 {
      LivesGoOn(Live(w, lives[0]).w, lives[1..], i - 1);
      FoundLater(w, lives, i);
    }
  }

  lemma FoundLater(w: World, lives: seq<Life>, i: nat)
    requires 0 < i < |lives|
    ensures Lived(w, lives)[i] == Lived(Live(w, lives[0]).w, lives[1..])[i - 1]
    ensures FoundBy(w, lives, i) == FoundBy(Live(w, lives[0]).w, lives[1..], i - 1)
  {
    hide Live;
    assert lives[1..][i - 1] == lives[i];
  }

  // What one process has committed, all later ones find.
  lemma {:induction false} CommitsStay(w: World, lives: seq<Life>, i: nat, j: nat)
    requires Intact(w.c) && i <= j < |lives|
    ensures Lived(w, lives)[i].w.c.commits <= Lived(w, lives)[j].w.c.commits
    ensures Intact(Lived(w, lives)[i].w.c) && Intact(Lived(w, lives)[j].w.c)
    decreases j
  {
    hide Intact, Live, Lived;
    LivesGoOn(w, lives, i);
    if i < j {
      CommitsStay(w, lives, i, j - 1);
      LivesGoOn(w, lives, j);
    }
  }

  // ---------------------------------------------------------------- which versions are told

  /** A version is announced by the process that commits it, or never. Only a process that dies between the two
      writes of a transition or of a cancel() leaves one untold, and only among the last two of the campaign. */
  lemma OnlyADeathLeavesOneUntold(lives: seq<Life>, i: nat, k: nat)
    requires i < |lives|
    requires FoundBy(NewWorld(), lives, i).c.row.version < k <= Lived(NewWorld(), lives)[i].w.c.row.version
    ensures var e := Lived(NewWorld(), lives)[i];
            && (Announces(e.w.c.log, k) || (e.outcome == Died && Severs(lives[i].env) && k + 1 >= e.w.c.row.version))
            && (forall j :: i <= j < |lives| ==>
                  (Announces(Lived(NewWorld(), lives)[j].w.c.log, k) <==> Announces(e.w.c.log, k)))
  {
    hide Announces, Lived, Retold, NoRepeats, Speaks, Severs;
    NewIsIntact();
    LivesGoOn(NewWorld(), lives, i);
    var found, e := FoundBy(NewWorld(), lives, i).c, Lived(NewWorld(), lives)[i];
    CommitsByVersion(found);
    CommitsByVersion(e.w.c);
    ToldUnlessNever(e.w.c, k);
    forall j | i <= j < |lives|
      ensures Announces(Lived(NewWorld(), lives)[j].w.c.log, k) <==> Announces(e.w.c.log, k)
    {
      CommitsStay(NewWorld(), lives, i, j);
      var later := Lived(NewWorld(), lives)[j].w.c;
      CommitsByVersion(later);
      ToldUnlessNever(later, k);
    }
  }

  lemma CommitsByVersion(c: Campaign)
    requires Retold(c)
    ensures |c.commits| == c.row.version + 1 && c.commits[c.row.version].state == c.row.state
  {}

  /** When it happens, exactly: a transition that comes to its write is announced unless its process dies before
      the event. */
  lemma ToldUnlessKilled(w: World, target: CampaignState, ctx: TransitionContext, env: Env)
    requires Intact(w.c) && !w.flag && TransitionCheck(w.c.row.state, false, target, ctx) == Pass
             && LetsPass(env(w.clock))
    ensures var after := Entered(w, target, ctx, env).w.c;
            && |after.commits| > w.c.row.version + 1 && after.commits[w.c.row.version + 1].state == target
            && (Announces(after.log, w.c.row.version + 1) <==> !DiesAt(env(w.clock), BeforeEvent))
  {
    hide TransitionCheck, FromWrite, Retold, Announces, NoRepeats, Speaks;
    EnteredGoesOn(w, target, ctx, env);
    CommitsByVersion(w.c);
    CommitsByVersion(Entered(w, target, ctx, env).w.c);
    NothingBeforeTheWrite(w, target, ctx, env);
    WriteCommits(AtTheWrite(w, env(w.clock)), target, ctx, env(w.clock));
    ToldUnlessNever(Entered(w, target, ctx, env).w.c, w.c.row.version + 1);
  }

  lemma WriteCommits(w: World, target: CampaignState, ctx: TransitionContext, sig: Signal)
    ensures w.c.commits + [Commit(target, TellingOf(sig, target))] <= FromWrite(w, target, ctx, sig).w.c.commits
  {
    hide Meanwhile, TellingOf;
    var committed := w.(c := Committed(w.c, target, ctx, TellingOf(sig, target)));
    MeanwhileCommits(committed, sig, BeforeEvent);
    var raced := Meanwhile(committed, sig, BeforeEvent);
    MeanwhileCommits(raced.w.(c := Told(raced.w.c, w.c.row.version + 1, target)), sig, AfterEvent);
  }

  lemma MeanwhileCommits(w: World, sig: Signal, at: Moment)
    ensures w.c.commits <= Meanwhile(w, sig, at).w.c.commits
  {
    hide CancelledUpTo, CancelContext;
    CancelledCommits(w.c, CancelContext(w.c.row, w.disk), if DiesAt(sig, at) then sig.reach else Whole);
  }

  /** So is a cancel() of an active campaign, unless its process dies right after its write. */
  lemma CancelToldUnlessKilled(w: World, reach: Reach)
    requires Intact(w.c) && !Over(w)
    ensures var c := CancelIn(w, reach).c;
            && c.row.state == Cancelled && c.row.version == w.c.row.version + 1
            && (Announces(c.log, c.row.version) <==> reach != JustWritten)
  {
    hide Retold, Announces, CancelContext, Emit, Mark, Controller.Written, NoRepeats;
    var c, ctx := CancelIn(w, reach).c, CancelContext(w.c.row, w.disk);
    Stories.CancelledRetold(w.c, ctx, reach);
    CancelledCommits(w.c, ctx, reach);
    CommitsByVersion(w.c);
    CommitsByVersion(c);
    ToldUnlessNever(c, c.row.version);
  }

  // ---------------------------------------------------------------- how many there are

  function Deaths(endings: seq<Ending>): (n: nat) {
    if endings == [] then 0 else (if endings[0].outcome == Died then 1 else 0) + Deaths(endings[1..])
  }

  // Commits that are left untold only from the m-th on.
  lemma {:induction false} UntoldFrom(before: seq<Commit>, after: seq<Commit>, m: nat)
    requires before <= after && forall k :: |before| <= k < |after| && after[k].telling == Never ==> k >= m
    ensures Unannounced(before) <= Unannounced(after)
            <= Unannounced(before) + (if m < |after| then |after| - m else 0)
    decreases |after|
  {
    if |before| == |after| {
      assert before == after;
    } else {
      UntoldFrom(before, after[..|after| - 1], m);
    }
  }

  lemma OneLifeLeavesTwo(w: World, life: Life)
    requires Intact(w.c)
    ensures var e := Live(w, life);
            && Intact(e.w.c)
            && Unannounced(w.c.commits) <= Unannounced(e.w.c.commits)
               <= Unannounced(w.c.commits) + (if e.outcome == Died then 2 else 0)
  {
    hide Intact, Run;
    var e := Live(w, life);
    RunGoesOn(life.setup, Restarted(w, life), life.env);
    var n := |e.w.c.commits|;
    var from := if e.outcome != Died then n else if n >= 2 then n - 2 else 0;
    UntoldFrom(w.c.commits, e.w.c.commits, from);
  }

  lemma {:induction false} UntoldAlong(w: World, lives: seq<Life>, i: nat)
    requires Intact(w.c) && i < |lives|
    ensures Unannounced(Lived(w, lives)[i].w.c.commits)
            <= Unannounced(w.c.commits) + 2 * Deaths(Lived(w, lives)[..i + 1])
    decreases |lives|
  {
    hide Intact, Live;
    OneLifeLeavesTwo(w, lives[0]);
    var next := Live(w, lives[0]).w;
    var endings := Lived(w, lives)[..i + 1];
    if i == 0 {
      assert endings == [Live(w, lives[0])];
    } else {
      UntoldAlong(next, lives[1..], i - 1);
      FoundLater(w, lives, i);
      assert endings[0] == Live(w, lives[0]) && endings[1..] == Lived(next, lives[1..])[..i];
    }
  }

  /** What the log says after any processes, each killed, cancelled or stopped anywhere: its chain is intact; every
      event announces the state the row had at its version; no version is announced twice, all in order but for one
      overtaken by the cancellation that ended the campaign; and at most two are missing for each process that died. */
  lemma TheLogIsTrue(lives: seq<Life>, i: nat)
    requires i < |lives|
    ensures var c := Lived(NewWorld(), lives)[i].w.c;
            var told := Controller.Announced(c.log);
            && ChainOk(c.log) && NoRepeats(c.steps)
            && |c.commits| == c.row.version + 1 && c.commits[c.row.version].state == c.row.state
            && (forall n :: 0 <= n < |told| ==>
                  told[n].version <= c.row.version && told[n].state == Some(c.commits[told[n].version].state))
            && (forall n, m :: 0 <= n < m < |told| ==>
                  || told[n].version < told[m].version
                  || (told[n].version == told[m].version + 1 == c.row.version && c.row.state == Cancelled))
            && c.row.version + 1 - 2 * Deaths(Lived(NewWorld(), lives)[..i + 1]) <= |told| <= c.row.version + 1
  {
    hide Retold, Lived, ChainOk, Controller.Announced, Announces;
    NewIsIntact();
    LivesGoOn(NewWorld(), lives, i);
    UntoldAlong(NewWorld(), lives, i);
    NewIsTold();
    var c := Lived(NewWorld(), lives)[i].w.c;
    CommitsByVersion(c);
    WhatTheLogTells(c);
  }

  lemma NewIsTold()
    ensures Unannounced(NewWorld().c.commits) == 0
  {
    assert NewWorld().c.commits[..0] == [];
  }

  // ---------------------------------------------------------------- that it happens

  /** From its creation: a process killed between the two writes of a transition, and version 2 is announced by no
      process that comes after it. */
  lemma AVersionIsNeverTold(setup: Setup, later: seq<Life>) returns (env: Env)
    ensures var lives := [Life(setup, env, false)] + later;
            forall j :: 0 <= j < |lives| ==>
              Lived(NewWorld(), lives)[j].w.c.row.version >= 2 && !Announces(Lived(NewWorld(), lives)[j].w.c.log, 2)
  {
    hide Run, Announces, Lived, Retold, NoRepeats, Speaks, Standing;
    env := KilledInTheWave(setup);
    var lives := [Life(setup, env, false)] + later;
    NewIsIntact();
    FirstOfThem(lives);
    assert Restarted(NewWorld(), lives[0]) == NewWorld();
    forall j | 0 <= j < |lives|
      ensures Lived(NewWorld(), lives)[j].w.c.row.version >= 2 && !Announces(Lived(NewWorld(), lives)[j].w.c.log, 2)
    {
      CommitsStay(NewWorld(), lives, 0, j);
      CommitsByVersion(Lived(NewWorld(), lives)[j].w.c);
      ToldUnlessNever(Lived(NewWorld(), lives)[j].w.c, 2);
    }
  }

  lemma FirstOfThem(lives: seq<Life>)
    requires lives != []
    ensures Lived(NewWorld(), lives)[0] == Live(NewWorld(), lives[0])
  {
    hide Live;
  }

  // A cancel() lands after the row of a transition is written and before its event is.
  const OVERTAKING := EAGER.(cancel := true, cancelAt := BeforeEvent)

  /** From its creation: a cancel() between the two writes of the first transition, and the log announces the end of
      the campaign before the version it overtook. */
  lemma TheEndIsToldFirst(setup: Setup) returns (env: Env)
    ensures var c := Run(setup, NewWorld(), env).w.c;
            var told := Controller.Announced(c.log);
            && c.row.state == Cancelled && |told| == 3
            && told[0].version == 0 && told[1].version == 2 && told[2].version == 1
            && told[1].state == Some(Cancelled) && told[2].state == Some(ValidatingInput)
  {
    hide Wave, Stop, Intact, Controller.Announced;
    env := Until(0, OVERTAKING);
    var w := NewWorld().(lanes := setup.blockedAtOpen);
    assert w == NewWorld().(lanes := NewWorld().lanes + setup.blockedAtOpen);
    NewIsIntact();
    OvertakenWave(w, env);
    var wave := Wave(w, 1, env);
    assert Body(setup, NewWorld(), env) == wave;
    if wave.status.Raised? {
      StopOver(setup, wave.w, wave.status.exn, env);
    }
    OvertakenStory(wave.w.c);
  }

  predicate Overtook(commits: seq<Commit>) {
    commits == [Commit(Created, AtOnce), Commit(ValidatingInput, Late), Commit(Cancelled, AtOnce)]
  }

  lemma OvertakenWave(w: World, env: Env)
    requires w.c == Create() && w.clock == 0 && !w.flag && env == Until(0, OVERTAKING) && Intact(w.c)
    ensures var wave := Wave(w, 1, env);
            Intact(wave.w.c) && Overtook(wave.w.c.commits) && wave.w.c.row.state == Cancelled
  {
    hide Retold, NoRepeats, Speaks, HandleAndFinish, WaveStep;
    var entered := OvertakenStep(w, env);
    HandlingGoesOn(entered, ValidatingInput, env);
    var step := WaveStep(w, 1, env);
    if step.status == Done {
      WaveGoesOn(step.w, 2, env);
      GoesOnFrom(env, entered, step, Wave(step.w, 2, env));
    }
    NothingAfterCancelled(env, entered, Wave(w, 1, env));
  }

  lemma NothingAfterCancelled(env: Env, w: World, after: After)
    requires GoesOn(env, w, after) && Overtook(w.c.commits)
    ensures after.w.c.commits == w.c.commits && after.w.c.row.state == Cancelled
  {
    var c := after.w.c;
    assert c.commits[2] == w.c.commits[2];
    NothingFollowsCancelled(c.commits, c.row, 2);
  }

  lemma OvertakenEntering(w: World, ctx: TransitionContext, env: Env)
    requires w.c == Create() && w.clock == 0 && !w.flag && env == Until(0, OVERTAKING) && Intact(w.c)
    ensures var after := Entered(w, ValidatingInput, ctx, env);
            after.status == Done && Intact(after.w.c) && Overtook(after.w.c.commits)
  {
    hide TransitionCheck, Intact, CancelContext, Emit, Controller.Written, FromWrite;
    WaveOpens(ctx);
    EnteredGoesOn(w, ValidatingInput, ctx, env);
    var ticked := w.(clock := w.clock + 1);
    assert Entered(w, ValidatingInput, ctx, env) == FromWrite(ticked, ValidatingInput, ctx, OVERTAKING);
    LandedOvertaking(ticked, ValidatingInput, ctx, OVERTAKING);
  }

  lemma OvertakenStep(w: World, env: Env) returns (entered: World)
    requires w.c == Create() && w.clock == 0 && !w.flag && env == Until(0, OVERTAKING) && Intact(w.c)
    ensures Intact(entered.c) && Overtook(entered.c.commits)
    ensures WaveStep(w, 1, env) == HandleAndFinish(entered, ValidatingInput, env)
  {
    hide HandleAndFinish, Entered, Intact, ContextFromDisk, Overtook;
    assert SPINE[0] == Created && SPINE[1] == ValidatingInput;
    var ctx := ContextFromDisk(w.c.row, w.disk);
    OvertakenEntering(w, ctx, env);
    entered := Entered(w, ValidatingInput, ctx, env).w;
  }

  lemma WaveOpens(ctx: TransitionContext)
    ensures TransitionCheck(Created, false, ValidatingInput, ctx) == Pass
  {}

  lemma OvertakenStory(c: Campaign)
    requires Intact(c) && Overtook(c.commits)
    ensures var told := Controller.Announced(c.log);
            && |told| == 3 && told[0].version == 0 && told[1].version == 2 && told[2].version == 1
            && told[1].state == Some(Cancelled) && told[2].state == Some(ValidatingInput)
  {
    hide ChainOk, Controller.Announced, IsPast, Story;
    var told := Controller.Announced(c.log);
    var created, late, cancelled := Commit(Created, AtOnce), Commit(ValidatingInput, Late), Commit(Cancelled, AtOnce);
    StoryOneMore([], created);
    assert [] + [created] == [created] && [created] + [late] == [created, late];
    StoryOneMore([created], late);
    StoryOneMore([created, late], cancelled);
    assert [created, late] + [cancelled] == c.commits;
    NoStory();
    assert |Story(c.commits)| == 3;
    assert Tells(told[0], Story(c.commits)[0]);
    assert Tells(told[1], Story(c.commits)[1]) && Tells(told[2], Story(c.commits)[2]);
  }

  lemma NoStory()
    ensures Story([]) == []
  {}
}
