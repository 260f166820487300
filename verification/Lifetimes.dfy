/** The life of a campaign through any number of processes, each killed, stopped or cancelled anywhere:
    what every one of them found, did and left, and what they did together. */
module Lifetimes {
  import opened Wrappers
  import opened Transitions
  import opened Controller
  import opened Walk
  import opened Process
  import opened Resume
  import opened Runs
  import opened Restarts
  import opened Lanes
  import opened Witnesses
  import T = Terminal

  // One process: its settings, what happens to it, and whether it has lost the memory of a cancellation.
  datatype Life = Life(setup: Setup, env: Env, forgets: bool)

  // What a new process finds: what is stored, and its own memory empty.
  function Restarted(w: World, life: Life): (found: World) {
    w.(clock := 0, lanes := {}, ran := [], flag := w.flag && !life.forgets)
  }

  function Live(w: World, life: Life): (ending: Ending) {
    Run(life.setup, Restarted(w, life), life.env)
  }

  // How each of them ended, one after the other.
  function Lived(w: World, lives: seq<Life>): (endings: seq<Ending>)
    ensures |endings| == |lives|
    decreases |lives|
  {
    if lives == [] then [] else [Live(w, lives[0])] + Lived(Live(w, lives[0]).w, lives[1..])
  }

  // What the i-th of them found.
  function FoundBy(w: World, lives: seq<Life>, i: nat): (found: World)
    requires i < |lives|
  {
    Restarted(if i == 0 then w else Lived(w, lives)[i - 1].w, lives[i])
  }

  // ---------------------------------------------------------------- one process

  // What a process did with a campaign it found at p and left at q.
  ghost predicate Did(found: World, setup: Setup, p: Place, e: Ending, q: Place) {
    && Standing(e.w, q) && (q == Ended <==> Over(e.w)) && (Overtaken(e.cause) ==> e.w.c.row.state == Cancelled)
    && if p == Ended then q == Ended && e.w.ran == [] && e.outcome == Finished && e.cause == Done
       else if p == SentBack then
         && e.w.ran == [] && (q == SentBack || (q == Ended && e.w.c.row.state in {Failed, Partial, Blocked, Cancelled}))
         && (IllegalRaise(e.cause) ==>
               e.cause == Raised(NO_SECOND_ROUND)
               || (found.round > setup.maxRounds && e.cause == EdgeRefused(found, Complete)))
       else if Lost(p) then
         && e.w.ran == [] && (q == p || (q == Ended && e.w.c.row.state in {Failed, Cancelled}))
         && (IllegalRaise(e.cause) ==> e.cause == NoSecondWave(found))
       else
         && Joins(e.w.ran, Start(p), e.w, q) && AskedLegally(setup, found, p, e.w, |e.w.ran|, e.cause)
         && (!p.InReference? ==> !q.InReference?)
  }

  lemma StandsAfterRestart(w: World, p: Place, life: Life)
    requires Standing(w, p)
    ensures Standing(Restarted(w, life), p)
  {}

  lemma OneLife(w: World, p: Place, life: Life) returns (q: Place)
    requires Standing(w, p)
    ensures Did(Restarted(w, life), life.setup, p, Live(w, life), q)
  {
    hide Run, Standing, Joins, SentBackStatus, AskedLegally, VerdictOf, AfterDiscovery, Explained, WholePass,
         LaneMistake;
    var found, e := Restarted(w, life), Live(w, life);
    ActivePlaces(w, p);
    StandsAfterRestart(w, p, life);
    RunEnds(life.setup, found, life.env);
    EndedStands(e.w);
    q := Ended;
    if p == SentBack {
      if found.round <= life.setup.maxRounds {
        SentBackOnlyFails(life.setup, found, life.env);
        SentBackAsks(e.cause);
      } else {
        SentBackOverdue(life.setup, found, life.env);
      }
      q := if Over(e.w) then Ended else SentBack;
    } else if Lost(p) {
      LostCampaignFails(life.setup, found, p.i, life.env);
      LostAsks(found, e.cause);
      q := if Over(e.w) then Ended else p;
    } else if p != Ended {
      q := RunResumes(life.setup, found, p, life.env);
      LeadsJoins(found, Start(p), e.w, q);
    }
  }

  lemma SentBackAsks(cause: Status)
    requires SentBackStatus(cause)
    ensures IllegalRaise(cause) ==> cause == Raised(NO_SECOND_ROUND)
  {}

  lemma LostAsks(w: World, cause: Status)
    requires cause in {Crashed, Raised(CancelledError), NoSecondWave(w)} || Overtaken(cause)
    ensures IllegalRaise(cause) ==> cause == NoSecondWave(w)
  {}

  lemma LeadsJoins(w: World, k: nat, v: World, q: Place)
    requires Leads(w, k, v, q) && w.ran == []
    ensures Joins(v.ran, k, v, q) && Standing(v, q) && Since(w, v) == v.ran
  {
    assert Since(w, v) == v.ran;
  }

  // ---------------------------------------------------------------- any number of them

  ghost predicate Journal(w: World, lives: seq<Life>, places: seq<Place>) {
    && |places| == |lives| + 1
    && forall i :: 0 <= i < |lives| ==>
         Did(FoundBy(w, lives, i), lives[i].setup, places[i], Lived(w, lives)[i], places[i + 1])
  }

  lemma JournalBegins(w: World, p: Place, lives: seq<Life>, places: seq<Place>)
    requires lives != [] && Journal(Live(w, lives[0]).w, lives[1..], places)
    requires Did(Restarted(w, lives[0]), lives[0].setup, p, Live(w, lives[0]), places[0])
    ensures Journal(w, lives, [p] + places)
  {
    hide Did, Live;
    var v := Live(w, lives[0]).w;
    forall i | 0 <= i < |lives|
      ensures Did(FoundBy(w, lives, i), lives[i].setup, ([p] + places)[i], Lived(w, lives)[i], ([p] + places)[i + 1])
    {
      if i > 0 {
        assert Did(FoundBy(v, lives[1..], i - 1), lives[1..][i - 1].setup, places[i - 1], Lived(v, lives[1..])[i - 1],
                   places[i]);
      }
    }
  }

  /** Through any number of processes, with whatever settings and lanes, the campaign always stands at a known
      place: each handles, in order, the stages from its place to the next, and asks for an illegal edge only if
      it found the campaign sent back, lost in the reference wave or past its rounds, if the retrieval lane came
      or went, or if it walked its whole pass and sent the campaign back itself. A process whose transition was
      overtaken by a cancel() leaves it CANCELLED. */
  lemma {:induction false} LifetimeStands(w: World, p: Place, lives: seq<Life>) returns (places: seq<Place>)
    requires Standing(w, p)
    ensures Journal(w, lives, places) && places[0] == p
    decreases |lives|
  {
    hide Standing, Did, Live;
    if lives == [] {
      places := [p];
    } else {
      var q := OneLife(w, p, lives[0]);
      DidStands(Restarted(w, lives[0]), lives[0].setup, p, Live(w, lives[0]), q);
      var rest := LifetimeStands(Live(w, lives[0]).w, q, lives[1..]);
      JournalBegins(w, p, lives, rest);
      places := [p] + rest;
    }
  }

  lemma DidStands(found: World, setup: Setup, p: Place, e: Ending, q: Place)
    requires Did(found, setup, p, e, q)
    ensures Standing(e.w, q)
  {}

  // ---------------------------------------------------------------- the work they do together

  // The handler calls of all processes.
  function Worked(endings: seq<Ending>): (calls: nat) {
    if endings == [] then 0 else |endings[0].w.ran| + Worked(endings[1..])
  }

  // A whole pass that ends before its first stage: its replan was cut short, and it is to be walked again.
  predicate WalksAgain(p: Place, e: Ending, q: Place) {
    q == Stage(0) && Walkable(p) && WholePass(e.w, Start(p), |e.w.ran|)
  }

  function PassesLost(endings: seq<Ending>, places: seq<Place>): (lost: nat)
    requires |places| == |endings| + 1
  {
    if endings == [] then 0
    else (if WalksAgain(places[0], endings[0], places[1]) then 1 else 0) + PassesLost(endings[1..], places[1..])
  }

  function Position(p: Place): (stages: nat) {
    if p == Ended || p == SentBack then 12 else Start(p)
  }

  lemma PlanIsShort(w: World)
    ensures 7 <= |Plan(w)| <= 12
  {}

  lemma FollowedIsShort(handled: seq<CampaignState>, v: World, k: nat)
    requires Followed(handled, v, k)
    ensures k + |handled| <= 12
  {
    PlanIsShort(v);
    if Walked(handled, Sequence(false), k) {
      WalkedIsShort(handled, k);
    }
  }

  lemma OneLifeWorks(found: World, setup: Setup, p: Place, e: Ending, q: Place)
    requires Did(found, setup, p, e, q)
    ensures |e.w.ran| + Position(p) <= Position(q) + 1 + (if WalksAgain(p, e, q) then 12 else 0)
  {
    hide Standing, Sequence, AskedLegally, Followed;
    if p != Ended && p != SentBack && !Lost(p) {
      FollowedIsShort(e.w.ran, e.w, Start(p));
    }
  }

  // What every process is known to have done, without what it found.
  ghost predicate Works(endings: seq<Ending>, places: seq<Place>) {
    && |places| == |endings| + 1
    && forall i :: 0 <= i < |endings| ==>
         |endings[i].w.ran| + Position(places[i])
         <= Position(places[i + 1]) + 1 + (if WalksAgain(places[i], endings[i], places[i + 1]) then 12 else 0)
  }

  lemma JournalWorks(w: World, lives: seq<Life>, places: seq<Place>)
    requires Journal(w, lives, places)
    ensures Works(Lived(w, lives), places)
  {
    hide Did, Lived, WalksAgain, Position;
    forall i | 0 <= i < |lives|
      ensures |Lived(w, lives)[i].w.ran| + Position(places[i])
              <= Position(places[i + 1]) + 1
                 + (if WalksAgain(places[i], Lived(w, lives)[i], places[i + 1]) then 12 else 0)
    {
      OneLifeWorks(FoundBy(w, lives, i), lives[i].setup, places[i], Lived(w, lives)[i], places[i + 1]);
    }
  }

  lemma {:induction false} WorkAlong(endings: seq<Ending>, places: seq<Place>)
    requires Works(endings, places)
    ensures Worked(endings) + Position(places[0])
            <= Position(places[|endings|]) + |endings| + 12 * PassesLost(endings, places)
    decreases |endings|
  {
    hide WalksAgain, Position;
    if endings != [] {
      assert Works(endings[1..], places[1..]) by {
        forall i | 0 <= i < |endings[1..]|
          ensures |endings[1..][i].w.ran| + Position(places[1..][i])
                  <= Position(places[1..][i + 1]) + 1
                     + (if WalksAgain(places[1..][i], endings[1..][i], places[1..][i + 1]) then 12 else 0)
        {
          assert endings[1..][i] == endings[i + 1] && places[1..][i] == places[i + 1]
                 && places[1..][i + 1] == places[i + 2];
        }
      }
      WorkAlong(endings[1..], places[1..]);
    }
  }

  lemma PositionsAreShort(w: World, p: Place)
    requires Standing(w, p)
    ensures Position(p) <= 12
  {
    PlanIsShort(w);
  }

  /** All processes together call at most the twelve handlers, and one more for every restart; only a replan
      cut short costs another pass. */
  lemma WorkIsBounded(w: World, p: Place, lives: seq<Life>) returns (places: seq<Place>)
    requires Standing(w, p)
    ensures Journal(w, lives, places) && places[0] == p
    ensures Worked(Lived(w, lives)) <= 12 + |lives| + 12 * PassesLost(Lived(w, lives), places)
  {
    hide Standing, Did, Live, Lived, Position, Works;
    places := LifetimeStands(w, p, lives);
    JournalWorks(w, lives, places);
    WorkAlong(Lived(w, lives), places);
    if lives == [] {
      PositionsAreShort(w, p);
    } else {
      var last := |lives| - 1;
      DidStands(FoundBy(w, lives, last), lives[last].setup, places[last], Lived(w, lives)[last], places[last + 1]);
      PositionsAreShort(Lived(w, lives)[last].w, places[last + 1]);
    }
  }

  // ---------------------------------------------------------------- what no process can mend

  // Sent back, lost in the wave, or ended that way.
  ghost predicate Doomed(w: World) {
    || Standing(w, SentBack)
    || (exists i :: i > 1 && Standing(w, InReference(i)))
    || w.c.row.state in {Failed, Partial, Blocked, Cancelled}
  }

  lemma DoomedLife(w: World, life: Life)
    requires Doomed(w)
    ensures var e := Live(w, life); e.w.ran == [] && Doomed(e.w)
  {
    hide Run, Standing, AskedLegally, Joins, Explained, VerdictOf, AfterDiscovery;
    if Standing(w, SentBack) {
      var q := OneLife(w, SentBack, life);
    } else if w.c.row.state in {Failed, Partial, Blocked, Cancelled} {
      RunEnds(life.setup, Restarted(w, life), life.env);
    } else {
      var i :| i > 1 && Standing(w, InReference(i));
      var q := OneLife(w, InReference(i), life);
    }
  }

  /** Once a campaign was sent back by a replan, or its process died in the middle of the reference wave, no
      number of processes handles another stage of it or completes it. */
  lemma {:induction false} NothingMends(w: World, lives: seq<Life>)
    requires Doomed(w)
    ensures forall i :: 0 <= i < |lives| ==>
              Lived(w, lives)[i].w.ran == [] && Lived(w, lives)[i].w.c.row.state != Complete
    decreases |lives|
  {
    hide Doomed, Live;
    if lives != [] {
      DoomedLife(w, lives[0]);
      DoomedIsNotComplete(Live(w, lives[0]).w);
      NothingMends(Live(w, lives[0]).w, lives[1..]);
    }
  }

  lemma DoomedIsNotComplete(w: World)
    requires Doomed(w)
    ensures w.c.row.state != Complete
  {
    forall i: nat | i > 1 && Standing(w, InReference(i)) ensures w.c.row.state != Complete {
      WaveIsBeforeTheWalk(w.c.row.state, w.c.steps, i);
    }
  }

  // ---------------------------------------------------------------- one process is enough

  /** Whatever is stored and whatever happened before, one process that is not killed and during which nobody
      cancels ends the campaign, or stops on its budget before discovery. */
  lemma OneProcessIsEnough(w: World, life: Life)
    requires !Crashes(life.env) && !Cancels(life.env) && !Restarted(w, life).flag
    ensures var e := Live(w, life);
            || (e.outcome == Finished && Over(e.w))
            || (e.outcome == Escaped(Exn.Refused(IllegalTransition(e.w.c.row.state, Partial))) && SpendsBudget(life.env)
                && !Over(e.w) && !AfterDiscovery(e.w.c.row.state))
  {
    hide Run, AfterDiscovery, VerdictOf, Explained;
    RunEnds(life.setup, Restarted(w, life), life.env);
  }

  // ---------------------------------------------------------------- two processes that fail

  lemma CalmIsQuiet(w: World, env: Env)
    requires forall t :: env(t) == EAGER
    ensures Quiet(env(w.clock)) && Quiet(env(w.clock + 1)) && Quiet(env(w.clock + 2))
            && LeftAlone(w.(flag := false), env)
  {}

  /** From its creation: a process killed in the reference wave, and the next one, undisturbed, ends the campaign
      FAILED without handling a stage. */
  lemma KilledInTheWaveFails(setup: Setup) returns (lives: seq<Life>)
    ensures |lives| == 2 && Lived(NewWorld(), lives)[0].outcome == Died
    ensures Lived(NewWorld(), lives)[1].w.c.row.state == Failed && Lived(NewWorld(), lives)[1].w.ran == []
  {
    hide Run, Standing, LeftAlone;
    var env := KilledInTheWave(setup);
    var calm: Env := (t: nat) => EAGER;
    lives := [Life(setup, env, false), Life(setup, calm, false)];
    FirstLife(NewWorld(), lives);
    var found := Restarted(Run(setup, NewWorld(), env).w, lives[1]);
    StandsAfterRestart(Run(setup, NewWorld(), env).w, InReference(2), lives[1]);
    CalmIsQuiet(found, calm);
    LostCampaignFails(setup, found, 2, calm);
  }

  /** From its creation: a process without the retrieval lane, killed before its verdict, and the next one, with the
      lane and undisturbed, ends the campaign FAILED without handling a stage. */
  lemma KilledPastTheMatchingFails(setup: Setup) returns (lives: seq<Life>)
    requires setup.maxRounds > 0 && T.Routing !in setup.blockedAtOpen
    ensures |lives| == 2 && Lived(NewWorld(), lives)[0].outcome == Died
    ensures Lived(NewWorld(), lives)[1].w.c.row.state == Failed && Lived(NewWorld(), lives)[1].w.ran == []
  {
    hide Run, Standing, LeftAlone;
    var without := setup.(blockedAtOpen := {T.Routing});
    var env := KilledPastTheMatching(without);
    var calm: Env := (t: nat) => EAGER;
    lives := [Life(without, env, false), Life(setup, calm, false)];
    FirstLife(NewWorld(), lives);
    var found := Restarted(Run(without, NewWorld(), env).w, lives[1]);
    StandsAfterRestart(Run(without, NewWorld(), env).w, Skipped, lives[1]);
    CalmIsQuiet(found, calm);
    SkippedOnlyFails(setup, found, calm);
  }

  lemma FirstLife(w: World, lives: seq<Life>)
    requires |lives| == 2 && Restarted(w, lives[0]) == w
    ensures var first := Run(lives[0].setup, w, lives[0].env);
            Lived(w, lives) == [first, Run(lives[1].setup, Restarted(first.w, lives[1]), lives[1].env)]
  {
    hide Run;
    assert lives[1..][0] == lives[1] && lives[1..][1..] == [];
  }
}
