/** Daemon.reconcile of daemon/daemon.go: one snapshot of Docker, applied to the hosts file. */
module Reconciler {
  import opened Basics
  import opened Mapper
  import Docker = Snapshot
  import opened Render
  import opened Disk
  import opened Replacement
  import opened Transaction
  import opened Store
  import opened StoreApply
  import opened StoreRuns
  import opened World
  import opened TrackerLaws
  import T = Tracker

  /** What has been done to the hosts file: its states, the present one, the renames, and what failed. */
  datatype History = History(trace: seq<Slots>, slots: Slots, commits: seq<Commit>, faults: nat)

  ghost function HistoryOf(fs: FileSystem): History
    reads fs
  {
    History(fs.trace, fs.slots, fs.commits, fs.faults)
  }

  /** What any number of reconciliations keeps of the hosts file. */
  ghost predicate Respects(c: Config, outsider: bool, a: History, b: History) {
    && OnlyGuarded(a.commits, b.commits)
    && NothingLost(c, a.commits, b.commits)
    && (!outsider ==> Preserves(c, a.trace, b.trace, a.slots, b.slots))
  }

  lemma RespectsItself(c: Config, outsider: bool, a: History)
    ensures Respects(c, outsider, a, a)
  {
    hide OnlyGuarded, NothingLost, Preserves;
    GuardedNothing(a.commits);
    NothingLostYet(c, a.commits);
    PreservesNothing(c, a.trace, a.slots);
  }

  lemma RespectsAppend(c: Config, outsider: bool, a: History, b: History, d: History)
    requires Respects(c, outsider, a, b) && Respects(c, outsider, b, d)
    ensures Respects(c, outsider, a, d)
  {
    hide OnlyGuarded, NothingLost, Preserves;
    GuardedAppend(a.commits, b.commits, d.commits);
    LostNothingAppend(c, a.commits, b.commits, d.commits);
    if !outsider {
      PreservesAppend(c, a.trace, b.trace, d.trace, a.slots, b.slots, d.slots);
    }
  }

  /** The concerns a reconciliation reports on. */
  const WORK: set<T.Concern> := {T.DockerSnapshot, T.HostsApply}

  /** The tracker shows how a reconciliation ended, with the text of its error. */
  ghost predicate Names(ops: seq<T.Op>, failure: Option<string>) {
    if failure.None? then Latest(ops, T.DockerSnapshot).None? && Latest(ops, T.HostsApply).None?
    else if Latest(ops, T.DockerSnapshot).Some? then
      failure.value == "snapshot Docker networks: " + Latest(ops, T.DockerSnapshot).value.message
    else
      && Latest(ops, T.HostsApply).Some?
      && failure.value == "apply hosts snapshot: " + Latest(ops, T.HostsApply).value.message
  }

  /** Docker's answer gives a snapshot. */
  ghost predicate Usable(c: Config, listing: Docker.Listing) {
    c.networks != [] && listing.Listed? && Docker.NoFailure(listing.items)
  }

  /** What the tracker is told of a reconciliation that ended now: Docker is at fault exactly when it gave no snapshot,
      and nothing is then said of the hosts file; otherwise the file is at fault exactly when there was an error. */
  ghost predicate Told(before: seq<T.Op>, ops: seq<T.Op>, usable: bool, failure: Option<string>, now: nat) {
    && Names(ops, failure)
    && (Latest(ops, T.DockerSnapshot).Some? <==> !usable)
    && (usable && Latest(ops, T.HostsApply).Some? ==> Latest(ops, T.HostsApply).value.now == now)
    && (!usable ==>
          && Latest(ops, T.DockerSnapshot).value.now == now
          && Latest(ops, T.HostsApply) == Latest(before, T.HostsApply))
  }

  /** One more reconciliation has ended, just now and with this error; otherwise time has passed. */
  ghost predicate Attempted(a: Env, b: Env, failure: Option<string>) {
    && |b.attempts| == |a.attempts| + 1
    && b.attempts[..|a.attempts|] == a.attempts
    && b.attempts[|a.attempts|].failure == failure
    && b.attempts[|a.attempts|].at == b.now
    && b.attempts[|a.attempts|].listing == b.listing
    && Moved(a, b.(attempts := a.attempts, listing := a.listing))
  }

  lemma AttemptMoves(a: Env, m: Env, failure: Option<string>)
    requires Moved(a, m.(listing := a.listing))
    ensures Attempted(a, m.(attempts := m.attempts + [Attempt(m.now, failure, m.listing)]), failure)
  {
    hide Follows, Sound;
    var b := m.(attempts := m.attempts + [Attempt(m.now, failure, m.listing)]);
    assert b.(attempts := a.attempts, listing := a.listing) == m.(listing := a.listing);
  }

  lemma AttemptedStops(a: Env, b: Env, failure: Option<string>)
    requires Attempted(a, b, failure)
    ensures Sound(b.stream) && (Stopped(a) ==> Stopped(b)) && (Caused(a) ==> Caused(b))
    ensures (a.parentDone ==> b.parentDone) && a.now <= b.now
    ensures b.serving == a.serving && b.live == a.live && b.acts == a.acts
  {
    hide Follows, Sound;
    MovedStops(a, b.(attempts := a.attempts, listing := a.listing));
  }

  /** After a success the hosts file is in step with the containers Docker had listed. */
  ghost predicate UpToDate(c: Config, outsider: bool, attempts: seq<Attempt>, slots: Slots) {
    !outsider && attempts != [] && attempts[|attempts| - 1].failure.None? ==>
      Mirrors(c, slots, attempts[|attempts| - 1].listing)
  }

  /** The hosts file is in step with the containers of a listing. */
  ghost predicate Mirrors(c: Config, slots: Slots, listing: Docker.Listing) {
    && listing.Listed? && Docker.NoFailure(listing.items)
    && InStep(c, slots, Docker.Assembled(listing.items, c.networks))
  }

  /** Docker answered with endpoints that can be rendered. */
  ghost predicate Answered(c: Config, listing: Docker.Listing) {
    && Usable(c, listing)
    && Renderable(c, Docker.Assembled(listing.items, c.networks))
  }

  /** A failure has a reason: Docker's answer, the files, another process, or an operation that failed. */
  ghost predicate Excused(c: Config, outsider: bool, a: History, b: History, listing: Docker.Listing) {
    outsider || !Answered(c, listing) || !Appliable(c, a.slots) || b.faults > a.faults
  }

  /** No concern is newly reported as failed. */
  ghost predicate Unreported(before: seq<T.Op>, ops: seq<T.Op>) {
    forall c: T.Concern :: Latest(ops, c).None? || Latest(ops, c) == Latest(before, c)
  }

  /** The error that the run's own context gives once it is done is not reported; everything else is. */
  ghost predicate Conveys(before: seq<T.Op>, ops: seq<T.Op>, usable: bool, failure: Option<string>, now: nat,
                          silent: bool)
  {
    if silent && failure.Some? then Unreported(before, ops) else Told(before, ops, usable, failure, now)
  }

  /** Daemon.reconcile; an error is contextual if it is the context's own. */
  method Reconcile(world: World, tracker: T.HealthTracker, c: Config, fs: FileSystem)
    returns (failure: Option<string>, ghost contextual: bool)
    requires Sound(world.env.stream) && tracker.Valid() && fs.Valid() && GoodConfig(c)
    modifies world, tracker, fs
    ensures tracker.Valid() && fs.Valid()
    ensures Attempted(old(world.env), world.env, failure) && (failure.Some? ==> failure.value != "")
    ensures OnlyAbout(old(tracker.ops), tracker.ops, WORK)
    ensures Conveys(old(tracker.ops), tracker.ops, Usable(c, world.env.listing), failure, world.env.now,
                    world.env.ctxDone && contextual)
    ensures Respects(c, fs.outsider, old(HistoryOf(fs)), HistoryOf(fs))
    ensures UpToDate(c, fs.outsider, world.env.attempts, fs.slots)
    ensures failure.Some? ==>
              Stopped(world.env) || Excused(c, fs.outsider, old(HistoryOf(fs)), HistoryOf(fs), world.env.listing)
  {
    hide Moved, Sound, GoodConfig, Respects, InStep, Conveys, OnlyAbout, Attempted, HistoryOf, tracker.Valid,
         fs.Valid, Docker.NoFailure, Docker.Assembled, Renderable, Appliable;
    RespectsItself(c, fs.outsider, HistoryOf(fs));
    ghost var before := world.env;
    var snapshot := AskSource(world, c);
    if !snapshot.Endpoints? {
      failure, contextual := FailSnapshot(world, tracker);
    } else {
      ghost var middle := world.env;
      failure, contextual := ApplySnapshot(world, tracker, c, fs, snapshot.endpoints);
      AnsweredMoves(before, middle, world.env);
    }
    AttemptMoves(before, world.env, failure);
    world.NoteAttempt(failure);
  }

  /** There is no snapshot; an error of a done context is not reported. */
  method FailSnapshot(world: World, tracker: T.HealthTracker)
    returns (failure: Option<string>, ghost contextual: bool)
    requires tracker.Valid()
    modifies tracker
    ensures tracker.Valid() && failure.Some? && failure.value != ""
    ensures OnlyAbout(old(tracker.ops), tracker.ops, WORK)
    ensures Conveys(old(tracker.ops), tracker.ops, false, failure, world.env.now, world.env.ctxDone && contextual)
  {
    hide Latest, tracker.Valid;
    var text: string, own: bool := *, *;
    contextual := own;
    if !world.env.ctxDone || !own {
      OneMore(tracker.ops, T.Op.Fail(T.DockerSnapshot, text, world.env.now), T.DockerSnapshot);
      OneMore(tracker.ops, T.Op.Fail(T.DockerSnapshot, text, world.env.now), T.HostsApply);
      tracker.Fail(T.DockerSnapshot, text, world.env.now);
    }
    failure := Some("snapshot Docker networks: " + text);
  }

  /** The source: a snapshot of what Docker answers. */
  method AskSource(world: World, c: Config) returns (snapshot: Docker.Result)
    requires Sound(world.env.stream)
    modifies world
    ensures Moved(old(world.env), world.env.(listing := old(world.env).listing)) && Sound(world.env.stream)
    ensures snapshot.Endpoints? <==> Usable(c, world.env.listing)
    ensures snapshot.Endpoints? ==> snapshot.endpoints == Docker.Assembled(world.env.listing.items, c.networks)
  {
    hide Moved, Sound, Docker.NoFailure, Docker.Assembled, Docker.AllFinish;
    world.Tick();
    ghost var asked := world.env;
    MovedStops(old(world.env), asked);
    var listing, finished := world.AskDocker();
    AnswerMoves(old(world.env), asked, listing);
    snapshot := Docker.TakeSnapshot(c.networks, listing, finished);
  }

  lemma AnswerMoves(a: Env, b: Env, listing: Docker.Listing)
    requires Moved(a, b)
    ensures Moved(a, b.(listing := listing).(listing := a.listing)) && Sound(b.(listing := listing).stream)
  {
    hide Follows, Sound;
    assert b.(listing := listing).(listing := a.listing) == b;
  }

  lemma AnsweredMoves(a: Env, m: Env, b: Env)
    requires Moved(a, m.(listing := a.listing)) && Moved(m, b)
    ensures Moved(a, b.(listing := a.listing)) && b.listing == m.listing
  {
    hide Follows, Sound;
    MovedTwice(a, m.(listing := a.listing), b.(listing := a.listing));
  }

  /** The second half: the snapshot is applied under the run's context. */
  method ApplySnapshot(world: World, tracker: T.HealthTracker, c: Config, fs: FileSystem, endpoints: seq<Endpoint>)
    returns (failure: Option<string>, ghost contextual: bool)
    requires Sound(world.env.stream) && tracker.Valid() && fs.Valid() && GoodConfig(c)
    modifies world, tracker, fs
    ensures tracker.Valid() && fs.Valid()
    ensures Moved(old(world.env), world.env) && (failure.Some? ==> failure.value != "")
    ensures OnlyAbout(old(tracker.ops), tracker.ops, WORK)
    ensures Conveys(old(tracker.ops), tracker.ops, true, failure, world.env.now, world.env.ctxDone && contextual)
    ensures Respects(c, fs.outsider, old(HistoryOf(fs)), HistoryOf(fs))
    ensures !fs.outsider && failure.None? ==> InStep(c, fs.slots, endpoints)
    ensures !fs.outsider && failure.Some? && Renderable(c, endpoints) && Appliable(c, old(HistoryOf(fs)).slots) ==>
              Stopped(world.env) || HistoryOf(fs).faults > old(HistoryOf(fs)).faults
  {
    hide Moved, Sound, GoodConfig, Respects, InStep, Latest, Renderable, Appliable, OnlyAbout, Conveys, HistoryOf,
         tracker.Valid, fs.Valid;
    ghost var ops := tracker.ops;
    OneMore(ops, T.Op.Recover(T.DockerSnapshot), T.DockerSnapshot);
    tracker.Recover(T.DockerSnapshot);
    var ok := ApplyInRun(world, c, fs, endpoints);
    failure, contextual := NoteApply(world, tracker, ok);
    AboutThen(ops, T.Op.Recover(T.DockerSnapshot), tracker.ops);
    TellsAnyway(ops, tracker.ops, failure, world.env.now, world.env.ctxDone && contextual);
  }

  /** With a snapshot, what was said before of Docker does not matter. */
  lemma TellsAnyway(before: seq<T.Op>, ops: seq<T.Op>, failure: Option<string>, now: nat, silent: bool)
    requires Conveys(before + [T.Op.Recover(T.DockerSnapshot)], ops, true, failure, now, silent)
    ensures Conveys(before, ops, true, failure, now, silent)
  {
    hide Latest;
    forall c: T.Concern ensures Latest(before + [T.Op.Recover(T.DockerSnapshot)], c).None? ||
                                Latest(before + [T.Op.Recover(T.DockerSnapshot)], c) == Latest(before, c)
    {
      OneMore(before, T.Op.Recover(T.DockerSnapshot), c);
    }
  }

  lemma AboutThen(ops: seq<T.Op>, op: T.Op, more: seq<T.Op>)
    requires About(op, WORK) && OnlyAbout(ops + [op], more, WORK)
    ensures OnlyAbout(ops, more, WORK)
  {
    assert more[|ops|] == (ops + [op])[|ops|];
  }

  /** The call of the store. */
  method ApplyInRun(world: World, c: Config, fs: FileSystem, endpoints: seq<Endpoint>) returns (ok: bool)
    requires Sound(world.env.stream) && fs.Valid() && GoodConfig(c)
    modifies world, fs
    ensures fs.Valid() && Moved(old(world.env), world.env)
    ensures Respects(c, fs.outsider, old(HistoryOf(fs)), HistoryOf(fs))
    ensures !fs.outsider && ok ==> InStep(c, fs.slots, endpoints)
    ensures !fs.outsider && !ok && Renderable(c, endpoints) && Appliable(c, old(HistoryOf(fs)).slots) ==>
              Stopped(world.env) || HistoryOf(fs).faults > old(HistoryOf(fs)).faults
  {
    hide Moved, Sound, GoodConfig, OnlyGuarded, NothingLost, Preserves, InStep, Renderable, Appliable, fs.Valid;
    var ctx := new Context(world.env.ctxDone);
    var out := ApplyOnce(c, fs, ctx, endpoints);
    PassCall(world, ctx.done);
    ok := out.Done?;
  }

  /** What the tracker is told of it; an error of a done context is not reported. */
  method NoteApply(world: World, tracker: T.HealthTracker, ok: bool)
    returns (failure: Option<string>, ghost contextual: bool)
    requires tracker.Valid() && Latest(tracker.ops, T.DockerSnapshot).None?
    modifies tracker
    ensures tracker.Valid() && failure.Some? == !ok && (failure.Some? ==> failure.value != "")
    ensures OnlyAbout(old(tracker.ops), tracker.ops, WORK)
    ensures Conveys(old(tracker.ops), tracker.ops, true, failure, world.env.now, world.env.ctxDone && contextual)
  {
    hide Latest, tracker.Valid;
    ghost var ops := tracker.ops;
    contextual := false;
    if !ok {
      var text: string, own: bool := *, *;
      contextual := own;
      if !world.env.ctxDone || !own {
        OneMore(ops, T.Op.Fail(T.HostsApply, text, world.env.now), T.HostsApply);
        OneMore(ops, T.Op.Fail(T.HostsApply, text, world.env.now), T.DockerSnapshot);
        tracker.Fail(T.HostsApply, text, world.env.now);
      }
      failure := Some("apply hosts snapshot: " + text);
      return;
    }
    OneMore(ops, T.Op.Recover(T.HostsApply), T.HostsApply);
    OneMore(ops, T.Op.Recover(T.HostsApply), T.DockerSnapshot);
    tracker.Recover(T.HostsApply);
    failure := None;
  }

  /** A call under the run's context has returned; if it found the context done, it is. */
  method PassCall(world: World, cancelled: bool)
    requires Sound(world.env.stream)
    modifies world
    ensures Moved(old(world.env), world.env) && (cancelled ==> world.env.ctxDone)
  {
    hide Moved, Sound;
    world.Tick();
    if cancelled {
      ghost var e := world.env;
      MovedStops(old(world.env), e);
      world.Cancel();
      MovedTwice(old(world.env), e, world.env);
    }
  }
}
