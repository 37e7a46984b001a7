/** Daemon.Run of daemon/daemon.go: startup, the loop, and cleanup on every way out. */
module Daemon {
  import opened Basics
  import opened Mapper
  import opened Backoff
  import opened World
  import opened Disk
  import opened Replacement
  import opened Transaction
  import opened Store
  import opened StoreApply
  import opened StoreRuns
  import opened Reconciler
  import opened TrackerLaws
  import opened LoopModel
  import opened LoopState
  import opened Heads
  import opened Loop
  import T = Tracker

  /** The parts of Run's joined error. */
  datatype Part = PingFailed | StartFailed | PrepareFailed | HealthStopped | ShutdownFailed | CloseFailed

  /******* Cleanup *******/

  function Count<A(==)>(s: seq<A>, x: A): nat {
    multiset(s)[x]
  }

  /** Whether the server was started, as the acts of a run show it. */
  predicate HasStarted(acts: seq<Act>) {
    Started(true) in acts
  }

  /** The server had finished when cleanup looked. */
  predicate SeenDone(acts: seq<Act>) {
    Looked(true) in acts
  }

  /** The server had finished when it was shut down. */
  predicate WasDone(acts: seq<Act>) {
    ShutDown(true, true) in acts || ShutDown(true, false) in acts
  }

  /** The shutdown failed. */
  predicate NotShutDown(acts: seq<Act>) {
    ShutDown(true, false) in acts || ShutDown(false, false) in acts
  }

  /** Docker answered and the server was started. */
  const UP: seq<Act> := [Pinged(true), Started(true)]

  /** Startup up to a server that runs, or as far as it came. */
  ghost predicate Opening(acts: seq<Act>, started: bool) {
    if started then acts == UP
    else acts == [] || acts == [Pinged(true)] || acts == [Pinged(false)] || acts == [Pinged(true), Started(false)]
  }

  /** Resources are released exactly once and in order, with no stream left: the server, if it was started, is
      looked at, shut down and waited for before the source is closed. */
  ghost predicate Released(acts: seq<Act>) {
    && acts != []
    && (acts[|acts| - 1] == SourceClosed({}, true) || acts[|acts| - 1] == SourceClosed({}, false))
    && (|| Opening(acts[..|acts| - 1], false)
        || (|acts| == 5 && acts[..2] == UP && acts[2] == Looked(SeenDone(acts)) &&
            acts[3] == ShutDown(WasDone(acts), !NotShutDown(acts))))
  }

  predicate Is(part: Option<Part>, x: Part) {
    part == Some(x)
  }

  function One(b: bool): nat {
    if b then 1 else 0
  }

  /** A failed shutdown and a failed close are reported once each, beside the run's own error. */
  ghost predicate ReportsCleanup(parts: seq<Part>, runError: Option<Part>, acts: seq<Act>) {
    && Count(parts, ShutdownFailed) == One(Is(runError, ShutdownFailed)) + One(NotShutDown(acts))
    && Count(parts, CloseFailed) == One(Is(runError, CloseFailed)) + One(SourceClosed({}, false) in acts)
    && Count(parts, PingFailed) == One(Is(runError, PingFailed))
    && Count(parts, StartFailed) == One(Is(runError, StartFailed))
    && Count(parts, PrepareFailed) == One(Is(runError, PrepareFailed))
  }

  /** Every failure of a resource is reported exactly once and nothing else is: an unanswered ping and a failed start
      unless the caller had cancelled, a failed shutdown and a failed close always. */
  ghost predicate ReportsResources(parts: seq<Part>, e: Env) {
    && Count(parts, PingFailed) == One(Pinged(false) in e.acts && !e.parentDone)
    && Count(parts, StartFailed) == One(Started(false) in e.acts && !e.parentDone)
    && Count(parts, ShutdownFailed) == One(NotShutDown(e.acts))
    && Count(parts, CloseFailed) == One(SourceClosed({}, false) in e.acts)
  }

  /** The server's end is reported exactly once if it was seen, or was an error, and otherwise not at all. */
  ghost predicate ReportsServer(parts: seq<Part>, acts: seq<Act>, serverError: bool) {
    Count(parts, HealthStopped) == if HasStarted(acts) && (SeenDone(acts) || serverError) then 1 else 0
  }

  /** A server that ended before its shutdown or with an error is reported, and no other, unless it ended without an
      error between cleanup's look and the shutdown. */
  lemma ReportedIffFinished(parts: seq<Part>, acts: seq<Act>, serverError: bool)
    requires Released(acts) && HasStarted(acts) && ReportsServer(parts, acts, serverError)
    requires SeenDone(acts) ==> WasDone(acts)
    ensures (Count(parts, HealthStopped) == 1 <==> WasDone(acts) || serverError) <==>
            !(WasDone(acts) && !SeenDone(acts) && !serverError)
  {
  }

  /** What the world does while Run cleans up: the moment of the look, the moment of the shutdown, and what fails. */
  datatype Closing = Closing(seen: Env, later: Env, failed: bool, shutdownFails: bool, closeFails: bool)

  ghost predicate MayClose(e: Env, how: Closing) {
    Moved(e, how.seen) && Moved(LookedEnv(how.seen), how.later)
  }

  /** The world after cleanup. */
  function CleanedEnv(e: Env, started: bool, how: Closing): Env {
    ClosedEnv(if started then ShutEnv(how.later, how.failed, !how.shutdownFails) else e, !how.closeFails)
  }

  /** The server was seen to have finished, or finished with an error. */
  predicate Ended(how: Closing) {
    how.seen.serverDone || if how.later.serverDone then how.later.serverError else how.failed
  }

  /** The joined error after cleanup. */
  function CleanedParts(started: bool, runError: Option<Part>, captured: bool, how: Closing): seq<Part> {
    Joined(runError)
    + Joined(if started && !captured && Ended(how) then Some(HealthStopped) else None)
    + Joined(if started && how.shutdownFails then Some(ShutdownFailed) else None)
    + Joined(if how.closeFails then Some(CloseFailed) else None)
  }

  /** From every state with a server still running: it may end without an error between the look and the shutdown, and
      a cleanup with nothing else to report then reports nothing. */
  lemma UnseenFinish(e: Env)
    requires Sound(e.stream) && e.serving && !e.serverDone && e.live == {} && e.acts == UP
    ensures exists how ::
              && MayClose(e, how)
              && CleanedParts(true, None, false, how) == []
              && Released(CleanedEnv(e, true, how).acts) && WasDone(CleanedEnv(e, true, how).acts)
              && !SeenDone(CleanedEnv(e, true, how).acts) && !CleanedEnv(e, true, how).serverError
  {
    hide Sound, Released;
    MovedNot(e);
    var looked := LookedEnv(e);
    FollowsItself(looked.stream);
    var later := looked.(serverDone := true, serverError := false);
    var how := Closing(e, later, false, false, false);
    assert Moved(looked, later);
    ActsAre(e.acts, CleanedEnv(e, true, how).acts, true, false, true, true, true);
    assert MayClose(e, how);
  }

  /** cleanup: shut down the server if it was started, wait for it, then close the source. */
  method Cleanup(world: World, started: bool, runError: Option<Part>, captured: bool)
    returns (parts: seq<Part>, ghost how: Closing)
    requires Sound(world.env.stream) && started == world.env.serving && world.env.live == {}
    requires Opening(world.env.acts, started)
    requires captured ==> started && world.env.serverDone
    requires captured <==> runError == Some(HealthStopped)
    modifies world
    ensures started ==> MayClose(old(world.env), how)
    ensures world.env == CleanedEnv(old(world.env), started, how)
    ensures parts == CleanedParts(started, runError, captured, how)
    ensures Released(world.env.acts) && (HasStarted(world.env.acts) <==> started)
    ensures ReportsServer(parts, world.env.acts, world.env.serverError)
    ensures ReportsCleanup(parts, runError, world.env.acts)
  {
    hide Sound, Moved, Released, HasStarted, ReportsServer, ReportsCleanup, Opening;
    var shutdownOk := true;
    ghost var e, seen, later, failed := world.env, world.env, world.env, false;
    var terminal: Option<Part> := None;
    if started {
      world.Tick();
      seen := world.env;
      MovedStops(e, seen);
      var completed := world.LookAtServer();
      world.Tick();
      later := world.env;
      MovedSame(LookedEnv(seen), later);
      MovedSame(e, seen);
      shutdownOk, failed := world.ShutdownServer();
      if !captured {
        if world.env.serverError {
          terminal := Some(HealthStopped);
        } else if completed {
          terminal := Some(HealthStopped);
        }
      }
    }
    var closed := world.CloseSource();
    var shutdown := if shutdownOk then None else Some(ShutdownFailed);
    var closing := if closed then None else Some(CloseFailed);
    parts := Joined(runError) + Joined(terminal) + Joined(shutdown) + Joined(closing);
    how := Closing(seen, later, failed, !shutdownOk, !closed);
    CleanupReleases(e, started, runError, captured, how);
  }

  /** What cleanup leaves: everything released once and in order, and the server's end reported exactly once if the
      look found it or it was an error, and otherwise not at all. */
  lemma CleanupReleases(e: Env, started: bool, runError: Option<Part>, captured: bool, how: Closing)
    requires started == e.serving && e.live == {} && Opening(e.acts, started)
    requires (captured ==> started && e.serverDone) && (captured <==> runError == Some(HealthStopped))
    requires started ==> MayClose(e, how)
    ensures var parts, after := CleanedParts(started, runError, captured, how), CleanedEnv(e, started, how);
            && Released(after.acts) && (HasStarted(after.acts) <==> started) && after.serving == started
            && (SeenDone(after.acts) ==> WasDone(after.acts))
            && ReportsServer(parts, after.acts, after.serverError)
            && ReportsCleanup(parts, runError, after.acts)
            && (Pinged(false) in after.acts <==> Pinged(false) in e.acts)
            && (Started(false) in after.acts <==> Started(false) in e.acts)
            && (!started ==> after.parentDone == e.parentDone)
            && (started && e.serverDone ==> HealthStopped in parts)
            && (runError.Some? ==> runError.value in parts)
            && (e.parentDone ==> after.parentDone) && (e.ctxDone ==> after.ctxDone)
            && SameLogs(e, after) && after.cut == e.cut && after.granted == e.granted
  {
    hide Sound, Moved, Count, Released, Opening, HasStarted, SeenDone, WasDone, NotShutDown, CleanedParts, CleanedEnv,
         MayClose;
    CleanedCounts(started, runError, captured, how);
    CleanedKeeps(e, started, how);
    ActsAre(e.acts, CleanedEnv(e, started, how).acts, started, how.seen.serverDone, how.later.serverDone,
            !how.shutdownFails, !how.closeFails);
  }

  /** The world that cleanup leaves. */
  lemma CleanedKeeps(e: Env, started: bool, how: Closing)
    requires started == e.serving && e.live == {} && (started ==> MayClose(e, how))
    ensures var after := CleanedEnv(e, started, how);
            && after.acts == CleanedActs(e.acts, started, how.seen.serverDone, how.later.serverDone,
                                         !how.shutdownFails, !how.closeFails)
            && after.serving == started
            && (started ==> (after.serverError || how.seen.serverDone <==> Ended(how)))
            && (started && how.seen.serverDone ==> how.later.serverDone)
            && (started && e.serverDone ==> how.seen.serverDone)
            && (e.parentDone ==> after.parentDone) && (e.ctxDone ==> after.ctxDone)
            && (!started ==> after.parentDone == e.parentDone)
            && SameLogs(e, after) && after.cut == e.cut && after.granted == e.granted
  {
    hide Sound, Moved;
    if started {
      MovedSame(e, how.seen);
      MovedSame(LookedEnv(how.seen), how.later);
      MovedCut(e, how.seen);
      MovedCut(LookedEnv(how.seen), how.later);
    }
  }

  /** How often each part occurs in the joined error after cleanup. */
  lemma CleanedCounts(started: bool, runError: Option<Part>, captured: bool, how: Closing)
    ensures var parts := CleanedParts(started, runError, captured, how);
            && (forall x :: Count(parts, x) ==
                  One(Is(runError, x)) + One(x.HealthStopped? && started && !captured && Ended(how))
                  + One(x.ShutdownFailed? && started && how.shutdownFails) + One(x.CloseFailed? && how.closeFails))
            && (started && !captured && Ended(how) ==> HealthStopped in parts)
            && (runError.Some? ==> runError.value in parts)
  {
    hide Count;
    var parts := CleanedParts(started, runError, captured, how);
    forall x ensures Count(parts, x) ==
        One(Is(runError, x)) + One(x.HealthStopped? && started && !captured && Ended(how))
        + One(x.ShutdownFailed? && started && how.shutdownFails) + One(x.CloseFailed? && how.closeFails)
    {
      JoinedCounts(runError, if started && !captured && Ended(how) then Some(HealthStopped) else None,
                   if started && how.shutdownFails then Some(ShutdownFailed) else None,
                   if how.closeFails then Some(CloseFailed) else None, x);
    }
  }

  /** Nothing was reconciled, received or opened. */
  ghost predicate SameLogs(a: Env, b: Env) {
    b.attempts == a.attempts && b.received == a.received && b.streams == a.streams
  }

  function CleanedActs(first: seq<Act>, started: bool, seen: bool, done: bool, shut: bool, closed: bool): seq<Act> {
    (if started then first + [Looked(seen)] + [ShutDown(done, shut)] else first) + [SourceClosed({}, closed)]
  }

  lemma ActsAre(first: seq<Act>, acts: seq<Act>, started: bool, seen: bool, done: bool, shut: bool, closed: bool)
    requires Opening(first, started) && acts == CleanedActs(first, started, seen, done, shut, closed)
    ensures Released(acts) && (HasStarted(acts) <==> started)
    ensures SeenDone(acts) <==> started && seen
    ensures WasDone(acts) <==> started && done
    ensures NotShutDown(acts) <==> started && !shut
    ensures SourceClosed({}, false) in acts <==> !closed
    ensures Pinged(false) in acts <==> Pinged(false) in first
    ensures Started(false) in acts <==> Started(false) in first
  {
    if started {
      assert acts == [Pinged(true), Started(true), Looked(seen), ShutDown(done, shut), SourceClosed({}, closed)];
      StartedActs(acts, seen, done, shut, closed);
    } else {
      UnstartedActs(first, acts, closed);
    }
  }

  lemma StartedActs(acts: seq<Act>, seen: bool, done: bool, shut: bool, closed: bool)
    requires acts == [Pinged(true), Started(true), Looked(seen), ShutDown(done, shut), SourceClosed({}, closed)]
    ensures Released(acts) && HasStarted(acts) && Pinged(false) !in acts && Started(false) !in acts
    ensures SeenDone(acts) == seen && WasDone(acts) == done && NotShutDown(acts) == !shut
    ensures SourceClosed({}, false) in acts <==> !closed
  {
    assert acts[0] == Pinged(true) && acts[1] == Started(true) && acts[2] == Looked(seen);
    assert acts[3] == ShutDown(done, shut) && acts[4] == SourceClosed({}, closed);
    assert acts[..2] == UP;
  }

  lemma UnstartedActs(first: seq<Act>, acts: seq<Act>, closed: bool)
    requires Opening(first, false) && acts == first + [SourceClosed({}, closed)]
    ensures Released(acts) && !HasStarted(acts) && !SeenDone(acts) && !WasDone(acts) && !NotShutDown(acts)
    ensures SourceClosed({}, false) in acts <==> !closed
    ensures Pinged(false) in acts <==> Pinged(false) in first
    ensures Started(false) in acts <==> Started(false) in first
  {
    assert acts[..|first|] == first && acts[|first|] == SourceClosed({}, closed);
  }

  function Joined(part: Option<Part>): seq<Part> {
    if part.Some? then [part.value] else []
  }

  lemma JoinedCount(part: Option<Part>, x: Part)
    ensures Count(Joined(part), x) == One(Is(part, x))
  {
  }

  lemma JoinedCounts(a: Option<Part>, b: Option<Part>, c: Option<Part>, d: Option<Part>, x: Part)
    ensures Count(Joined(a) + Joined(b) + Joined(c) + Joined(d), x) ==
            One(Is(a, x)) + One(Is(b, x)) + One(Is(c, x)) + One(Is(d, x))
  {
    hide Joined, Is, One;
    JoinedCount(a, x);
    JoinedCount(b, x);
    JoinedCount(c, x);
    JoinedCount(d, x);
  }

  /** The place of a part in the joined error. */
  function Rank(part: Part): nat {
    match part
    case CloseFailed => 3
    case ShutdownFailed => 2
    case HealthStopped => 1
    case _ => 0
  }

  /** The run's own error first, then the server's, the shutdown's and the close's. */
  ghost predicate InOrder(parts: seq<Part>) {
    forall i, j :: 0 <= i < j < |parts| ==> Rank(parts[i]) < Rank(parts[j])
  }

  lemma CleanedInOrder(started: bool, runError: Option<Part>, captured: bool, how: Closing)
    requires captured <==> runError == Some(HealthStopped)
    requires runError.Some? ==> StartupPart(runError.value)
    ensures InOrder(CleanedParts(started, runError, captured, how))
  {
    hide Ended;
  }

  /******* Startup *******/

  /** startupStop. */
  method StartupStop(world: World) returns (stop: bool, captured: bool)
    requires Sound(world.env.stream)
    modifies world
    ensures Moved(old(world.env), world.env)
    ensures captured ==> stop && world.env.serverDone
    ensures stop && !captured ==> world.env.parentDone
    ensures !stop ==> !old(world.env).parentDone && !old(world.env).serverDone
    ensures old(world.env).parentDone ==> stop && !captured
  {
    hide Sound, Moved;
    world.Tick();
    ghost var e := world.env;
    MovedStops(old(world.env), e);
    if world.env.parentDone {
      return true, false;
    }
    world.Tick();
    MovedTwice(old(world.env), e, world.env);
    MovedStops(e, world.env);
    if world.env.serverDone {
      return true, true;
    }
    return false, false;
  }

  /** Where a phase of Run ended: with a result for cleanup, or ready for the next phase. */
  datatype Phase = Finish(error: Option<Part>, captured: bool) | Proceed(failure: Option<string>)

  function Verdict(captured: bool): Phase {
    Finish(if captured then Some(HealthStopped) else None, captured)
  }

  /** The end of a phase is captured exactly when it is the server's, and the server has then finished; it is a failed
      ping or a failed start exactly when that failed and the caller has not cancelled; and a phase ends without an
      error only when the run has been told to stop. */
  ghost predicate GoodEnd(phase: Phase, e: Env) {
    phase.Finish? ==>
      && (phase.captured <==> phase.error == Some(HealthStopped))
      && (phase.captured ==> e.serverDone)
      && (phase.error.None? ==> e.parentDone || e.serverDone)
      && (phase.error.Some? ==> StartupPart(phase.error.value))
      && (phase.error == Some(PingFailed) <==> Pinged(false) in e.acts && !e.parentDone)
      && (phase.error == Some(StartFailed) <==> Started(false) in e.acts && !e.parentDone)
      && (phase.error == Some(PrepareFailed) ==> !e.parentDone)
  }

  /** A phase ends with a failed Prepare exactly when the tracker says so. */
  ghost predicate TellsPrepare(phase: Phase, ops: seq<T.Op>) {
    (phase.Finish? && phase.error == Some(PrepareFailed)) <==> Latest(ops, T.Recovery).Some?
  }

  predicate StartupPart(part: Part) {
    part.PingFailed? || part.StartFailed? || part.PrepareFailed? || part.HealthStopped?
  }

  /** A world in which a run can begin. */
  ghost predicate Unused(e: Env) {
    && Sound(e.stream) && Caused(e) && !e.serving && !e.serverDone && !e.cut
    && e.live == {} && e.granted == 0 && e.attempts == [] && e.acts == []
  }

  /** Startup under way: nothing has been reconciled and no stream opened. */
  ghost predicate Starting(e: Env, started: bool) {
    && Sound(e.stream) && Caused(e) && e.serving == started && !e.cut
    && e.live == {} && e.granted == 0 && e.attempts == [] && Opening(e.acts, started)
  }

  ghost predicate NoFailures(ops: seq<T.Op>) {
    forall c: T.Concern :: Latest(ops, c).None?
  }

  lemma StartingMoves(a: Env, b: Env, started: bool)
    requires Starting(a, started) && Moved(a, b)
    ensures Starting(b, started) && (!started ==> b.serverDone == a.serverDone)
    ensures (a.parentDone ==> b.parentDone) && b.acts == a.acts
  {
    hide Sound, Follows;
  }

  /** Time passes during startup. */
  method StartupTick(world: World, ghost started: bool)
    requires Starting(world.env, started)
    modifies world
    ensures Starting(world.env, started) && (!started ==> world.env.serverDone == old(world.env).serverDone)
    ensures (old(world.env).parentDone ==> world.env.parentDone) && world.env.acts == old(world.env).acts
  {
    hide Starting, Moved, Sound;
    ghost var e := world.env;
    StartingIsSound(e, started);
    world.Tick();
    StartingMoves(e, world.env, started);
  }

  lemma StartingIsSound(e: Env, started: bool)
    requires Starting(e, started)
    ensures Sound(e.stream) && Caused(e)
  {
  }

  /** From the first line of Run to a started server. */
  method BringUp(world: World, tracker: T.HealthTracker) returns (phase: Phase, started: bool)
    requires Unused(world.env) && tracker.Valid() && NoFailures(tracker.ops)
    modifies world, tracker
    ensures Starting(world.env, started) && GoodEnd(phase, world.env) && (phase.Proceed? <==> started)
    ensures phase.Finish? ==> !phase.captured && !world.env.serverDone
    ensures tracker.Valid() && NoFailures(tracker.ops) && (started ==> !Ready(tracker.ops))
    ensures started || world.env.parentDone || Pinged(false) in world.env.acts || Started(false) in world.env.acts
    ensures TellsPrepare(phase, tracker.ops)
  {
    hide Sound, Latest, tracker.Valid;
    assert Starting(world.env, false);
    StartupTick(world, false);
    if world.env.parentDone {
      return Finish(None, false), false;
    }
    var ok := world.PingSource();
    StartupTick(world, false);
    if !ok {
      return Finish(if world.env.parentDone then None else Some(PingFailed), false), false;
    }
    if world.env.parentDone {
      return Finish(None, false), false;
    }
    BeginsWithoutFailures(tracker.ops);
    tracker.BeginInitialization();
    StartupTick(world, false);
    ok := world.StartServer();
    if !ok {
      return Finish(if world.env.parentDone then None else Some(StartFailed), false), false;
    }
    return Proceed(None), true;
  }

  lemma BeginsWithoutFailures(ops: seq<T.Op>)
    requires NoFailures(ops)
    ensures NoFailures(ops + [T.Op.Begin]) && !Ready(ops + [T.Op.Begin])
  {
    OneMore(ops, T.Op.Begin, T.Recovery);
    forall c: T.Concern ensures Latest(ops + [T.Op.Begin], c).None? {
      OneMore(ops, T.Op.Begin, c);
    }
  }

  /** What preparing does to the hosts file. */
  ghost predicate Prepares(c: Config, outsider: bool, a: History, b: History, ok: bool) {
    && OnlyGuarded(a.commits, b.commits) && OnlyPrepares(c, a.commits, b.commits)
    && (!outsider ==>
          var goal := PreparedTarget(c, ViewOf(a.slots));
          AllWithin(a.trace, b.trace, a.slots.target, goal) && Within(a.slots.target, goal, b.slots.target))
    && (!outsider && ok ==> MirroredPair(c, b.slots) && ViewOf(b.slots) == PreparedView(c, ViewOf(a.slots)))
  }

  /** Preparing the hosts file, under the run's own context. */
  method PrepareStore(world: World, tracker: T.HealthTracker, c: Config, fs: FileSystem)
    returns (phase: Phase, ghost contextual: bool)
    requires Starting(world.env, true) && tracker.Valid() && NoFailures(tracker.ops) && fs.Valid() && GoodConfig(c)
    modifies world, tracker, fs
    ensures Starting(world.env, true) && GoodEnd(phase, world.env)
    ensures tracker.Valid() && fs.Valid() && Ready(tracker.ops) == Ready(old(tracker.ops))
    ensures (phase.Proceed? ==> NoFailures(tracker.ops)) && TellsPrepare(phase, tracker.ops)
    ensures phase.Finish? ==>
              if world.env.parentDone || (world.env.ctxDone && contextual) then phase.error.None?
              else phase.error == Some(PrepareFailed) && Latest(tracker.ops, T.Recovery).Some?
    ensures Prepares(c, fs.outsider, old(HistoryOf(fs)), HistoryOf(fs), phase.Proceed?)
  {
    hide Sound, Moved, Latest, tracker.Valid, fs.Valid, GoodConfig, OnlyGuarded, OnlyPrepares, AllWithin, Within,
         PreparedTarget, PreparedView, MirroredPair, LeftInitialized, TargetKept, BackupKept, Kept, Irrecoverable,
         Preparable, Damaged, ValidFile;
    StartingIsSound(world.env, true);
    var ctx := new Context(world.env.ctxDone);
    var prepared := Prepare(c, fs, ctx);
    ghost var e := world.env;
    PassCall(world, ctx.done);
    StartingMoves(e, world.env, true);
    if prepared.NotPrepared? {
      var text: string, own: bool := *, *;
      contextual := own;
      if !world.env.parentDone && (!world.env.ctxDone || !own) {
        OneMore(tracker.ops, T.Op.Fail(T.Recovery, text, world.env.now), T.Recovery);
        tracker.Fail(T.Recovery, text, world.env.now);
        phase := Finish(Some(PrepareFailed), false);
      } else {
        phase := Finish(None, false);
      }
      return;
    }
    RecoversWithoutFailures(tracker.ops);
    tracker.Recover(T.Recovery);
    phase, contextual := Proceed(None), false;
  }

  lemma RecoversWithoutFailures(ops: seq<T.Op>)
    requires NoFailures(ops)
    ensures NoFailures(ops + [T.Op.Recover(T.Recovery)])
    ensures Ready(ops + [T.Op.Recover(T.Recovery)]) == Ready(ops)
  {
    OneMore(ops, T.Op.Recover(T.Recovery), T.Recovery);
    forall c: T.Concern ensures Latest(ops + [T.Op.Recover(T.Recovery)], c).None? {
      OneMore(ops, T.Op.Recover(T.Recovery), c);
    }
  }

  /** The first reconciliation has ended, and the server is up. */
  ghost predicate Introducing(e: Env, failure: Option<string>) {
    && Sound(e.stream) && Caused(e) && e.serving && e.live == {} && e.granted == 0 && e.acts == UP && !e.cut
    && |e.attempts| == 1 && e.attempts[0].failure == failure && e.attempts[0].at <= e.now
  }

  lemma AttemptIntroduces(a: Env, b: Env, failure: Option<string>)
    requires Starting(a, true) && Attempted(a, b, failure)
    ensures Introducing(b, failure)
  {
    hide Moved, Sound;
    AttemptedStops(a, b, failure);
    MovedGrants(a, b.(attempts := a.attempts, listing := a.listing));
  }

  lemma MovedGrants(a: Env, b: Env)
    requires Moved(a, b)
    ensures b.granted == a.granted && b.cut == a.cut
  {
    hide Sound, Follows;
  }

  lemma IntroducingMoves(a: Env, b: Env, failure: Option<string>)
    requires Introducing(a, failure) && Moved(a, b)
    ensures Introducing(b, failure)
  {
    hide Sound, Follows;
  }

  /** What the tracker shows of the first reconciliation. */
  ghost predicate Shown(e: Env, ops: seq<T.Op>, failure: Option<string>) {
    && Losses(ops) == 0 && Latest(ops, T.Recovery).None?
    && (failure.Some? ==> failure.value != "")
    && (!Stopped(e) ==> Names(ops, failure))
  }

  lemma ReconcileShows(e: Env, ops: seq<T.Op>, more: seq<T.Op>, failure: Option<string>)
    requires NoFailures(ops) && OnlyAbout(ops, more, WORK) && (failure.Some? ==> failure.value != "")
    requires !Stopped(e) ==> Names(more, failure)
    ensures Shown(e, more, failure)
  {
    hide Latest, Failures;
    OthersUnseen(ops, more, WORK, T.DockerEvents);
    OthersUnseen(ops, more, WORK, T.Recovery);
  }

  /** Readiness is declared last if at all. */
  ghost predicate ReadiesLast(ops: seq<T.Op>, more: seq<T.Op>) {
    ops <= more && forall i :: |ops| <= i < |more| - 1 ==> !more[i].Complete?
  }

  lemma ReconcilesThenReadies(ops: seq<T.Op>, middle: seq<T.Op>, more: seq<T.Op>)
    requires OnlyAbout(ops, middle, WORK) && (more == middle || more == middle + [T.Op.Complete])
    ensures ReadiesLast(ops, more)
  {
  }

  /** The first reconciliation, and the declaration of readiness. */
  method FirstReconcile(p: Params, world: World, tracker: T.HealthTracker, c: Config, fs: FileSystem)
    returns (phase: Phase, ghost failure: Option<string>)
    requires GoodParams(p)
    requires Starting(world.env, true) && tracker.Valid() && NoFailures(tracker.ops) && fs.Valid() && GoodConfig(c)
    modifies world, tracker, fs
    ensures Introducing(world.env, failure) && GoodEnd(phase, world.env)
    ensures tracker.Valid() && fs.Valid() && TellsPrepare(phase, tracker.ops)
    ensures ReadiesLast(old(tracker.ops), tracker.ops)
    ensures phase.Proceed? ==> Begins(p, phase.failure, world.env, tracker.ops)
    ensures UpToDate(c, fs.outsider, world.env.attempts, fs.slots)
    ensures Respects(c, fs.outsider, old(HistoryOf(fs)), HistoryOf(fs))
  {
    hide Sound, Moved, Latest, Failures, T.Run, GoodConfig, UpToDate, Respects, Usable, Attempted, OnlyAbout,
         HistoryOf, tracker.Valid, fs.Valid, Introducing, Shown;
    StartingIsSound(world.env, true);
    ghost var e, ops := world.env, tracker.ops;
    var result, _ := Reconcile(world, tracker, c, fs);
    failure := result;
    AttemptIntroduces(e, world.env, failure);
    ReconcileShows(world.env, ops, tracker.ops, failure);
    ghost var middle := tracker.ops;
    phase := DeclareReady(p, world, tracker, result);
    ReconcilesThenReadies(ops, middle, tracker.ops);
  }

  /** The rest of startup. */
  method DeclareReady(p: Params, world: World, tracker: T.HealthTracker, failure: Option<string>) returns (phase: Phase)
    requires GoodParams(p) && tracker.Valid()
    requires Introducing(world.env, failure) && Shown(world.env, tracker.ops, failure)
    modifies world, tracker
    ensures Introducing(world.env, failure) && GoodEnd(phase, world.env) && tracker.Valid()
    ensures TellsPrepare(phase, tracker.ops)
    ensures phase.Proceed? ==> Begins(p, phase.failure, world.env, tracker.ops)
    ensures world.env.attempts == old(world.env).attempts
    ensures tracker.ops == old(tracker.ops) || tracker.ops == old(tracker.ops) + [T.Op.Complete]
  {
    hide Sound, Moved, Introducing, Shown, GoodEnd, TellsPrepare, tracker.Valid, Latest, Failures;
    ghost var e := world.env;
    IntroducedIsSound(e, failure);
    var stop, captured := StartupStop(world);
    ghost var e1 := world.env;
    ShownMoves(e, e1, tracker.ops, failure);
    if stop {
      ShownEnds(e1, tracker.ops, failure, captured);
      return Verdict(captured);
    }
    world.Tick();
    ghost var e2 := world.env;
    ShownMoves(e1, e2, tracker.ops, failure);
    if !world.env.parentDone && !world.env.ctxDone {
      CompletesShown(e2, tracker.ops, failure);
      tracker.CompleteInitialization();
    }
    stop, captured := StartupStop(world);
    ShownMoves(e2, world.env, tracker.ops, failure);
    if stop {
      ShownEnds(world.env, tracker.ops, failure, captured);
      return Verdict(captured);
    }
    IsBeginning(p, world.env, tracker.ops, failure);
    return Proceed(failure);
  }

  lemma IntroducedIsSound(e: Env, failure: Option<string>)
    requires Introducing(e, failure)
    ensures Sound(e.stream)
  {
  }

  /** Once the first reconciliation has ended, a stop is a good end of startup. */
  lemma ShownEnds(e: Env, ops: seq<T.Op>, failure: Option<string>, captured: bool)
    requires Introducing(e, failure) && Shown(e, ops, failure)
    requires if captured then e.serverDone else e.parentDone
    ensures GoodEnd(Verdict(captured), e) && TellsPrepare(Verdict(captured), ops)
  {
    hide Sound, Latest, Losses, Names;
  }

  lemma ShownMoves(a: Env, b: Env, ops: seq<T.Op>, failure: Option<string>)
    requires Introducing(a, failure) && Shown(a, ops, failure) && Moved(a, b)
    ensures Introducing(b, failure) && Shown(b, ops, failure) && Sound(b.stream) && b.attempts == a.attempts
    ensures (a.parentDone ==> b.parentDone) && (a.serverDone ==> b.serverDone) && (a.ctxDone ==> b.ctxDone)
  {
    hide Moved, Introducing, Latest, Failures, Names;
    IntroducingMoves(a, b, failure);
    MovedStops(a, b);
    MovedSame(a, b);
  }

  lemma CompletesShown(e: Env, ops: seq<T.Op>, failure: Option<string>)
    requires Shown(e, ops, failure)
    ensures Shown(e, ops + [T.Op.Complete], failure) && Ready(ops + [T.Op.Complete])
  {
    hide Latest, Failures;
    OneMore(ops, T.Op.Complete, T.DockerEvents);
    OneMore(ops, T.Op.Complete, T.Recovery);
    OneMore(ops, T.Op.Complete, T.DockerSnapshot);
    OneMore(ops, T.Op.Complete, T.HostsApply);
  }

  lemma IsBeginning(p: Params, e: Env, ops: seq<T.Op>, failure: Option<string>)
    requires GoodParams(p) && Introducing(e, failure) && Shown(e, ops, failure) && (!Stopped(e) ==> Ready(ops))
    ensures Begins(p, failure, e, ops) && GoodEnd(Proceed(failure), e) && TellsPrepare(Proceed(failure), ops)
  {
    hide Sound, Latest, Failures;
  }

  /** From the started server to the loop: prepare, reconcile once, declare readiness. */
  method Initialize(p: Params, world: World, tracker: T.HealthTracker, c: Config, fs: FileSystem)
    returns (phase: Phase, ghost prepared: History)
    requires GoodParams(p)
    requires Starting(world.env, true) && tracker.Valid() && NoFailures(tracker.ops) && fs.Valid() && GoodConfig(c)
    requires !Ready(tracker.ops)
    modifies world, tracker, fs
    ensures Launched(world.env) && GoodEnd(phase, world.env)
    ensures tracker.Valid() && fs.Valid() && TellsPrepare(phase, tracker.ops)
    ensures world.env.attempts == [] ==> !Ready(tracker.ops)
    ensures phase.Proceed? ==> Begins(p, phase.failure, world.env, tracker.ops)
    ensures phase.Proceed? ==> UpToDate(c, fs.outsider, world.env.attempts, fs.slots)
    ensures Prepares(c, fs.outsider, old(HistoryOf(fs)), prepared, phase.Proceed?)
    ensures Respects(c, fs.outsider, prepared, HistoryOf(fs))
  {
    hide Sound, Moved, Starting, Introducing, Launched, NoFailures, GoodEnd, TellsPrepare, GoodConfig, UpToDate,
         Respects, Prepares, Begins, HistoryOf, tracker.Valid, fs.Valid;
    ghost var h := HistoryOf(fs);
    UnfailedTells(tracker.ops);
    prepared := h;
    RespectsItself(c, fs.outsider, h);
    NothingPrepared(c, fs.outsider, h);
    var stop, captured := StartupChecked(world);
    if stop {
      return Verdict(captured), h;
    }
    ghost var contextual;
    phase, contextual := PrepareStore(world, tracker, c, fs);
    prepared := HistoryOf(fs);
    RespectsItself(c, fs.outsider, prepared);
    PreparesLess(c, fs.outsider, h, prepared, phase.Proceed?);
    StartingIsLaunched(world.env);
    if phase.Finish? {
      return;
    }
    UnfailedTells(tracker.ops);
    stop, captured := StartupChecked(world);
    if stop {
      return Verdict(captured), prepared;
    }
    ghost var failure;
    phase, failure := FirstReconcile(p, world, tracker, c, fs);
    IntroducingIsLaunched(world.env, failure);
  }

  /** Startup has begun, and perhaps the first reconciliation has ended. */
  ghost predicate Launched(e: Env) {
    && Sound(e.stream) && Caused(e) && e.serving && e.live == {} && e.acts == UP && !e.cut
    && e.granted == 0 && |e.attempts| <= 1
  }

  lemma StartingIsLaunched(e: Env)
    requires Starting(e, true)
    ensures Launched(e)
  {
  }

  lemma IntroducingIsLaunched(e: Env, failure: Option<string>)
    requires Introducing(e, failure)
    ensures Launched(e) && e.attempts != []
  {
  }

  lemma UnfailedTells(ops: seq<T.Op>)
    requires NoFailures(ops)
    ensures forall captured :: TellsPrepare(Verdict(captured), ops)
  {
    hide Latest;
  }

  lemma NothingPrepared(c: Config, outsider: bool, h: History)
    ensures Prepares(c, outsider, h, h, false)
  {
    GuardedNothing(h.commits);
    NoBackups(h.commits);
    BackupsPrepare(c, h.commits, h.commits);
    WithinItself(h.trace, h.slots.target, PreparedTarget(c, ViewOf(h.slots)));
  }

  lemma PreparesLess(c: Config, outsider: bool, a: History, b: History, ok: bool)
    requires Prepares(c, outsider, a, b, ok)
    ensures Prepares(c, outsider, a, b, false)
  {
  }

  /** startupStop, before the first reconciliation. */
  method StartupChecked(world: World) returns (stop: bool, captured: bool)
    requires Starting(world.env, true)
    modifies world
    ensures Starting(world.env, true) && Launched(world.env)
    ensures stop ==> GoodEnd(Verdict(captured), world.env)
  {
    hide Sound, Moved, Starting;
    StartingIsSound(world.env, true);
    ghost var e := world.env;
    stop, captured := StartupStop(world);
    StartingMoves(e, world.env, true);
    StartingIsLaunched(world.env);
  }

  /******* The run *******/

  /** A rename of the target that loses nothing: it keeps every byte outside the section, or adds or takes away an
      empty section at the end, or replaces a damaged text by a valid one. */
  ghost predicate Careful(c: Config, m: Commit) {
    KeepsOutside(c, m) || Initial(c, m) || Recovery(c, m)
  }

  ghost predicate OnlyCareful(c: Config, oldCommits: seq<Commit>, commits: seq<Commit>) {
    && oldCommits <= commits
    && forall k :: |oldCommits| <= k < |commits| && commits[k].path.Target? ==> Careful(c, commits[k])
  }

  /** What a run does to the hosts file: every rename found what it expected, under a live context, and every rename of
      the target was careful with exactly the file it replaced; and with no one else writing, every state shows the
      target as found, or one with valid markers and everything that Prepare's goal has outside the section. */
  ghost predicate RunRespects(c: Config, outsider: bool, a: History, b: History) {
    && OnlyGuarded(a.commits, b.commits)
    && OnlyCareful(c, a.commits, b.commits)
    && (!outsider ==> AllStay(c, a.slots.target.now, PreparedTarget(c, ViewOf(a.slots)), a.trace, b.trace))
  }

  lemma CarefulAppend(c: Config, c0: seq<Commit>, c1: seq<Commit>, c2: seq<Commit>)
    requires OnlyPrepares(c, c0, c1) && NothingLost(c, c1, c2)
    ensures OnlyCareful(c, c0, c2)
  {
    hide KeepsOutside, Initial, Recovery;
  }

  lemma RunKeepsFile(c: Config, outsider: bool, a: History, m: History, b: History, ok: bool)
    requires GoodConfig(c) && Prepares(c, outsider, a, m, ok) && Respects(c, outsider, m, b)
    ensures RunRespects(c, outsider, a, b)
  {
    hide GoodConfig, OnlyGuarded, OnlyPrepares, OnlyCareful, NothingLost, AllWithin, Within, PreparedTarget, Preserves,
         Stays, AllStay;
    GuardedAppend(a.commits, m.commits, b.commits);
    CarefulAppend(c, a.commits, m.commits, b.commits);
    if !outsider {
      PrepareStays(c, a.slots, a.trace, m.trace);
      ApplyStays(c, a.slots, m.slots, b.slots, m.trace, b.trace);
      StayAppend(c, a.slots.target.now, PreparedTarget(c, ViewOf(a.slots)), a.trace, m.trace, b.trace);
    }
  }

  /** The heads of a loop that was entered after one reconciliation and after whose last head nothing happened. */
  ghost predicate RanLoop(p: Params, c: Config, outsider: bool, heads: seq<Head>, e: Env) {
    && heads != [] && GoodHeads(p, c, outsider, heads)
    && |heads[0].picture.env.attempts| == 1
    && SameLogs(heads[|heads| - 1].picture.env, e)
  }

  /** Run, from a fresh tracker, for any choices the loop's selects may make.  The loop's state is returned if the loop
      was entered. */
  method Run(p: Params, c: Config, world: World, tracker: T.HealthTracker, fs: FileSystem, choices: seq<Choice>)
    returns (parts: seq<Part>, loop: LoopState?, taken: nat)
    requires GoodParams(p) && GoodConfig(c) && Unused(world.env)
    requires tracker.Valid() && NoFailures(tracker.ops) && fs.Valid()
    modifies world, tracker, fs
    ensures Released(world.env.acts) && (HasStarted(world.env.acts) <==> world.env.serving)
    ensures SeenDone(world.env.acts) ==> WasDone(world.env.acts)
    ensures ReportsServer(parts, world.env.acts, world.env.serverError) && ReportsResources(parts, world.env)
    ensures Count(parts, PrepareFailed) == One(loop == null && Latest(tracker.ops, T.Recovery).Some?)
    ensures InOrder(parts)
    ensures world.env.serving && world.env.attempts == [] ==> !Ready(tracker.ops)
    ensures parts == [] ==> world.env.parentDone
    ensures world.env.ctxDone
    ensures loop == null ==> world.env.parentDone || exists part :: part in parts && StartupPart(part)
    ensures loop == null ==> world.env.granted == 0 && |world.env.attempts| <= 1
    ensures loop != null ==>
              && fresh(loop) && |loop.heads| == taken + 1 && AllChosen(loop.heads, choices)
              && (world.env.cut ==> taken == |choices|)
              && Spaced(p, world.env.attempts, 0)
              && RanLoop(p, c, fs.outsider, loop.heads, world.env)
              && loop.reports == loop.heads[taken].picture.reports && AllFaithful(loop.reports)
              && (Reports(loop.reports, "") || PlainlyAgree(loop.heads))
    ensures RunRespects(c, fs.outsider, old(HistoryOf(fs)), HistoryOf(fs)) && fs.Valid() && tracker.Valid()
  {
    hide Sound, Moved, Starting, NoFailures, GoodConfig, GoodHeads, AllFaithful, PlainlyAgree, Reports, Released,
         ReportsServer, Respects, RunRespects, Prepares, Begins, UpToDate, LoopRan, HistoryOf, GoodParams, RanLoop,
         AllChosen, Spaced, HasStarted, SeenDone, WasDone, Opening, ReportsResources, Latest, Count, InOrder,
         tracker.Valid, fs.Valid, LoopState.Valid;
    loop, taken := null, 0;
    ghost var h := HistoryOf(fs);
    ghost var prepared := h;
    RespectsItself(c, fs.outsider, h);
    NothingPrepared(c, fs.outsider, h);
    var phase, started := BringUp(world, tracker);
    StartingShows(world.env, started);
    if started {
      phase, prepared := Initialize(p, world, tracker, c, fs);
      PreparesLess(c, fs.outsider, h, prepared, phase.Proceed?);
    }
    if phase.Proceed? {
      ghost var e, m := world.env, HistoryOf(fs);
      ghost var ops := tracker.ops;
      var exit, s, n := RunLoop(p, c, world, tracker, fs, phase.failure, choices);
      loop, taken := s, n;
      RespectsAppend(c, fs.outsider, prepared, m, HistoryOf(fs));
      LoopLeaves(p, c, fs.outsider, e, ops, phase.failure, world.env, s.heads);
      ValidObjects(s);
      phase := Verdict(exit.captured);
    }
    ghost var e1 := world.env;
    parts := FinishRun(world, started, phase);
    RunKeepsFile(c, fs.outsider, h, prepared, HistoryOf(fs), false);
    if loop != null {
      RanThrough(p, c, fs.outsider, loop.heads, e1, world.env);
      RunIsSpaced(p, c, fs.outsider, loop.heads, world.env);
    }
  }

  /** finish: every way out of Run cancels the run's context and cleans up. */
  method FinishRun(world: World, started: bool, phase: Phase) returns (parts: seq<Part>)
    requires phase.Finish? && GoodEnd(phase, world.env)
    requires Sound(world.env.stream) && started == world.env.serving && world.env.live == {}
    requires Opening(world.env.acts, started) && (!started ==> !world.env.serverDone)
    modifies world
    ensures Released(world.env.acts) && (HasStarted(world.env.acts) <==> started) && world.env.serving == started
    ensures SeenDone(world.env.acts) ==> WasDone(world.env.acts)
    ensures ReportsServer(parts, world.env.acts, world.env.serverError) && ReportsResources(parts, world.env)
    ensures Count(parts, PrepareFailed) == One(Is(phase.error, PrepareFailed)) && InOrder(parts)
    ensures phase.error.Some? ==> phase.error.value in parts
    ensures started && old(world.env).serverDone ==> HealthStopped in parts
    ensures parts == [] ==> world.env.parentDone
    ensures (old(world.env).parentDone ==> world.env.parentDone) && world.env.ctxDone
    ensures SameLogs(old(world.env), world.env)
    ensures world.env.cut == old(world.env).cut && world.env.granted == old(world.env).granted
  {
    hide Sound, Moved, Released, ReportsServer, CleanedEnv, CleanedParts, MayClose, HasStarted, SeenDone, WasDone,
         NotShutDown, ReportsCleanup, ReportsResources, Count, InOrder;
    world.CancelRun();
    ghost var e := world.env;
    ghost var how;
    parts, how := Cleanup(world, started, phase.error, phase.captured);
    CleanupReleases(e, started, phase.error, phase.captured, how);
    CleanedInOrder(started, phase.error, phase.captured, how);
    ReportsBoth(parts, phase, e, world.env);
  }

  /** What startup and cleanup found is reported together. */
  lemma ReportsBoth(parts: seq<Part>, phase: Phase, a: Env, b: Env)
    requires phase.Finish? && GoodEnd(phase, a) && ReportsCleanup(parts, phase.error, b.acts)
    requires Pinged(false) in b.acts <==> Pinged(false) in a.acts
    requires Started(false) in b.acts <==> Started(false) in a.acts
    requires b.parentDone != a.parentDone ==> a.acts == UP
    ensures ReportsResources(parts, b)
    ensures Count(parts, PrepareFailed) == One(Is(phase.error, PrepareFailed))
  {
    hide Count, NotShutDown;
  }

  lemma StartingShows(e: Env, started: bool)
    requires Starting(e, started)
    ensures Sound(e.stream) && e.live == {} && e.serving == started && !e.cut && e.granted == 0 && e.attempts == []
    ensures Opening(e.acts, started)
  {
  }

  /** What the loop leaves behind. */
  lemma LoopLeaves(p: Params, c: Config, outsider: bool, e0: Env, ops: seq<T.Op>, failure: Option<string>, e1: Env,
                   heads: seq<Head>)
    requires LoopRan(p, c, outsider, e0, e1, heads) && Begins(p, failure, e0, ops)
    ensures RanLoop(p, c, outsider, heads, e1) && e1.acts == e0.acts && e1.serving && e1.attempts != []
  {
    hide GoodHeads, Sound, Agreed, Failures;
    RunOnward(p, c, outsider, e0, heads, |heads| - 1);
  }

  lemma RanThrough(p: Params, c: Config, outsider: bool, heads: seq<Head>, a: Env, b: Env)
    requires RanLoop(p, c, outsider, heads, a) && SameLogs(a, b)
    ensures RanLoop(p, c, outsider, heads, b)
  {
    hide GoodHeads;
  }

  lemma RunIsSpaced(p: Params, c: Config, outsider: bool, heads: seq<Head>, e: Env)
    requires RanLoop(p, c, outsider, heads, e)
    ensures Spaced(p, e.attempts, 0)
  {
    hide GoodHeads;
    ReconciliationsAreSpaced(p, c, outsider, heads, |heads| - 1);
  }

  lemma ValidObjects(s: LoopState)
    requires s.Valid()
    ensures s.tracker.Valid() && s.fs.Valid()
  {
  }
}
