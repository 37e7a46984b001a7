/** The loop's state and handlers, daemon/loop_state.go, proved against the steps of the loop on values. */
module LoopState {
  import opened Basics
  import opened Mapper
  import opened Backoff
  import opened World
  import opened Disk
  import opened Store
  import opened Reconciler
  import opened TrackerLaws
  import opened LoopModel
  import opened Heads
  import T = Tracker

  class LoopState {
    const p: Params
    const c: Config
    const world: World
    const tracker: T.HealthTracker
    const fs: FileSystem

    var periodic: Option<nat>
    var debounce: Option<nat>
    var maximum: Option<nat>
    var retry: Option<nat>
    var reconnect: Option<nat>
    var stability: Option<nat>

    var retryDelay: nat
    var reconnectDelay: nat
    var pending: bool
    var lastReconcileFailure: string
    var lastStreamFailure: string
    var connected: bool
    var streamCancel: Option<nat>

    ghost var notes: Notes
    ghost var reports: seq<Report>
    /** The heads the loop has passed. */
    ghost var heads: seq<Head>

    function Fields(): Memory
      reads this
    {
      Memory(periodic, debounce, maximum, retry, reconnect, stability, retryDelay, reconnectDelay, pending,
             lastReconcileFailure, lastStreamFailure, connected, streamCancel)
    }

    ghost function Now(): Picture
      reads this, world, tracker, fs
    {
      Picture(Fields(), notes, world.env, tracker.ops, reports, HistoryOf(fs))
    }

    /** The objects around the loop are in order. */
    ghost predicate Valid()
      reads tracker, fs
    {
      tracker.Valid() && fs.Valid() && GoodConfig(c)
    }

    /** newLoopState. */
    constructor (p: Params, c: Config, world: World, tracker: T.HealthTracker, fs: FileSystem, failure: Option<string>)
      ensures this.p == p && this.c == c && this.world == world && this.tracker == tracker && this.fs == fs
      ensures Now() == Begun(p, failure, world.env, tracker.ops, HistoryOf(fs)) && heads == []
      ensures tracker.Valid() && fs.Valid() && GoodConfig(c) ==> Valid()
    {
      this.p, this.c, this.world, this.tracker, this.fs := p, c, world, tracker, fs;
      periodic, debounce, maximum := Some(world.env.now + p.periodic), None, None;
      retry, reconnect, stability := None, None, None;
      retryDelay, reconnectDelay, pending := p.retryInitial, p.retryInitial, false;
      lastReconcileFailure, lastStreamFailure, connected, streamCancel := "", "", false, None;
      notes, reports, heads := Notes([], world.env.now, world.env.now, world.env.now), [], [];
      if failure.Some? {
        lastReconcileFailure := failure.value;
        retry := Some(world.env.now + p.retryInitial);
        retryDelay := NextBackoff(p.retryInitial, p.retryMax);
      }
    }

    /******* The stream *******/

    method CancelStream()
      requires Sound(world.env.stream)
      modifies `streamCancel, world
      ensures Now() == Cancelled(old(Now())) && Sound(world.env.stream)
    {
      hide Sound;
      if streamCancel.None? {
        return;
      }
      world.CancelStream(streamCancel.value);
      streamCancel := None;
    }

    /** stopReady. */
    method StopReady() returns (stop: bool)
      requires Sound(world.env.stream)
      modifies world
      ensures Moved(old(world.env), world.env) && Now() == old(Now()).(env := world.env)
      ensures (stop ==> Stopped(world.env)) && (old(Stopped(world.env)) ==> stop)
    {
      stop := world.StopReady();
    }

    /** startStream: the old stream is cancelled before the new one is opened. */
    method StartStream()
      requires StreamBasic(p, Now()) && !connected && reconnect.None? && stability.None?
      modifies `streamCancel, `connected, `stability, `notes, world
      ensures StreamBasic(p, Now()) && StreamOnly(old(Now()), Now()) && (connected ==> Listening(Now()))
      ensures old(Stopped(world.env)) ==> Stopped(world.env)
      ensures !Stopped(world.env) ==> Opens(p, old(Now()), Now())
      ensures world.env.streams <= old(world.env).streams + 1
    {
      hide Moved, StreamOnly, StreamBasic, Listening, Sound, Opens;
      ghost var q := Now();
      BasicIsSound(p, q);
      var stop := StopReady();
      ghost var r := Now();
      StreamWaits(p, q, r);
      SameOpening(q, r);
      if stop {
        return;
      }
      BasicIsSound(p, r);
      CancelStream();
      ghost var s := Now();
      CancelKeeps(p, r);
      OpenStream();
      StreamOnlyTwice(q, r, s);
      StreamOnlyTwice(q, s, Now());
      OpensLater(p, q, r, s, Now());
    }

    /** The rest of startStream: open, look for a stop, and give the stream time to prove itself. */
    method OpenStream()
      requires StreamBasic(p, Now()) && !connected && reconnect.None? && stability.None? && streamCancel.None?
      modifies `streamCancel, `connected, `stability, `notes, world
      ensures StreamBasic(p, Now()) && StreamOnly(old(Now()), Now()) && (connected ==> Listening(Now()))
      ensures old(Stopped(world.env)) ==> Stopped(world.env)
      ensures !Stopped(world.env) ==> Opens(p, old(Now()), Now())
      ensures world.env.streams <= old(world.env).streams + 1
    {
      hide Moved, StreamOnly, StreamBasic, Listening, Sound, Opens, Given, Withdrawn, Trusted, Grants;
      ghost var q := Now();
      var channels := AcceptStream();
      ghost var r := Now();
      GrantKeeps(p, q, r.env, channels);
      var stop := StopReady();
      ghost var s := Now();
      StreamWaits(p, r, s);
      ListeningMoves(r, s.env);
      StreamOnlyTwice(q, r, s);
      OneOpening(q, r, s, channels);
      if stop {
        WithdrawStream();
        WithdrawKeeps(p, s);
      } else {
        OpensNow(p, q, r, s, channels);
        TrustStream();
        TrustKeeps(p, s);
      }
      StreamOnlyTwice(q, s, Now());
    }

    /** The source opens a stream under a fresh context. */
    method AcceptStream() returns (channels: bool)
      modifies `streamCancel, `connected, world
      ensures Now() == Given(old(Now()), world.env, channels) && Grants(old(world.env), world.env, channels)
      ensures connected == channels
    {
      hide Sound;
      var id;
      ghost var rejected;
      id, channels, rejected := world.OpenStream();
      streamCancel := Some(id);
      connected := channels;
    }

    /** A stop was signalled while the stream was opened. */
    method WithdrawStream()
      requires Sound(world.env.stream)
      modifies `streamCancel, `connected, world
      ensures Now() == Withdrawn(old(Now())) && !connected
    {
      hide Sound;
      CancelStream();
      connected := false;
    }

    method TrustStream()
      modifies `stability, `notes
      ensures Now() == Trusted(p, old(Now()))
    {
      stability := Some(world.env.now + p.stability);
      notes := notes.(openedAt := world.env.now);
    }

    /** recoverStream. */
    method RecoverStream()
      requires StreamFit(p, Now()) && connected && tracker.Valid()
      modifies `reconnectDelay, `stability, `lastStreamFailure, world, tracker
      ensures StreamFit(p, Now()) && StreamOnly(old(Now()), Now()) && NoNewStream(old(Now()), Now()) && tracker.Valid()
      ensures reports == old(reports) && (old(stability).None? ==> stability.None?)
      ensures old(Stopped(world.env)) ==> Stopped(world.env)
      ensures !Stopped(world.env) ==>
                tracker.ops == old(tracker.ops) + [T.Op.Recover(T.DockerEvents)] && stability.None?
    {
      hide Moved, StreamOnly, NoNewStream, StreamFit, Sound, tracker.Valid, Proved;
      ghost var q := Now();
      FitIsSound(p, q);
      var stop := StopReady();
      ghost var r := Now();
      StreamWaits(p, q, r);
      if stop {
        return;
      }
      NoteRecovery();
      ProofKeeps(p, r);
      StreamOnlyTwice(q, r, Now());
      NoNewTwice(q, r, Now());
    }

    /** The rest of recoverStream, when no stop has been signalled. */
    method NoteRecovery()
      requires tracker.Valid()
      modifies `reconnectDelay, `stability, `lastStreamFailure, tracker
      ensures Now() == Proved(p, old(Now())) && tracker.Valid()
      ensures tracker.ops == old(tracker.ops) + [T.Op.Recover(T.DockerEvents)] && stability.None?
    {
      hide tracker.Valid;
      reconnectDelay := p.retryInitial;
      stability := None;
      tracker.Recover(T.DockerEvents);
      if lastStreamFailure != "" {
        lastStreamFailure := "";
      }
    }

    /** disconnectStream. */
    method DisconnectStream(verdict: Option<string>)
      requires StreamBasic(p, Now()) && tracker.Valid()
      requires if connected then Faithful(verdict, world.env.stream) else verdict.None?
      requires !Stopped(world.env) ==> Counted(Now())
      modifies `streamCancel, `connected, `stability, `reconnect, `reconnectDelay, `lastStreamFailure, `reports,
               world, tracker
      ensures StreamFit(p, Now()) && StreamOnly(old(Now()), Now()) && NoNewStream(old(Now()), Now()) && tracker.Valid()
      ensures !connected && stability.None? && Reported(old(Now()), Now(), verdict)
      ensures old(Stopped(world.env)) ==> Stopped(world.env)
      ensures !Stopped(world.env) ==> Heeds(old(Now()), Now(), verdict)
      ensures !Recovers(old(tracker.ops), tracker.ops)
    {
      hide Moved, StreamOnly, NoNewStream, StreamBasic, StreamFit, Listening, Sound, Faithful, Reports, tracker.Valid,
           Recovers,
           Counted, Heeds, Reported, Dropped, Lost;
      ghost var q := Now();
      var message := STREAM_CLOSED;
      if verdict.Some? {
        message := verdict.value;
      }
      NothingRecovers(q.ops, message);
      BasicIsSound(p, q);
      DropStream(verdict);
      ghost var r := Now();
      DropChanges(q, verdict);
      DropKeeps(p, q, verdict);
      BasicIsSound(p, r);
      var stop := StopReady();
      ghost var s := Now();
      StreamWaits(p, r, s);
      ListeningMoves(r, s.env);
      StreamOnlyTwice(q, r, s);
      NoNewTwice(q, r, s);
      DropReports(q, r, s, verdict);
      if stop {
        StoppedIsFit(p, s);
        return;
      }
      NoteFailure(message);
      LossKeeps(p, s, message);
      assert tracker.ops == q.ops + [T.Op.Fail(T.DockerEvents, message, world.env.now)];
      StreamOnlyTwice(q, s, Now());
      NoNewTwice(q, s, Now());
      LossIs(p, q, r, s, verdict, message);
    }

    /** The first half of disconnectStream: cancel the context and let go of the channels. */
    method DropStream(verdict: Option<string>)
      requires Sound(world.env.stream)
      modifies `streamCancel, `connected, `stability, `reports, world
      ensures Now() == Dropped(old(Now()), verdict) && !connected && stability.None? && Sound(world.env.stream)
    {
      hide Sound, Cancelled;
      ghost var report := if connected then [Report(verdict, world.env.stream)] else [];
      CancelStream();
      ghost var r := Now();
      connected, stability, reports := false, None, reports + report;
      assert Now() == r.(mem := r.mem.(connected := false, stability := None), reports := r.reports + report);
    }

    /** The rest of disconnectStream, when no stop has been signalled. */
    method NoteFailure(message: string)
      requires tracker.Valid()
      modifies `reconnect, `reconnectDelay, `lastStreamFailure, tracker
      ensures Now() == Lost(p, old(Now()), message) && tracker.Valid()
      ensures tracker.ops == old(tracker.ops) + [T.Op.Fail(T.DockerEvents, message, world.env.now)]
    {
      hide tracker.Valid;
      if message != lastStreamFailure {
        lastStreamFailure := message;
      }
      tracker.Fail(T.DockerEvents, message, world.env.now);
      reconnect := Some(world.env.now + reconnectDelay);
      reconnectDelay := NextBackoff(reconnectDelay, p.retryMax);
    }

    /** streamErrorReady: looks at the error channel once. */
    method StreamErrorReady() returns (verdict: Option<string>, ready: bool)
      requires StreamFit(p, Now())
      modifies world
      ensures StreamBasic(p, Now()) && StreamOnly(old(Now()), Now()) && NoNewStream(old(Now()), Now())
      ensures (old(Stopped(world.env)) ==> Stopped(world.env)) && (!Stopped(world.env) ==> Counted(Now()))
      ensures ready ==> connected && Faithful(verdict, world.env.stream)
      ensures !ready ==> StreamFit(p, Now())
      ensures connected && (old(world.env).stream.errorsClosed || old(world.env).stream.error.Some?) ==> ready
      ensures !ready && old(world.env).stream.event ==> world.env.stream.event
      ensures world.env.received == old(world.env).received
    {
      hide Moved, StreamOnly, NoNewStream, StreamBasic, StreamFit, Sound, Faithful;
      ghost var q := Now();
      FitIsSound(p, q);
      world.Tick();
      ghost var r := Now();
      MovedElapses(q, r.env);
      StreamMoves(p, q, r.env);
      MovedStops(q.env, r.env);
      MovedFollows(q.env, r.env);
      FitIsSound(p, r);
      if !connected {
        return None, false;
      }
      var got := world.TakeError();
      ErrorTaken(p, r, world.env);
      StreamOnlyTwice(q, r, Now());
      NoNewTwice(q, r, Now());
      match got
      case NotReady => return None, false;
      case Closed => return None, true;
      case Got(e) => return Some(e), true;
    }

    /******* Events *******/

    /** observeEvent: an event proves the stream, and starts or extends a batch. */
    method ObserveEvent()
      requires StreamFit(p, Now()) && WorkFit(p, Now(), 1) && connected && tracker.Valid()
      modifies `reconnectDelay, `stability, `lastStreamFailure, `debounce, `maximum, `notes, world, tracker
      ensures AtHead(p, Now()) && EventOnly(old(Now()), Now()) && reports == old(reports) && tracker.Valid()
      ensures NoNewStream(old(Now()), Now())
      ensures !Stopped(world.env) ==> Notices(p, old(Now()), Now())
    {
      hide Moved, StreamOnly, NoNewStream, StreamFit, WorkFit, Sound, tracker.Valid, EventOnly, Notices, Extended;
      ghost var q := Now();
      FitIsSound(p, q);
      var stop := StopReady();
      ghost var r := Now();
      StreamWaits(p, q, r);
      WorkMoves(p, q, r.env, 1);
      if stop {
        StoppedForgets(p, r);
        UnchangedBatch(q, r);
        return;
      }
      RecoverStream();
      ghost var s := Now();
      StreamOnlyTwice(q, r, s);
      NoNewTwice(q, r, s);
      ExtendBatch();
      NoticeKeeps(p, q, s);
      EventIsNoStream(q, Now());
    }

    /** The rest of observeEvent. */
    method ExtendBatch()
      modifies `debounce, `maximum, `notes
      ensures Now() == Extended(p, old(Now()))
    {
      if debounce.None? {
        maximum := Some(world.env.now + p.maxDebounce);
      }
      debounce := Some(world.env.now + p.debounce);
      notes := notes.(batch := notes.batch + [world.env.now]);
    }

    /** A stream whose event channel is closed: disconnected with the verdict its error channel gives. */
    method EndStream()
      requires StreamFit(p, Now()) && connected && world.env.stream.errorsClosed && tracker.Valid()
      modifies `streamCancel, `connected, `stability, `reconnect, `reconnectDelay, `lastStreamFailure, `reports,
               world, tracker
      ensures StreamFit(p, Now()) && StreamOnly(old(Now()), Now()) && NoNewStream(old(Now()), Now()) && tracker.Valid()
      ensures !connected && |reports| == |old(reports)| + 1 && !Recovers(old(tracker.ops), tracker.ops)
      ensures !Stopped(world.env) ==> Heeds(old(Now()), Now(), reports[|old(reports)|].verdict)
      ensures !Stopped(world.env) ==> Remembers(old(Now()), Now())
    {
      hide Moved, StreamOnly, NoNewStream, StreamBasic, StreamFit, Sound, Faithful, Counted, Recovers, tracker.Valid;
      ghost var q := Now();
      var verdict, _ := StreamErrorReady();
      ghost var r := Now();
      DisconnectStream(verdict);
      StreamOnlyTwice(q, r, Now());
      NoNewTwice(q, r, Now());
    }

    /** handleEvent, on what the event channel gave. */
    method HandleEvent(open: bool)
      requires StreamFit(p, Now()) && WorkFit(p, Now(), if open then 1 else 0) && connected && tracker.Valid()
      requires !open ==> world.env.stream.errorsClosed
      modifies this, world, tracker
      ensures AtHead(p, Now()) && EventOnly(old(Now()), Now()) && |reports| <= |old(reports)| + 1 && tracker.Valid()
      ensures pending == old(pending) && heads == old(heads) && NoNewStream(old(Now()), Now())
      ensures open ==> reports == old(reports)
      ensures open && !Stopped(world.env) ==> Notices(p, old(Now()), Now())
      ensures !open ==> !connected && |reports| == |old(reports)| + 1 && StreamOnly(old(Now()), Now())
      ensures !open ==> !Recovers(old(tracker.ops), tracker.ops)
      ensures !open && !Stopped(world.env) ==>
                Heeds(old(Now()), Now(), reports[|old(reports)|].verdict) && Remembers(old(Now()), Now())
    {
      hide Moved, StreamOnly, NoNewStream, StreamFit, WorkFit, Sound, tracker.Valid, EventOnly, Notices, Recovers;
      ghost var q := Now();
      if !open {
        EndStream();
        StreamOnlyKeepsWork(p, q, Now(), 0);
        UnchangedBatch(q, Now());
        return;
      }
      ObserveEvent();
    }

    /** One look at the event channel of a connected stream, and what it calls for. */
    method PollEvents() returns (got: bool)
      requires AtHead(p, Now()) && connected && !pending && tracker.Valid()
      modifies this, world, tracker
      ensures AtHead(p, Now()) && GoodStep(old(Now()), Now()) && tracker.Valid() && heads == old(heads)
      ensures !pending && (got <==> old(world.env).stream.event || old(world.env).stream.eventsClosed)
      ensures !got ==> Now() == old(Now())
      ensures old(world.env).stream.event ==> |world.env.received| == |old(world.env).received| + 1
      ensures got && !old(world.env).stream.event ==> !connected
      ensures got && !Stopped(world.env) ==> !connected || Losses(tracker.ops) == 0
    {
      hide Moved, StreamOnly, StreamFit, WorkFit, Sound, tracker.Valid, EventOnly, Notices, GoodStep, Recovers;
      ghost var q := Now();
      FitIsSound(p, q);
      var r := world.TakeEvent();
      got := !r.NotReady?;
      if r.Got? {
        ReceiveKeeps(p, q, world.env);
        ghost var e := world.env;
        HandleEvent(true);
        EventStep(p, q, e, Now());
        EventKeepsLog(q.(env := e), Now());
      } else if r.Closed? {
        assert world.env == q.env;
        HandleEvent(false);
        AwaitsAsBefore(q, Now());
        StreamStep(q, Now());
      } else {
        assert world.env == q.env;
        NoStep(q);
      }
    }

    /** handleStreamError, on what the error channel gave. */
    method HandleStreamError(verdict: Option<string>)
      requires StreamBasic(p, Now()) && WorkFit(p, Now(), 0) && connected && Faithful(verdict, world.env.stream)
      requires !Stopped(world.env) ==> Counted(Now())
      requires tracker.Valid()
      modifies this, world, tracker
      ensures AtHead(p, Now()) && StreamOnly(old(Now()), Now()) && NoNewStream(old(Now()), Now()) && tracker.Valid()
      ensures !connected && Reported(old(Now()), Now(), verdict) && pending == old(pending) && heads == old(heads)
      ensures stability.None?
      ensures !Stopped(world.env) ==> Heeds(old(Now()), Now(), verdict) && Remembers(old(Now()), Now())
      ensures !Recovers(old(tracker.ops), tracker.ops)
    {
      hide Recovers, StreamOnly, StreamFit, WorkFit, NoNewStream, StreamBasic, Faithful, Counted, Loses, tracker.Valid;
      ghost var q := Now();
      DisconnectStream(verdict);
      StreamOnlyKeepsWork(p, q, Now(), 0);
      if !Stopped(world.env) {
        HeedsRemembers(q, Now(), verdict);
      }
    }

    /** handleStability, when the timer has expired: an ended stream outranks it. */
    method HandleStability()
      requires AtHead(p, Now()) && connected && !pending && tracker.Valid() && Due(stability, world.env.now)
      modifies this, world, tracker
      ensures AtHead(p, Now()) && GoodStep(old(Now()), Now()) && tracker.Valid() && heads == old(heads)
      ensures Over(old(world.env).stream) ==> Stopped(world.env) || !connected
      ensures !Stopped(world.env) ==> !connected || Losses(tracker.ops) == 0
      ensures !Stopped(world.env) && connected && old(world.env).stream.event ==>
                |world.env.received| == |old(world.env).received| + 1
    {
      hide Moved, StreamOnly, NoNewStream, StreamFit, WorkFit, Sound, tracker.Valid, GoodStep, Faithful, Counted,
           Heeds, Remembers,
           Recovers, Awaits;
      ghost var q := Now();
      stability := None;
      ghost var q1 := Now();
      ExpiryKeeps(p, q);
      FitIsSound(p, q1);
      var stop := StopReady();
      ghost var r := Now();
      StreamWaits(p, q1, r);
      StreamOnlyTwice(q, q1, r);
      NoNewTwice(q, q1, r);
      MovedFollows(q.env, r.env);
      StreamOnlyKeepsWork(p, q, r, 0);
      DueLater(q, r);
      if stop {
        StreamStep(q, r);
        return;
      }
      var verdict, ready := StreamErrorReady();
      ghost var s := Now();
      StreamOnlyTwice(q, r, s);
      NoNewTwice(q, r, s);
      StreamOnlyKeepsWork(p, q, s, 0);
      if ready {
        HandleStreamError(verdict);
        StreamOnlyTwice(q, s, Now());
        NoNewTwice(q, s, Now());
        DueLater(q, Now());
        RememberedSince(q, s, Now());
        StreamStep(q, Now());
        return;
      }
      Look(q);
    }

    /** The rest of handleStability: one look at the event channel, then recovery. */
    method Look(ghost q: Picture)
      requires AtHead(p, Now()) && connected && !pending && tracker.Valid()
      requires StreamOnly(q, Now()) && NoNewStream(q, Now()) && q.reports == reports && q.ops == tracker.ops
      requires Due(q.mem.stability, q.env.now) && q.mem.reconnect == reconnect && stability.None?
      modifies this, world, tracker
      ensures AtHead(p, Now()) && GoodStep(q, Now()) && tracker.Valid() && heads == old(heads)
      ensures !Stopped(world.env) ==> !connected || Losses(tracker.ops) == 0
      ensures old(world.env).stream.event ==> |world.env.received| == |old(world.env).received| + 1
      ensures !old(world.env).stream.event && old(world.env).stream.eventsClosed ==> !connected
    {
      hide Moved, StreamOnly, NoNewStream, StreamFit, WorkFit, Sound, tracker.Valid, GoodStep, Recovers, Awaits;
      ghost var r := Now();
      var got := PollEvents();
      if got {
        QuietThenStep(q, r, Now());
      } else {
        OneMore(r.ops, T.Op.Recover(T.DockerEvents), T.DockerEvents);
        RecoverStream();
        StreamOnlyKeepsWork(p, r, Now(), 0);
        StreamOnlyTwice(q, r, Now());
        NoNewTwice(q, r, Now());
        StreamOnlyPending(q, r);
        DueLater(q, Now());
        StreamStep(q, Now());
      }
    }

    /******* Reconciling *******/

    /** reconcilePending: every timer that could ask for this reconciliation is stopped first. */
    method ReconcilePending()
      requires AtHead(p, Now()) && pending && Valid()
      modifies this, world, tracker, fs
      ensures AtHead(p, Now()) && GoodStep(old(Now()), Now()) && Valid() && heads == old(heads)
      ensures |world.env.attempts| == |old(world.env).attempts| + 1
      ensures Respects(c, fs.outsider, old(HistoryOf(fs)), HistoryOf(fs))
      ensures UpToDate(c, fs.outsider, world.env.attempts, fs.slots)
      ensures Justified(c, fs.outsider, old(Now()), Now())
    {
      hide Moved, StreamFit, WorkFit, Sound, Valid, GoodStep, Busy, Attempted, Respects, UpToDate, OnlyAbout, Names,
           Rounds, Excused, HistoryOf;
      ghost var q := Now();
      FitIsSound(p, q);
      StopTimers();
      ghost var r := Now();
      ClearKeeps(p, q);
      var failure := Attempt();
      ghost var s := Now();
      AttemptKeeps(p, r, s, if q.mem.reconcileFailure == "" then None else Some(q.mem.reconcileFailure), failure);
      AttemptRounds(q, s, failure);
      AttemptListed(q.env, s.env, failure);
      NoteReconcile(failure, q);
      if !Stopped(world.env) {
        HeadRecords(p, Now());
      }
    }

    method StopTimers()
      modifies `pending, `periodic, `debounce, `maximum, `retry, `notes
      ensures Now() == Cleared(old(Now()))
    {
      ghost var q := Now();
      pending, periodic, retry := false, None, None;
      assert Now() == q.(mem := q.mem.(pending := false, periodic := None, retry := None));
      ClearBatch();
    }

    /** The debounce timer and its cap are stopped together. */
    method ClearBatch()
      modifies `debounce, `maximum, `notes
      ensures Now() == old(Now()).(mem := old(Now()).mem.(debounce := None, maximum := None),
                                   notes := old(notes).(batch := []))
    {
      debounce, maximum := None, None;
      notes := notes.(batch := []);
    }

    /** The reconciliation itself. */
    method Attempt() returns (failure: Option<string>)
      requires Sound(world.env.stream) && Valid()
      modifies world, tracker, fs
      ensures Now() == old(Now()).(env := world.env, ops := tracker.ops, store := HistoryOf(fs)) && Valid()
      ensures Attempted(old(world.env), world.env, failure) && (failure.Some? ==> failure.value != "")
      ensures OnlyAbout(old(tracker.ops), tracker.ops, WORK)
      ensures !Stopped(world.env) ==>
                && Names(tracker.ops, failure)
                && Told(old(tracker.ops), tracker.ops, Usable(c, world.env.listing), failure, world.env.now)
      ensures Respects(c, fs.outsider, old(HistoryOf(fs)), HistoryOf(fs))
      ensures UpToDate(c, fs.outsider, world.env.attempts, fs.slots)
      ensures failure.Some? ==>
                || Stopped(world.env)
                || Excused(c, fs.outsider, old(HistoryOf(fs)), HistoryOf(fs), world.env.listing)
    {
      hide Attempted, OnlyAbout, Names, Respects, UpToDate, Excused, Sound, tracker.Valid, fs.Valid, GoodConfig,
           HistoryOf, Usable, Latest, Unreported;
      ghost var contextual;
      failure, contextual := Reconcile(world, tracker, c, fs);
    }

    /** The rest of reconcilePending; any of its looks may find the loop stopped. */
    method NoteReconcile(failure: Option<string>, ghost q: Picture)
      requires Busy(p, Now(), q.env.attempts, failure) && Ended(Now(), q.env.attempts, failure) && periodic.None?
      requires Rounds(q, Now()) && q.mem.pending
      modifies `periodic, `retry, `retryDelay, `lastReconcileFailure, `notes, world
      ensures AtHead(p, Now()) && GoodStep(q, Now()) && world.env.attempts == old(world.env).attempts
      ensures old(Stopped(world.env)) ==> Stopped(world.env)
    {
      hide Moved, Sound, GoodStep, Busy, Rounds, Ended, StreamFit, WorkFit, PeriodicFit, Rearmed, Recorded;
      ghost var before := q.env.attempts;
      BusyIsSound(p, Now(), before, failure);
      ghost var r := Now();
      var stop := StopReady();
      Passes(p, q, r, Now(), before, failure);
      if stop {
        InterruptedIsFit(p, Now(), before, failure);
        RoundIsStep(q, Now());
        return;
      }
      Rearm(failure, q);
      ghost var s := Now();
      BusyIsSound(p, s, before, failure);
      var done := Glance();
      Passes(p, q, s, Now(), before, failure);
      ghost var t := Now();
      if done {
        PeriodicWhenStopped(p, t, before);
        InterruptedIsFit(p, t, before, failure);
        RoundIsStep(q, t);
        return;
      }
      RecordResult(failure);
      ResultKeeps(p, t, before, failure);
      RecordedRounds(p, q, t, failure);
    }

    /** A look at the context alone. */
    method Glance() returns (done: bool)
      requires Sound(world.env.stream)
      modifies world
      ensures Moved(old(world.env), world.env) && Now() == old(Now()).(env := world.env)
      ensures done ==> Stopped(world.env)
    {
      world.Tick();
      done := world.env.ctxDone;
    }

    /** The periodic timer is armed again, unless the context is done. */
    method Rearm(ghost failure: Option<string>, ghost q: Picture)
      requires Busy(p, Now(), q.env.attempts, failure) && Ended(Now(), q.env.attempts, failure) && periodic.None?
      requires Rounds(q, Now())
      modifies `periodic, `notes, world
      ensures Busy(p, Now(), q.env.attempts, failure) && Ended(Now(), q.env.attempts, failure) && Rounds(q, Now())
      ensures PeriodicFit(p, Now(), q.env.attempts) && world.env.attempts == old(world.env).attempts
      ensures old(Stopped(world.env)) ==> Stopped(world.env)
      ensures !Stopped(world.env) ==> q.env.now <= notes.armedAt
    {
      hide Moved, Sound, Busy, Rounds, StreamFit, Ended;
      BusyIsSound(p, Now(), q.env.attempts, failure);
      ghost var r := Now();
      var done := Glance();
      ghost var s := Now();
      Passes(p, q, r, s, q.env.attempts, failure);
      if !done {
        periodic := Some(world.env.now + p.periodic);
        notes := notes.(armedAt := world.env.now);
        RearmKeeps(p, s, q.env.attempts, failure);
        RearmedRounds(p, q, s, failure);
      }
    }

    method RecordResult(failure: Option<string>)
      modifies `retry, `retryDelay, `lastReconcileFailure, `notes
      ensures Now() == Recorded(p, old(Now()), failure)
    {
      if failure.Some? {
        RecordFailure(failure.value);
      } else {
        RecordSuccess();
      }
    }

    method RecordFailure(text: string)
      modifies `retry, `retryDelay, `lastReconcileFailure, `notes
      ensures Now() == Recorded(p, old(Now()), Some(text))
    {
      if text != lastReconcileFailure {
        lastReconcileFailure := text;
      }
      retry := Some(world.env.now + retryDelay);
      retryDelay := NextBackoff(retryDelay, p.retryMax);
      notes := notes.(failedAt := world.env.now);
    }

    method RecordSuccess()
      modifies `retryDelay, `lastReconcileFailure
      ensures Now() == Recorded(p, old(Now()), None)
    {
      retryDelay := p.retryInitial;
      if lastReconcileFailure != "" {
        lastReconcileFailure := "";
      }
    }
  }

  /******* What the handlers need to know of a picture *******/

  lemma BasicIsSound(p: Params, q: Picture)
    requires StreamBasic(p, q)
    ensures Sound(q.env.stream)
  {
  }

  /** Waiting keeps the stream side. */
  lemma StreamWaits(p: Params, q: Picture, r: Picture)
    requires Moved(q.env, r.env) && r == q.(env := r.env)
    ensures StreamBasic(p, q) ==> StreamBasic(p, r)
    ensures StreamFit(p, q) ==> StreamFit(p, r)
    ensures StreamOnly(q, r) && NoNewStream(q, r)
    ensures Stopped(q.env) ==> Stopped(r.env)
    ensures Sound(r.env.stream)
  {
    hide Moved, StreamOnly, NoNewStream, StreamBasic, StreamFit, Sound;
    MovedElapses(q, r.env);
    StreamMoves(p, q, r.env);
    MovedStops(q.env, r.env);
  }

  /** A stream opened a little later is opened all the same. */
  lemma OpensLater(p: Params, q: Picture, r: Picture, s: Picture, t: Picture)
    requires Moved(q.env, r.env) && s == Cancelled(r) && (!Stopped(t.env) ==> Opens(p, s, t))
    ensures !Stopped(t.env) ==> Opens(p, q, t)
    ensures s.env.streams == q.env.streams && r.env.streams == q.env.streams
  {
    hide Follows, Sound;
  }

  lemma OpensNow(p: Params, q: Picture, r: Picture, s: Picture, channels: bool)
    requires r == Given(q, r.env, channels) && Grants(q.env, r.env, channels)
    requires Moved(r.env, s.env) && s == r.(env := s.env)
    ensures Opens(p, q, Trusted(p, s)) && s.env.openedAt <= s.env.now
  {
    hide Follows, Sound;
  }

  lemma OneOpening(q: Picture, r: Picture, s: Picture, channels: bool)
    requires Grants(q.env, r.env, channels) && Moved(r.env, s.env)
    ensures s.env.streams == q.env.streams + 1
  {
    hide Follows, Sound;
  }

  lemma SameOpening(q: Picture, r: Picture)
    requires NoNewStream(q, r)
    ensures r.env.streams == q.env.streams
  {
  }

  lemma DropReports(q: Picture, r: Picture, s: Picture, verdict: Option<string>)
    requires r == Dropped(q, verdict) && s == r.(env := s.env)
    ensures Reported(q, s, verdict)
  {
  }

  lemma LossIs(p: Params, q: Picture, r: Picture, s: Picture, verdict: Option<string>, message: string)
    requires r == Dropped(q, verdict) && s == r.(env := s.env)
    requires if verdict.Some? then message == verdict.value else message == STREAM_CLOSED
    ensures Heeds(q, Lost(p, s, message), verdict)
    ensures Reported(q, Lost(p, s, message), verdict)
  {
  }

  lemma NoNewTwice(q: Picture, r: Picture, s: Picture)
    requires NoNewStream(q, r) && NoNewStream(r, s)
    ensures NoNewStream(q, s)
  {
  }

  lemma ListeningMoves(q: Picture, e: Env)
    requires Moved(q.env, e)
    ensures Listening(q) ==> Listening(q.(env := e))
    ensures Counted(q) ==> Counted(q.(env := e))
  {
    hide Sound;
  }

  lemma MovedFollows(a: Env, b: Env)
    requires Moved(a, b)
    ensures a.stream.errorsClosed ==> b.stream.errorsClosed
    ensures a.stream.error.Some? ==> b.stream.error.Some?
    ensures a.stream.event ==> b.stream.event
    ensures b.received == a.received
  {
    hide Sound;
  }

  lemma StoppedIsFit(p: Params, q: Picture)
    requires StreamBasic(p, q) && Listening(q) && Stopped(q.env)
    ensures StreamFit(p, q)
  {
  }

  /** A look at the error channel: unless it gave the error, nothing has changed. */
  lemma ErrorTaken(p: Params, q: Picture, e: Env)
    requires StreamFit(p, q) && Sound(e.stream) && e == q.env.(stream := e.stream)
    ensures var r := q.(env := e);
            StreamBasic(p, r) && StreamOnly(q, r) && NoNewStream(q, r) && (!Stopped(e) ==> Counted(r))
    ensures e.stream == q.env.stream ==> q.(env := e) == q
  {
    hide BackedOff, AllFaithful, Founded, Sound;
    StreamOnlyItself(q);
  }

  lemma UnchangedBatch(q: Picture, r: Picture)
    requires StreamOnly(q, r) && NoNewStream(q, r)
    ensures EventOnly(q, r)
  {
    assert r.(mem := r.mem.(debounce := q.mem.debounce, maximum := q.mem.maximum),
              notes := r.notes.(batch := q.notes.batch)) == r;
  }

  lemma EventIsNoStream(q: Picture, r: Picture)
    requires EventOnly(q, r)
    ensures NoNewStream(q, r)
  {
  }

  lemma EventKeepsLog(q: Picture, r: Picture)
    requires EventOnly(q, r)
    ensures r.env.received == q.env.received
  {
  }

  /** No stream was opened, and none was proved. */
  lemma AwaitsAsBefore(q: Picture, r: Picture)
    requires NoNewStream(q, r) && !Recovers(q.ops, r.ops)
    ensures Awaits(q, r) && Connects(q, r)
  {
  }

  /** No stream was opened, and one may have been proved because its timer was due. */
  lemma DueLater(q: Picture, r: Picture)
    requires StreamOnly(q, r) && NoNewStream(q, r) && Due(q.mem.stability, q.env.now) && r.mem.stability.None?
    ensures Awaits(q, r) && Connects(q, r)
  {
  }

  lemma RememberedSince(q: Picture, s: Picture, r: Picture)
    requires s.reports == q.reports
    ensures Remembers(s, r) ==> Remembers(q, r)
  {
  }

  lemma StreamOnlyPending(q: Picture, r: Picture)
    requires StreamOnly(q, r)
    ensures r.mem.pending == q.mem.pending
  {
  }

  lemma NothingRecovers(ops: seq<T.Op>, message: string)
    ensures !Recovers(ops, ops)
    ensures forall now: int :: !Recovers(ops, ops + [T.Op.Fail(T.DockerEvents, message, now)])
  {
  }

  lemma NoStep(q: Picture)
    requires !q.mem.pending
    ensures GoodStep(q, q)
  {
  }

  /** The stability timer has fired. */
  lemma ExpiryKeeps(p: Params, q: Picture)
    requires StreamFit(p, q)
    ensures var r := q.(mem := q.mem.(stability := None)); StreamFit(p, r) && StreamOnly(q, r) && NoNewStream(q, r)
  {
    hide BackedOff, AllFaithful, Founded, Sound;
    StreamOnlyItself(q);
  }

  /** A step that only touched the stream, and then one from head to head. */
  lemma QuietThenStep(q: Picture, r: Picture, s: Picture)
    requires StreamOnly(q, r) && NoNewStream(q, r) && r.reports == q.reports && r.ops == q.ops && GoodStep(r, s)
    requires Due(q.mem.stability, q.env.now) && r.mem.reconnect == q.mem.reconnect && !s.mem.pending
    ensures GoodStep(q, s)
  {
  }

  lemma AttemptListed(a: Env, b: Env, failure: Option<string>)
    requires Attempted(a, b, failure)
    ensures b.attempts != [] && b.attempts[|b.attempts| - 1].listing == b.listing
    ensures b.attempts[|b.attempts| - 1].failure == failure
  {
  }

  lemma HeadRecords(p: Params, q: Picture)
    requires AtHead(p, q) && !Stopped(q.env)
    ensures q.env.attempts != [] &&
            q.mem.reconcileFailure == (var failure := q.env.attempts[|q.env.attempts| - 1].failure;
                                       if failure.Some? then failure.value else "")
  {
    hide StreamFit, Batched, Observed, Timely, BackedOff;
  }

  lemma BusyIsSound(p: Params, q: Picture, before: seq<Attempt>, failure: Option<string>)
    requires Busy(p, q, before, failure)
    ensures Sound(q.env.stream) && GoodParams(p)
  {
    FitIsSound(p, q);
  }

  /** Waiting while reconciling. */
  lemma Passes(p: Params, q: Picture, r: Picture, s: Picture, before: seq<Attempt>, failure: Option<string>)
    requires Busy(p, r, before, failure) && Ended(r, before, failure) && Rounds(q, r)
    requires Moved(r.env, s.env) && s == r.(env := s.env)
    ensures Busy(p, s, before, failure) && Ended(s, before, failure) && Rounds(q, s)
    ensures PeriodicFit(p, r, before) ==> PeriodicFit(p, s, before)
    ensures s.env.attempts == r.env.attempts && q.env.now <= s.env.now
    ensures Stopped(r.env) ==> Stopped(s.env)
  {
    hide Busy, Ended, Follows, Sound;
    BusyMoves(p, r, s.env, before, failure);
    RoundsOn(q, r, s.env);
  }

  lemma PeriodicWhenStopped(p: Params, q: Picture, before: seq<Attempt>)
    requires PeriodicFit(p, q, before)
    ensures q.mem.periodic.Some? ==> q.mem.periodic.value == q.notes.armedAt + p.periodic
  {
  }

  lemma RearmedRounds(p: Params, q: Picture, r: Picture, failure: Option<string>)
    requires Rounds(q, r) && Ended(r, q.env.attempts, failure)
    ensures Rounds(q, Rearmed(p, r)) && PeriodicFit(p, Rearmed(p, r), q.env.attempts)
    ensures q.env.now <= Rearmed(p, r).notes.armedAt
  {
  }

  lemma RecordedRounds(p: Params, q: Picture, r: Picture, failure: Option<string>)
    requires Rounds(q, r) && q.mem.pending && (!Stopped(r.env) ==> q.env.now <= r.notes.armedAt)
    ensures GoodStep(q, Recorded(p, r, failure)) && Recorded(p, r, failure).env == r.env
  {
    RoundIsStep(q, Recorded(p, r, failure));
  }
}
