/** The select loop of daemon/loop.go. */
module Loop {
  import opened Basics
  import opened Mapper
  import opened Backoff
  import opened World
  import opened Disk
  import opened Store
  import opened StoreRuns
  import opened Reconciler
  import opened TrackerLaws
  import opened LoopModel
  import opened Heads
  import opened LoopState
  import Handler
  import T = Tracker

  /** How the loop returned: with the health server's termination, which is then captured, or without. */
  datatype Exit = Exit(healthStopped: bool, captured: bool)

  ghost predicate GoodExit(exit: Exit, e: Env) {
    (exit.captured <==> exit.healthStopped) && (exit.captured ==> e.serverDone)
  }

  /** What the health endpoint answers. */
  method AskHealth(t: T.HealthTracker) returns (healthy: bool)
    requires t.Valid()
    ensures healthy <==> t.ready && t.active.Keys == {}
    ensures healthy <==> Healthy(t.ops)
  {
    hide T.Run, Inv;
    var s := t.TakeSnapshot();
    var out := Handler.RenderSnapshot(s);
    Handler.NeverPanics(t.limit, t.ops);
    healthy := out.response.healthy;
    assert t.active == map[] <==> t.active.Keys == {};
    forall c ensures c in t.active <==> Latest(t.ops, c).Some? {
      ActiveIffFailing(t.limit, t.ops, c);
    }
    ActiveIffFailing(t.limit, t.ops, T.DockerEvents);
  }

  /** Passes a head, asking the health endpoint. */
  method PassHead(s: LoopState)
    requires AtHead(s.p, s.Now()) && s.tracker.Valid() && UpToDate(s.c, s.fs.outsider, s.world.env.attempts, s.fs.slots)
    modifies s`heads
    ensures Pictured(old(s.heads), s.heads, s.Now(), s.tracker.ready && s.tracker.active.Keys == {})
    ensures GoodHead(s.p, s.c, s.fs.outsider, s.heads[|old(s.heads)|])
  {
    hide AtHead, UpToDate, Healthy, Blank, s.tracker.Valid;
    var healthy := AskHealth(s.tracker);
    if !Stopped(s.world.env) {
      HealthAgrees(s.p, s.Now());
    }
    s.heads := s.heads + [Head(s.Now(), healthy)];
  }

  /******* One case of the select *******/

  /** The timer cases that ask for a reconciliation. */
  method RequestReconcile(s: LoopState, c: Request)
    modifies s`periodic, s`debounce, s`maximum, s`retry, s`pending, s`notes
    ensures s.Now() == Requested(old(s.Now()), c)
  {
    match c {
      case Retry =>
        s.retry := None;
      case Periodic =>
        s.periodic := None;
        s.ClearBatch();
      case _ =>
        s.ClearBatch();
    }
    s.pending := true;
  }

  /** startStream, and the disconnect that follows when there are no channels to listen on. */
  method OpenOrWait(s: LoopState)
    requires StreamBasic(s.p, s.Now()) && !s.connected && s.reconnect.None? && s.stability.None? && s.tracker.Valid()
    requires !Stopped(s.world.env) ==> Counted(s.Now()) && s.lastStreamFailure == LostFor(s.tracker.ops)
    modifies s`streamCancel, s`connected, s`stability, s`notes, s`reconnect, s`reconnectDelay, s`lastStreamFailure,
             s`reports, s.world, s.tracker
    ensures StreamFit(s.p, s.Now()) && StreamOnly(old(s.Now()), s.Now()) && s.tracker.Valid()
    ensures s.reports == old(s.reports) && s.world.env.streams <= old(s.world.env).streams + 1
    ensures !Recovers(old(s.tracker.ops), s.tracker.ops)
    ensures !Stopped(s.world.env) ==>
              s.world.env.streams == old(s.world.env).streams + 1 && Connects(old(s.Now()), s.Now())
  {
    hide StreamOnly, StreamBasic, Listening, NoNewStream, LostFor, Heeds, Recovers, s.tracker.Valid;
    ghost var q := s.Now();
    NothingRecovers(q.ops, "");
    s.StartStream();
    ghost var r := s.Now();
    if !Stopped(r.env) {
      OpenedCounts(s.p, q, r);
    }
    if s.connected {
      OpenedIsFit(s.p, r);
    } else {
      s.DisconnectStream(None);
      StreamOnlyTwice(q, r, s.Now());
      SameOpening(r, s.Now());
    }
  }

  lemma OpenedCounts(p: Params, q: Picture, r: Picture)
    requires Opens(p, q, r) && !q.mem.connected && r.reports == q.reports && Counted(q)
    ensures Counted(r)
  {
  }

  lemma OpenedIsFit(p: Params, r: Picture)
    requires StreamBasic(p, r) && Listening(r) && r.mem.connected
    requires !Stopped(r.env) ==> Counted(r) && r.mem.streamFailure == LostFor(r.ops)
    ensures StreamFit(p, r)
  {
    hide BackedOff, AllFaithful, Founded, Sound, Latest;
  }

  /** The reconnect case. */
  method Reconnected(s: LoopState)
    requires AtHead(s.p, s.Now()) && Due(s.reconnect, s.world.env.now) && !s.pending && s.tracker.Valid()
    modifies s, s.world, s.tracker
    ensures AtHead(s.p, s.Now()) && GoodStep(old(s.Now()), s.Now()) && s.tracker.Valid() && s.heads == old(s.heads)
    ensures !Stopped(s.world.env) ==> s.world.env.streams == old(s.world.env).streams + 1
  {
    hide StreamOnly, StreamBasic, StreamFit, WorkFit, Listening, NoNewStream, LostFor, Moved, Sound, GoodStep,
         Counted, Recovers, Awaits, s.tracker.Valid;
    ghost var q := s.Now();
    s.reconnect := None;
    ghost var q1 := s.Now();
    DueKeeps(s.p, q);
    BasicIsSound(s.p, q1);
    var stop := s.StopReady();
    ghost var r := s.Now();
    StreamWaits(s.p, q1, r);
    StreamOnlyTwice(q, q1, r);
    ListeningMoves(q1, r.env);
    MovedSame(q1.env, r.env);
    StreamOnlyKeepsWork(s.p, q, r, 0);
    if stop {
      NothingRecovers(q.ops, "");
      ReconnectAwaits(q, r);
      StoppedIsFit(s.p, r);
      StreamStep(q, r);
      return;
    }
    OpenOrWait(s);
    StreamOnlyTwice(q, r, s.Now());
    StreamOnlyKeepsWork(s.p, q, s.Now(), 0);
    ReconnectAwaits(q, s.Now());
    StreamStep(q, s.Now());
  }

  lemma ReconnectAwaits(q: Picture, r: Picture)
    requires StreamOnly(q, r) && Due(q.mem.reconnect, q.env.now) && !Recovers(q.ops, r.ops)
    ensures Awaits(q, r)
  {
  }

  /** The reconnect timer has fired. */
  lemma DueKeeps(p: Params, q: Picture)
    requires StreamFit(p, q) && q.mem.reconnect.Some?
    ensures var r := q.(mem := q.mem.(reconnect := None));
            && StreamBasic(p, r) && Listening(r) && StreamOnly(q, r) && !q.mem.connected && q.mem.stability.None?
            && (!Stopped(q.env) ==> Counted(r) && r.mem.streamFailure == LostFor(q.ops))
  {
    hide AllFaithful, Founded, Sound, Latest, Failures;
    StreamOnlyItself(q);
  }

  lemma MovedSame(a: Env, b: Env)
    requires Moved(a, b)
    ensures b.streams == a.streams && b.attempts == a.attempts && b.received == a.received && b.acts == a.acts
    ensures b.live == a.live && b.serving == a.serving && Onward(a, b)
  {
    hide Follows, Sound;
  }

  /** The error case. */
  method SelectError(s: LoopState)
    requires AtHead(s.p, s.Now()) && !s.pending && s.tracker.Valid()
    modifies s, s.world, s.tracker
    ensures AtHead(s.p, s.Now()) && GoodStep(old(s.Now()), s.Now()) && s.tracker.Valid() && s.heads == old(s.heads)
    ensures Acted(old(s.Now()), s.Now(), EventErrors)
  {
    hide StreamOnly, StreamBasic, StreamFit, WorkFit, NoNewStream, Sound, GoodStep, Counted, Heeds, Remembers, Faithful,
         Recovers, Awaits, s.tracker.Valid;
    ghost var q := s.Now();
    NoStep(q);
    if s.connected {
      FitIsSound(s.p, q);
      var got := s.world.TakeError();
      ghost var r := s.Now();
      ErrorTaken(s.p, q, r.env);
      if got.NotReady? {
        return;
      }
      StreamOnlyKeepsWork(s.p, q, r, 0);
      s.HandleStreamError(if got.Got? then Some(got.value) else None);
      StreamOnlyTwice(q, r, s.Now());
      NoNewTwice(q, r, s.Now());
      AwaitsAsBefore(q, s.Now());
      RememberedSince(q, r, s.Now());
      StreamStep(q, s.Now());
    }
  }

  /** One ready case of the select; a case that is not ready stands for waiting longer. */
  method SelectCase(s: LoopState, c: Case)
    requires AtHead(s.p, s.Now()) && !s.pending && s.tracker.Valid()
    modifies s, s.world, s.tracker
    ensures AtHead(s.p, s.Now()) && GoodStep(old(s.Now()), s.Now()) && s.tracker.Valid() && s.heads == old(s.heads)
    ensures Acted(old(s.Now()), s.Now(), c)
  {
    hide AtHead, GoodStep, s.tracker.Valid, Requested;
    ghost var q := s.Now();
    NoStep(q);
    match c
    case Events =>
      if s.connected {
        var _ := s.PollEvents();
      }
    case EventErrors => SelectError(s);
    case Reconnect =>
      if Due(s.reconnect, s.world.env.now) {
        Reconnected(s);
      }
    case Stability =>
      if Due(s.stability, s.world.env.now) {
        StabilityMeansConnected(s.p, q);
        s.HandleStability();
      }
    case Fired(timer) =>
      if Due(Timer(s.Fields(), timer), s.world.env.now) {
        RequestReconcile(s, timer);
        RequestKeeps(s.p, q, timer);
        RequestStep(q, timer);
      }
  }

  lemma StabilityMeansConnected(p: Params, q: Picture)
    requires AtHead(p, q) && q.mem.stability.Some?
    ensures q.mem.connected
  {
    hide StreamBasic, WorkFit;
  }

  /******* One turn *******/

  /** loopStop: the server outranks the context. */
  method LoopStop(world: World) returns (stop: bool, exit: Exit)
    requires Sound(world.env.stream)
    modifies world
    ensures Moved(old(world.env), world.env) && GoodExit(exit, world.env)
    ensures (stop ==> Stopped(world.env)) && (old(Stopped(world.env)) ==> stop)
    ensures (old(world.env).serverDone ==> exit.captured) && (exit.captured ==> stop)
  {
    hide Moved, Sound;
    world.Tick();
    ghost var e := world.env;
    MovedStops(old(world.env), e);
    if world.env.serverDone {
      return true, Exit(true, true);
    }
    world.Tick();
    MovedTwice(old(world.env), e, world.env);
    MovedStops(e, world.env);
    return world.env.ctxDone, Exit(false, false);
  }

  /** One turn of the loop: check for stop, reconcile if pending, otherwise take one ready case.  A turn that does
      not end the loop ends at the next head; one that does has done nothing else. */
  method Turn(s: LoopState, choice: Choice) returns (stop: bool, exit: Exit)
    requires AtHead(s.p, s.Now()) && s.Valid() && UpToDate(s.c, s.fs.outsider, s.world.env.attempts, s.fs.slots)
    modifies s, s.world, s.tracker, s.fs
    ensures AtHead(s.p, s.Now()) && s.Valid() && UpToDate(s.c, s.fs.outsider, s.world.env.attempts, s.fs.slots)
    ensures GoodExit(exit, s.world.env) && (stop ==> Stopped(s.world.env)) && (old(Stopped(s.world.env)) ==> stop)
    ensures if stop then
              && Moved(old(s.world.env), s.world.env) && s.Now() == old(s.Now()).(env := s.world.env)
              && s.heads == old(s.heads)
            else
              && HeadStep(s.c, s.fs.outsider, old(s.Now()), s.Now())
              && Pictured(old(s.heads), s.heads, s.Now(), s.tracker.ready && s.tracker.active.Keys == {})
              && GoodHead(s.p, s.c, s.fs.outsider, s.heads[|old(s.heads)|])
    ensures !stop ==> Chosen(old(s.Now()), s.Now(), choice)
    ensures Respects(s.c, s.fs.outsider, old(HistoryOf(s.fs)), HistoryOf(s.fs))
  {
    hide AtHead, s.Valid, GoodStep, Moved, Sound, UpToDate, Respects, GoodHead, Pictured, Took, Excused, HistoryOf;
    ghost var q := s.Now();
    SoundAtHead(s.p, q);
    RespectsItself(s.c, s.fs.outsider, HistoryOf(s.fs));
    stop, exit := LoopStop(s.world);
    ghost var r := s.Now();
    HeadWaits(s.p, q, r);
    if stop {
      return;
    }
    if s.pending {
      s.ReconcilePending();
      WaitThenStep(q, r.env, s.Now());
    } else {
      ghost var waited;
      stop, exit, waited := Select(s, choice);
      MovedTwice(q.env, r.env, waited);
      if stop {
        return;
      }
      WaitThenStep(q, r.env, s.Now());
    }
    ValidTracker(s);
    PassHead(s);
  }

  /** The select: wait, then return or take the chosen case. */
  method Select(s: LoopState, choice: Choice) returns (stop: bool, exit: Exit, ghost waited: Env)
    requires AtHead(s.p, s.Now()) && !s.pending && s.Valid()
    requires UpToDate(s.c, s.fs.outsider, s.world.env.attempts, s.fs.slots)
    modifies s, s.world, s.tracker
    ensures AtHead(s.p, s.Now()) && s.Valid() && s.heads == old(s.heads)
    ensures UpToDate(s.c, s.fs.outsider, s.world.env.attempts, s.fs.slots)
    ensures GoodExit(exit, s.world.env) && (stop ==> Stopped(s.world.env))
    ensures Moved(old(s.world.env), waited)
    ensures if stop then s.world.env == waited && s.Now() == old(s.Now()).(env := waited)
            else GoodStep(old(s.Now()), s.Now()) && Took(old(s.Now()).(env := waited), s.Now(), choice)
  {
    hide AtHead, GoodStep, Moved, Sound, UpToDate, GoodConfig, s.tracker.Valid, s.fs.Valid, Acted;
    ghost var q := s.Now();
    SoundAtHead(s.p, q);
    s.world.Tick();
    ghost var r := s.Now();
    HeadWaits(s.p, q, r);
    MovedSame(q.env, r.env);
    waited := s.world.env;
    if choice.ContextDone? && s.world.env.ctxDone {
      return true, Exit(false, false), waited;
    }
    if choice.ServerDone? && s.world.env.serverDone {
      return true, Exit(true, true), waited;
    }
    NoStep(r);
    if choice.Take? {
      SelectCase(s, choice.which);
    }
    StepKeepsAttempts(r, s.Now());
    WaitThenStep(q, r.env, s.Now());
    return false, Exit(false, false), waited;
  }

  lemma StepKeepsAttempts(q: Picture, r: Picture)
    requires GoodStep(q, r) && !q.mem.pending
    ensures r.env.attempts == q.env.attempts
  {
  }

  lemma SoundAtHead(p: Params, q: Picture)
    requires AtHead(p, q)
    ensures Sound(q.env.stream) && q.env.serving && Caused(q.env)
  {
    hide WorkFit;
    FitIsSound(p, q);
  }

  lemma HeadWaits(p: Params, q: Picture, r: Picture)
    requires AtHead(p, q) && Moved(q.env, r.env) && r == q.(env := r.env)
    ensures AtHead(p, r) && r.env.attempts == q.env.attempts
  {
    hide StreamFit, WorkFit, Moved;
    StreamMoves(p, q, r.env);
    WorkMoves(p, q, r.env, 0);
    MovedSame(q.env, r.env);
  }

  lemma ValidTracker(s: LoopState)
    requires s.Valid()
    ensures s.tracker.Valid()
  {
  }

  /******* Runs *******/

  /** The turns of a run, for any choices its selects may make: they are all taken unless a stop signal comes first. */
  method RunTurns(s: LoopState, choices: seq<Choice>) returns (stop: bool, exit: Exit, taken: nat)
    requires s.Valid() && AtHead(s.p, s.Now()) && UpToDate(s.c, s.fs.outsider, s.world.env.attempts, s.fs.slots)
    requires |s.heads| == 1 && s.heads[0].picture == s.Now() && GoodHeads(s.p, s.c, s.fs.outsider, s.heads)
    modifies s, s.world, s.tracker, s.fs
    ensures s.Valid() && AtHead(s.p, s.Now())
    ensures |s.heads| == taken + 1 && s.heads[0] == old(s.heads)[0] && AllChosen(s.heads, choices)
    ensures GoodHeads(s.p, s.c, s.fs.outsider, s.heads)
    ensures Moved(s.heads[taken].picture.env, s.world.env)
    ensures s.Now() == s.heads[taken].picture.(env := s.world.env)
    ensures Respects(s.c, s.fs.outsider, old(HistoryOf(s.fs)), HistoryOf(s.fs))
    ensures if stop then Stopped(s.world.env) && GoodExit(exit, s.world.env) else taken == |choices|
  {
    hide AtHead, GoodHead, GoodHeads, HeadStep, Moved, Sound, UpToDate, Respects, Pictured, s.Valid, HistoryOf,
         Chosen, AllChosen;
    ghost var h0 := HistoryOf(s.fs);
    RespectsItself(s.c, s.fs.outsider, h0);
    NoneChosen(s.heads, choices);
    taken := 0;
    for i := 0 to |choices|
      invariant s.Valid() && AtHead(s.p, s.Now()) && UpToDate(s.c, s.fs.outsider, s.world.env.attempts, s.fs.slots)
      invariant taken == i && |s.heads| == taken + 1 && s.heads[taken].picture == s.Now()
      invariant s.heads[0] == old(s.heads)[0]
      invariant GoodHeads(s.p, s.c, s.fs.outsider, s.heads) && AllChosen(s.heads, choices)
      invariant Respects(s.c, s.fs.outsider, h0, HistoryOf(s.fs))
    {
      ghost var h, heads := HistoryOf(s.fs), s.heads;
      stop, exit := Turn(s, choices[i]);
      RespectsAppend(s.c, s.fs.outsider, h0, h, HistoryOf(s.fs));
      if stop {
        return;
      }
      NextHead(s.p, s.c, s.fs.outsider, heads, s.heads, s.Now(),
               s.tracker.ready && s.tracker.active.Keys == {}, choices);
      taken := taken + 1;
    }
    SoundAtHead(s.p, s.Now());
    MovedNot(s.world.env);
    return false, Exit(false, false), taken;
  }

  /** The loop, for any choices its selects may make, and cut off when they are used up. */
  method RunLoop(p: Params, c: Config, world: World, tracker: T.HealthTracker, fs: FileSystem, failure: Option<string>,
                 choices: seq<Choice>)
    returns (exit: Exit, s: LoopState, taken: nat)
    requires Begins(p, failure, world.env, tracker.ops)
    requires tracker.Valid() && fs.Valid() && GoodConfig(c) && UpToDate(c, fs.outsider, world.env.attempts, fs.slots)
    modifies world, tracker, fs
    ensures fresh(s) && s.p == p && s.c == c && s.world == world && s.tracker == tracker && s.fs == fs
    ensures s.Valid() && |s.heads| == taken + 1 && AllChosen(s.heads, choices)
    ensures world.env.cut && !old(world.env).cut ==> taken == |choices|
    ensures LoopRan(p, c, fs.outsider, old(world.env), world.env, s.heads)
    ensures s.reports == s.heads[taken].picture.reports && AllFaithful(s.reports)
    ensures Reports(s.reports, "") || PlainlyAgree(s.heads)
    ensures Respects(c, fs.outsider, old(HistoryOf(fs)), HistoryOf(fs))
    ensures GoodExit(exit, world.env) && Stopped(world.env) && world.env.live == {}
    ensures Sound(world.env.stream) && Caused(world.env)
  {
    hide AtHead, GoodHead, GoodHeads, Moved, Sound, UpToDate, Respects, Begins, GoodConfig, LoopState.Valid, HistoryOf,
         LastHead, FirstHead, AllFaithful, PlainlyAgree, Reports, AllChosen;
    ghost var e0 := world.env;
    s := new LoopState(p, c, world, tracker, fs, failure);
    Enter(s, failure, e0);
    var stop;
    stop, exit, taken := RunTurns(s, choices);
    RunOnward(p, c, fs.outsider, e0, s.heads, taken);
    MovedCut(s.heads[taken].picture.env, world.env);
    if !stop {
      exit := CutOff(s, taken);
    }
    Leave(s, taken);
  }

  lemma MovedCut(a: Env, b: Env)
    requires Moved(a, b)
    ensures b.cut == a.cut && b.granted == a.granted
    ensures forall q: Picture :: q.env == a ==> LastHead(q, b)
  {
    hide Sound, Follows;
  }

  /** The first head: the loop has opened its stream. */
  method Enter(s: LoopState, failure: Option<string>, ghost e0: Env)
    requires Begins(s.p, failure, s.world.env, s.tracker.ops) && e0 == s.world.env && s.Valid() && s.heads == []
    requires s.Now() == Begun(s.p, failure, s.world.env, s.tracker.ops, HistoryOf(s.fs))
    requires UpToDate(s.c, s.fs.outsider, s.world.env.attempts, s.fs.slots)
    modifies s, s.world, s.tracker
    ensures s.Valid() && AtHead(s.p, s.Now()) && UpToDate(s.c, s.fs.outsider, s.world.env.attempts, s.fs.slots)
    ensures |s.heads| == 1 && s.heads[0].picture == s.Now()
    ensures GoodHeads(s.p, s.c, s.fs.outsider, s.heads) && FirstHead(e0, s.heads[0].picture)
  {
    hide StreamFit, WorkFit, StreamBasic, Listening, Counted, Begins, StreamOnly, GoodHead, UpToDate, GoodConfig,
         LostFor, s.tracker.Valid, s.fs.Valid;
    ghost var q := s.Now();
    BegunIsFit(s.p, failure, s.world.env, s.tracker.ops, HistoryOf(s.fs));
    OpenOrWait(s);
    StreamOnlyKeepsWork(s.p, q, s.Now(), 0);
    EntersAt(q, s.Now());
    PassHead(s);
    OneHead(s.p, s.c, s.fs.outsider, s.heads[0]);
    assert s.heads == [s.heads[0]];
  }

  lemma EntersAt(q: Picture, r: Picture)
    requires StreamOnly(q, r) && q.notes == Notes([], q.env.now, q.env.now, q.env.now)
    requires r.env.streams <= q.env.streams + 1
    ensures FirstHead(q.env, r)
    ensures r.env.attempts == q.env.attempts
  {
  }

  /** The deferred close, when the loop returns. */
  method Leave(s: LoopState, ghost taken: nat)
    requires AtHead(s.p, s.Now()) && |s.heads| == taken + 1
    requires LastHead(s.heads[taken].picture, s.world.env) && s.Now() == s.heads[taken].picture.(env := s.world.env)
    requires GoodHeads(s.p, s.c, s.fs.outsider, s.heads)
    modifies s`streamCancel, s`periodic, s`debounce, s`maximum, s`retry, s`reconnect, s`stability, s.world
    ensures LastHead(s.heads[taken].picture, s.world.env) && s.world.env.live == {}
    ensures s.reports == s.heads[taken].picture.reports && AllFaithful(s.reports)
    ensures Reports(s.reports, "") || PlainlyAgree(s.heads)
    ensures Stopped(old(s.world.env)) ==> Stopped(s.world.env)
    ensures s.world.env.serverDone == old(s.world.env).serverDone && s.world.env.cut == old(s.world.env).cut
    ensures Sound(s.world.env.stream) && Caused(s.world.env)
  {
    hide GoodHeads, Sound, AtHead, AllFaithful, PlainlyAgree, Reports, LastHead, Cancelled;
    ghost var r := s.Now();
    SoundAtHead(s.p, r);
    FaithfulAtHead(s.p, r);
    RunAgrees(s.p, s.c, s.fs.outsider, s.heads);
    CloseLoop(s);
    ClosedAfter(s.p, s.heads[taken].picture, r);
  }

  /** close: the stream is cancelled and every timer stopped. */
  method CloseLoop(s: LoopState)
    requires Sound(s.world.env.stream)
    modifies s`streamCancel, s`periodic, s`debounce, s`maximum, s`retry, s`reconnect, s`stability, s.world
    ensures s.world.env == Cancelled(old(s.Now())).env && Sound(s.world.env.stream)
  {
    hide Sound;
    s.CancelStream();
    s.periodic, s.debounce, s.maximum, s.retry, s.reconnect, s.stability := None, None, None, None, None, None;
  }

  lemma ClosedAfter(p: Params, q: Picture, r: Picture)
    requires AtHead(p, r) && LastHead(q, r.env)
    ensures LastHead(q, Cancelled(r).env) && Cancelled(r).env.live == {} && Caused(Cancelled(r).env)
    ensures Stopped(r.env) == Stopped(Cancelled(r).env) && Cancelled(r).env.serverDone == r.env.serverDone
    ensures Cancelled(r).env.cut == r.env.cut
  {
    hide WorkFit, StreamBasic, Listening;
    FitIsSound(p, r);
    CancelKeeps(p, r);
  }

  /** The run is cut off: a stop signal ends it at its last head. */
  method CutOff(s: LoopState, ghost taken: nat) returns (exit: Exit)
    requires AtHead(s.p, s.Now()) && |s.heads| == taken + 1
    requires Moved(s.heads[taken].picture.env, s.world.env) && s.Now() == s.heads[taken].picture.(env := s.world.env)
    modifies s.world
    ensures AtHead(s.p, s.Now()) && s.Now() == s.heads[taken].picture.(env := s.world.env)
    ensures LastHead(s.heads[taken].picture, s.world.env)
    ensures GoodExit(exit, s.world.env) && Stopped(s.world.env)
  {
    hide Moved, Sound, AtHead, LastHead;
    ghost var q := s.Now();
    SoundAtHead(s.p, q);
    s.world.CutOff();
    ghost var r := s.Now();
    HeadWaits(s.p, q, r.(env := r.env.(cut := q.env.cut)));
    CutAtHead(s.p, r.(env := r.env.(cut := q.env.cut)), r);
    SoundAtHead(s.p, r);
    var _, ended := LoopStop(s.world);
    HeadWaits(s.p, r, s.Now());
    LastThroughCut(s.heads[taken].picture, q.env, r.env, s.world.env);
    exit := ended;
  }

  /** Being cut off changes nothing but the record of it. */
  lemma CutAtHead(p: Params, q: Picture, r: Picture)
    requires AtHead(p, q) && r == q.(env := r.env) && r.env == q.env.(cut := r.env.cut)
    ensures AtHead(p, r)
  {
    hide Sound, AllFaithful, Founded, BackedOff, Observed, Agreed, Timely;
  }

  lemma LastThroughCut(q: Picture, a: Env, b: Env, d: Env)
    requires Moved(q.env, a) && Moved(a, b.(cut := a.cut)) && Moved(b, d)
    ensures LastHead(q, d)
  {
    hide Sound, Follows;
  }
}
