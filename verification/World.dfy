/** What surrounds the daemon's loop: a clock, the stop signals, the current stream, and a record of what happened. */
module World {
  import opened Basics
  import opened Mapper
  import Docker = Snapshot

  /** What Run does to the resources it owns, with the answer and what could be seen at that moment. */
  datatype Act =
    | Pinged(ok: bool)
    | Started(ok: bool)
    | Looked(done: bool)
    | ShutDown(done: bool, ok: bool)
    | SourceClosed(live: set<nat>, ok: bool)

  /** A reconciliation that has ended: when, with which error, and what Docker had answered. */
  datatype Attempt = Attempt(at: nat, failure: Option<string>, listing: Docker.Listing)

  /** The state of the world. */
  datatype Env = Env(
    now: nat,
    parentDone: bool,            // the caller's context is done
    ctxDone: bool,               // the run's own context is done
    serverDone: bool,            // the health server has finished
    serverError: bool,           // ... with an error
    serving: bool,               // the health server has been started; only then can it finish
    stream: Stream,              // the stream opened last
    streams: nat,                // how many streams were opened,
    granted: nat,                // how many of them had channels,
    openedAt: nat,               // and when the last one was opened
    live: set<nat>,              // the streams whose context has not been cancelled
    received: seq<nat>,          // when the loop received events
    listing: Docker.Listing,     // what Docker answered last
    attempts: seq<Attempt>,      // the reconciliations that have ended
    acts: seq<Act>,
    cut: bool)                   // the run was stopped because the model has no more choices for it

  /** The loop and everything it started must stop. */
  ghost predicate Stopped(e: Env) {
    e.serverDone || e.ctxDone
  }

  /** The run's context ends only with the caller's, or after the server. */
  ghost predicate Caused(e: Env) {
    e.ctxDone ==> e.parentDone || e.serverDone
  }

  /** What passing time does: signals stay up, the stream only goes forward, and nothing else changes. */
  ghost predicate Moved(a: Env, b: Env) {
    && b == a.(now := b.now, parentDone := b.parentDone, ctxDone := b.ctxDone, serverDone := b.serverDone,
               serverError := b.serverError, stream := b.stream)
    && Sound(b.stream) && Follows(a.stream, b.stream)
    && a.now <= b.now
    && (a.parentDone ==> b.parentDone) && (a.ctxDone ==> b.ctxDone) && (a.serverDone ==> b.serverDone)
    && (a.serverDone || !a.serving ==> b.serverError == a.serverError && b.serverDone == a.serverDone)
    && (b.stream.cancelled && !a.stream.cancelled ==> b.ctxDone)
    && (b.ctxDone && !a.ctxDone ==> b.parentDone || b.serverDone)
  }

  lemma MovedNot(e: Env)
    requires Sound(e.stream)
    ensures Moved(e, e)
  {
    FollowsItself(e.stream);
  }

  lemma MovedTwice(a: Env, b: Env, c: Env)
    requires Moved(a, b) && Moved(b, c)
    ensures Moved(a, c)
  {
    hide Follows, Sound;
    FollowsIsTransitive(a.stream, b.stream, c.stream);
  }

  lemma CancelMoves(a: Env, b: Env)
    requires Sound(a.stream) && a.ctxDone && b == a.(stream := a.stream.(cancelled := true))
    ensures Moved(a, b)
  {
    hide Follows, Sound;
    CancelFollows(a.stream);
  }

  lemma MapperMoves(a: Env, b: Env)
    requires Sound(b.stream) && Follows(a.stream, b.stream) && b.stream.cancelled == a.stream.cancelled
    requires b == a.(stream := b.stream)
    ensures Moved(a, b)
  {
    hide Follows, Sound;
  }

  /** What passing time does to the signals. */
  lemma MovedStops(a: Env, b: Env)
    requires Moved(a, b)
    ensures Sound(b.stream) && (Stopped(a) ==> Stopped(b)) && (Caused(a) ==> Caused(b)) && a.now <= b.now
    ensures a.serverDone ==> b.serverDone
    ensures a.parentDone ==> b.parentDone
    ensures a.ctxDone ==> b.ctxDone
  {
    hide Follows, Sound;
  }

  /** The stream of a rejected request: its one error, and both channels closed. */
  function RejectedStream(error: Option<string>): Stream {
    Stream(Finished, false, true, error, true, false, error, error, false, 0, 0)
  }

  lemma OpenedIsSound(error: Option<string>)
    ensures Sound(OPENED) && Sound(RejectedStream(error))
  {
  }

  /******* What Run does to its resources *******/

  function LookedEnv(e: Env): Env {
    e.(acts := e.acts + [Looked(e.serverDone)])
  }

  function ShutEnv(e: Env, failed: bool, ok: bool): Env {
    e.(serverDone := true, serverError := if e.serverDone then e.serverError else failed,
       acts := e.acts + [ShutDown(e.serverDone, ok)])
  }

  function ClosedEnv(e: Env, ok: bool): Env {
    e.(acts := e.acts + [SourceClosed(e.live, ok)])
  }

  lemma CutOnly(a: Env, b: Env)
    requires Moved(a, b)
    ensures b.(cut := true).(cut := a.cut) == b
  {
    hide Follows, Sound;
  }

  lemma FinishInOrder(n: nat)
    ensures Docker.AllFinish(seq(n, i => i), n)
  {
    var finished: seq<nat> := seq(n, i => i);
    forall i: nat | 0 <= i < n ensures i in finished {
      assert finished[i] == i;
    }
  }

  /** The world itself; whatever happens in it happens through these methods. */
  class World {
    var env: Env

    /** A world in which nothing has been started yet; the caller's context may already be done. */
    constructor ()
      ensures Sound(env.stream) && Caused(env) && !env.serving && !Stopped(env)
      ensures env == Env(0, env.parentDone, false, false, false, false, OPENED, 0, 0, 0, {}, [],
                         Docker.Listed([]), [], [], false)
    {
      var parentDone: bool := *;
      env := Env(0, parentDone, false, false, false, false, OPENED, 0, 0, 0, {}, [], Docker.Listed([]), [], [], false);
    }

    /** Anything else may happen: time passes, signals rise and stay, the mapper runs. */
    method Tick()
      requires Sound(env.stream)
      modifies this
      ensures Moved(old(env), env)
    {
      hide Follows, Sound, Moved, Ran;
      MovedNot(env);
      Signals();
      ghost var e := env;
      MovedStops(old(env), e);
      var propagate: bool, script: seq<Step> := *, *;
      if env.ctxDone && propagate {
        env := env.(stream := env.stream.(cancelled := true));
        CancelMoves(e, env);
        MovedTwice(old(env), e, env);
      }
      ghost var f := env;
      MovedStops(old(env), f);
      var s := RunMapper(env.stream, script);
      env := env.(stream := s);
      MapperMoves(f, env);
      MovedTwice(old(env), f, env);
    }

    /** Time passes and stop signals may rise; the watcher turns a finished server into a done context. */
    method Signals()
      requires Sound(env.stream)
      modifies this
      ensures Moved(old(env), env)
    {
      hide Follows, Sound;
      FollowsItself(env.stream);
      var later: int, cancel: bool, finish: bool, failed: bool, propagate: bool := *, *, *, *, *;
      if later > 0 {
        env := env.(now := env.now + later);
      }
      env := env.(parentDone := env.parentDone || cancel);
      if env.serving && !env.serverDone && finish {
        env := env.(serverDone := true, serverError := failed);
      }
      if (env.parentDone || env.serverDone) && propagate {
        env := env.(ctxDone := true);
      }
    }

    /** The run's context turns out to be done, because of the caller or of the server. */
    method Cancel()
      requires Sound(env.stream)
      modifies this
      ensures Moved(old(env), env) && env.ctxDone
    {
      hide Follows, Sound;
      FollowsItself(env.stream);
      if !env.ctxDone {
        var byServer: bool, failed: bool := *, *;
        if byServer && env.serving {
          env := env.(serverDone := true, serverError := if env.serverDone then env.serverError else failed);
        } else {
          env := env.(parentDone := true);
        }
        env := env.(ctxDone := true);
      }
    }

    /** The run is cut off. */
    method CutOff()
      requires Sound(env.stream)
      modifies this
      ensures env.cut && env.ctxDone && Moved(old(env), env.(cut := old(env).cut))
    {
      hide Moved, Sound;
      Cancel();
      ghost var e := env;
      env := env.(cut := true);
      CutOnly(old(env), e);
    }

    /** The run cancels its own context. */
    method CancelRun()
      modifies this
      ensures env == old(env).(ctxDone := true)
    {
      env := env.(ctxDone := true);
    }

    /** loopStreamStopReady: two looks, first at the server, then at the context. */
    method StopReady() returns (stop: bool)
      requires Sound(env.stream)
      modifies this
      ensures Moved(old(env), env)
      ensures stop ==> Stopped(env)
      ensures old(Stopped(env)) ==> stop
    {
      hide Follows, Sound, Moved;
      Tick();
      ghost var e := env;
      MovedStops(old(env), e);
      if env.serverDone {
        return true;
      }
      Tick();
      MovedTwice(old(env), e, env);
      MovedStops(e, env);
      stop := env.ctxDone;
    }

    /******* The stream *******/

    /** Events: opens the next stream under a fresh context; a source may return no channels. */
    method OpenStream() returns (id: nat, channels: bool, ghost rejected: Option<string>)
      modifies this
      ensures id == old(env).streams && Sound(env.stream) && !env.stream.consumed && !env.stream.cancelled
      ensures !env.stream.event
      ensures if rejected.None? then Listens(env.stream) && env.stream.error.None? && !env.stream.eventsClosed
              else env.stream.error == rejected && Faithful(rejected, env.stream) && env.stream.eventsClosed
      ensures env == old(env).(stream := env.stream, streams := id + 1, openedAt := old(env).now,
                               live := old(env).live + {id},
                               granted := old(env).granted + if channels then 1 else 0)
    {
      hide Sound;
      var refusal: Option<string> := *;
      rejected := refusal;
      id, channels := env.streams, *;
      OpenedIsSound(refusal);
      env := env.(stream := if refusal.Some? then RejectedStream(refusal) else OPENED, streams := id + 1,
                  openedAt := env.now, live := env.live + {id},
                  granted := env.granted + if channels then 1 else 0);
    }

    method CancelStream(id: nat)
      requires Sound(env.stream)
      modifies this
      ensures env == old(env).(live := old(env).live - {id}, stream := old(env).stream.(cancelled := true))
      ensures Sound(env.stream)
    {
      hide Sound;
      CancelFollows(env.stream);
      env := env.(live := env.live - {id}, stream := env.stream.(cancelled := true));
    }

    /** One look at the event channel. */
    method TakeEvent() returns (got: Received<()>)
      requires Sound(env.stream)
      modifies this
      ensures Sound(env.stream)
      ensures env == old(env).(stream := Emptied(old(env).stream),
                               received := old(env).received + if got.Got? then [env.now] else [])
      ensures got.Got? <==> old(env).stream.event
      ensures got.Closed? <==> !old(env).stream.event && old(env).stream.eventsClosed
      ensures got.Closed? ==> old(env).stream.errorsClosed
    {
      hide Sound;
      var r;
      got, r := ReceiveEvent(env.stream);
      env := env.(stream := r, received := env.received + if got.Got? then [env.now] else []);
    }

    /** One look at the error channel. */
    method TakeError() returns (got: Received<string>)
      requires Sound(env.stream) && !env.stream.consumed
      modifies this
      ensures Sound(env.stream) && env == old(env).(stream := env.stream)
      ensures env.stream.cancelled == old(env).stream.cancelled
      ensures env.stream.eventsClosed == old(env).stream.eventsClosed
      ensures got.Got? ==> Faithful(Some(got.value), env.stream)
      ensures got.Closed? ==> Faithful(None, env.stream)
      ensures !got.Got? ==> env.stream == old(env).stream
      ensures got.NotReady? <==> !old(env).stream.errorsClosed && old(env).stream.error.None?
    {
      hide Sound, Faithful;
      var r;
      got, r := ReceiveError(env.stream);
      env := env.(stream := r);
    }

    /******* Reconciliations *******/

    /** Docker lists and inspects its containers, with any answers and in any order. */
    method AskDocker() returns (listing: Docker.Listing, finished: seq<nat>)
      modifies this
      ensures env == old(env).(listing := listing)
      ensures listing.Listed? ==> Docker.AllFinish(finished, |listing.items|)
    {
      listing := *;
      FinishInOrder(if listing.Listed? then |listing.items| else 0);
      finished := if listing.Listed? then seq(|listing.items|, i => i) else [];
      env := env.(listing := listing);
    }

    /** A reconciliation has ended. */
    method NoteAttempt(failure: Option<string>)
      modifies this
      ensures env == old(env).(attempts := old(env).attempts + [Attempt(env.now, failure, env.listing)])
    {
      env := env.(attempts := env.attempts + [Attempt(env.now, failure, env.listing)]);
    }

    /******* The resources of a run *******/

    /** Ping: Docker answers or not. */
    method PingSource() returns (ok: bool)
      modifies this
      ensures env == old(env).(acts := old(env).acts + [Pinged(ok)])
    {
      ok := *;
      env := env.(acts := env.acts + [Pinged(ok)]);
    }

    /** Start: from now on the server may finish. */
    method StartServer() returns (ok: bool)
      modifies this
      ensures env == old(env).(serving := ok || old(env).serving, acts := old(env).acts + [Started(ok)])
    {
      ok := *;
      env := env.(serving := ok || env.serving, acts := env.acts + [Started(ok)]);
    }

    /** One look at the server, before it is asked to shut down. */
    method LookAtServer() returns (done: bool)
      modifies this
      ensures done == old(env).serverDone && env == LookedEnv(old(env))
    {
      done := env.serverDone;
      env := env.(acts := env.acts + [Looked(done)]);
    }

    /** Shutdown, and the wait for the serving goroutine to exit; a server still running may end with an error. */
    method ShutdownServer() returns (ok: bool, ghost failed: bool)
      requires env.serving
      modifies this
      ensures env == ShutEnv(old(env), failed, ok)
    {
      var error: bool;
      ok, error := *, *;
      failed := error;
      env := env.(serverDone := true, serverError := if env.serverDone then env.serverError else error,
                  acts := env.acts + [ShutDown(env.serverDone, ok)]);
    }

    method CloseSource() returns (ok: bool)
      modifies this
      ensures env == ClosedEnv(old(env), ok)
    {
      ok := *;
      env := env.(acts := env.acts + [SourceClosed(env.live, ok)]);
    }
  }
}
