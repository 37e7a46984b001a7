/** The reconcile loop on values: what it remembers, what holds of it, and what its steps do.

    Deadlines are points on the world's clock.  Stop signals may rise between any two operations; what holds
    "while running" is claimed of pictures in which none has risen.
 */
module LoopModel {
  import opened Basics
  import opened Mapper
  import opened Backoff
  import opened World
  import opened Reconciler
  import opened TrackerLaws
  import T = Tracker

  const STREAM_CLOSED := "Docker event stream closed"

  /** How a stream ended: the error the loop acted on, and the stream at that moment. */
  datatype Report = Report(verdict: Option<string>, stream: Stream)

  /** The fields of loopState. */
  datatype Memory = Memory(
    periodic: Option<nat>, debounce: Option<nat>, maximum: Option<nat>,
    retry: Option<nat>, reconnect: Option<nat>, stability: Option<nat>,
    retryDelay: nat, reconnectDelay: nat,
    pending: bool,
    reconcileFailure: string, streamFailure: string,
    connected: bool,             // the loop holds a stream's channels
    cancel: Option<nat>)         // the stream it can cancel

  /** When timers were armed: at each event of the current batch, and at the latest arming of the others. */
  datatype Notes = Notes(batch: seq<nat>, armedAt: nat, failedAt: nat, openedAt: nat)

  /** The loop and everything around it at one moment. */
  datatype Picture = Picture(
    mem: Memory, notes: Notes, env: Env, ops: seq<T.Op>, reports: seq<Report>, store: History)

  /******* Functions of the record *******/

  /** Failed reconciliations since the last successful one. */
  function Trailing(attempts: seq<Attempt>): nat {
    if attempts == [] || attempts[|attempts| - 1].failure.None? then 0
    else Trailing(attempts[..|attempts| - 1]) + 1
  }

  /** Disconnects since the last stream recovery, as the health tracker was told of them. */
  function Losses(ops: seq<T.Op>): nat {
    Failures(ops, T.DockerEvents)
  }

  function LostAt(ops: seq<T.Op>): int {
    if Latest(ops, T.DockerEvents).Some? then Latest(ops, T.DockerEvents).value.now else 0
  }

  /** The message of the latest disconnect since the last stream recovery. */
  function LostFor(ops: seq<T.Op>): string {
    if Latest(ops, T.DockerEvents).Some? then Latest(ops, T.DockerEvents).value.message else ""
  }

  /******* The stream side *******/

  ghost predicate AllFaithful(reports: seq<Report>) {
    forall i :: 0 <= i < |reports| ==> Faithful(reports[i].verdict, reports[i].stream)
  }

  /** Some stream ended with this error. */
  ghost predicate Reports(reports: seq<Report>, text: string) {
    exists i :: 0 <= i < |reports| && reports[i].verdict == Some(text)
  }

  /** A delay is exact, and its timer is due exactly one delay after the failure that armed it. */
  ghost predicate BackedOff(p: Params, delay: nat, timer: Option<nat>, failures: nat, failedAt: int) {
    && delay == Delay(p, failures)
    && (timer.Some? ==> failures > 0 && timer.value == failedAt + Delay(p, failures - 1))
  }

  /** At most one stream context is live, and it is the one the loop can cancel. */
  ghost predicate OneStream(live: set<nat>, mem: Memory) {
    && live == (if mem.cancel.Some? then {mem.cancel.value} else {})
    && (mem.connected ==> mem.cancel.Some?)
    && (mem.reconnect.Some? ==> !mem.connected)
  }

  /** The stability timer is due one delay after it was armed, which was after the stream was opened. */
  ghost predicate Steadying(p: Params, stability: Option<nat>, armed: nat, since: nat, now: nat) {
    armed <= now && (stability.Some? ==> stability.value == armed + p.stability && since <= armed)
  }

  /** What the tracker was told last of the stream is what some stream ended with. */
  ghost predicate Founded(ops: seq<T.Op>, reports: seq<Report>) {
    Losses(ops) > 0 ==> LostFor(ops) == STREAM_CLOSED || Reports(reports, LostFor(ops))
  }

  /** What holds of the stream at all times. */
  ghost predicate StreamBasic(p: Params, q: Picture) {
    && GoodParams(p) && q.env.serving && Caused(q.env) && Sound(q.env.stream)
    && OneStream(q.env.live, q.mem)
    && Steadying(p, q.mem.stability, q.notes.openedAt, q.env.openedAt, q.env.now)
    && BackedOff(p, q.mem.reconnectDelay, q.mem.reconnect, Losses(q.ops), LostAt(q.ops))
    && AllFaithful(q.reports) && Founded(q.ops, q.reports)
  }

  /** While connected the stream's error has not been received; while running its context is live. */
  ghost predicate Listening(q: Picture) {
    && (q.mem.connected ==> !q.env.stream.consumed && (!Stopped(q.env) ==> !q.env.stream.cancelled))
    && (q.mem.stability.Some? ==> q.mem.connected)
  }

  /** Connected, or waiting to reconnect, and never both. */
  ghost predicate Managed(mem: Memory) {
    mem.connected <==> mem.reconnect.None?
  }

  /** Every stream the loop was given is the one it listens to, or has been reported on. */
  ghost predicate Counted(q: Picture) {
    |q.reports| + (if q.mem.connected then 1 else 0) == q.env.granted
  }

  ghost predicate StreamFit(p: Params, q: Picture) {
    && StreamBasic(p, q) && Listening(q)
    && (!Stopped(q.env) ==> Managed(q.mem) && Counted(q) && q.mem.streamFailure == LostFor(q.ops))
  }

  lemma FitIsSound(p: Params, q: Picture)
    requires StreamFit(p, q)
    ensures StreamBasic(p, q) && Listening(q) && Sound(q.env.stream) && q.env.serving && Caused(q.env)
    ensures q.mem.connected ==> !q.env.stream.consumed
    ensures !Stopped(q.env) ==> Counted(q)
  {
  }

  /******* The reconciling side *******/

  /** A batch of events is waiting: one hard deadline from its first event, one soft one from its latest. */
  ghost predicate Batched(p: Params, mem: Memory, batch: seq<nat>) {
    && (mem.debounce.Some? <==> batch != [])
    && (mem.maximum.Some? <==> batch != [])
    && (batch != [] ==>
          && mem.maximum == Some(batch[0] + p.maxDebounce)
          && mem.debounce == Some(batch[|batch| - 1] + p.debounce))
  }

  /** The batch is made of the events received last: each was observed after it and before the next was received. */
  ghost predicate Observed(received: seq<nat>, batch: seq<nat>, now: nat) {
    && |batch| <= |received|
    && var first := |received| - |batch|;
       && (forall k :: 0 <= k < |batch| ==> received[first + k] <= batch[k] <= now)
       && (forall k :: 0 <= k < |batch| - 1 ==> batch[k] <= received[first + (k + 1)])
  }

  /** An event has just been received, after those of the batch were observed. */
  ghost predicate Pressing(received: seq<nat>, batch: seq<nat>, now: nat) {
    && received != [] && received[|received| - 1] <= now
    && (batch != [] ==> batch[|batch| - 1] <= received[|received| - 1])
  }

  /** A waiting loop will wake up, and retries exactly after a failure. */
  ghost predicate Armed(mem: Memory) {
    mem.periodic.Some? && (mem.retry.Some? <==> mem.reconcileFailure != "")
  }

  /** The tracker and the loop agree on the latest reconciliation. */
  ghost predicate Agreed(ops: seq<T.Op>, attempts: seq<Attempt>, reconcileFailure: string) {
    && Ready(ops) && Latest(ops, T.Recovery).None?
    && attempts != []
    && var failure := attempts[|attempts| - 1].failure;
       && (failure.Some? ==> failure.value != "")
       && reconcileFailure == (if failure.Some? then failure.value else "")
       && Names(ops, failure)
  }

  /** Timers were armed, and the events of the batch observed, after the latest reconciliation. */
  ghost predicate Timely(attempts: seq<Attempt>, notes: Notes) {
    && attempts != []
    && attempts[|attempts| - 1].at <= notes.armedAt
    && (attempts[|attempts| - 1].failure.Some? ==> attempts[|attempts| - 1].at <= notes.failedAt)
    && (forall k :: 0 <= k < |notes.batch| ==> attempts[|attempts| - 1].at <= notes.batch[k])
  }

  /** The least time from one reconciliation to the next. */
  function Gap(p: Params): nat {
    var gap := if p.periodic < p.debounce then p.periodic else p.debounce;
    if gap < p.retryInitial then gap else p.retryInitial
  }

  predicate Due(timer: Option<nat>, now: nat) {
    timer.Some? && timer.value <= now
  }

  /** What holds of reconciliation; `unseen` events have been received and not yet observed. */
  ghost predicate WorkFit(p: Params, q: Picture, unseen: nat) {
    && GoodParams(p) && unseen <= |q.env.received|
    && (unseen > 0 ==> Pressing(q.env.received, q.notes.batch, q.env.now))
    && Batched(p, q.mem, q.notes.batch)
    && (q.notes.batch != [] ==> q.notes.batch[|q.notes.batch| - 1] <= q.env.now)
    && q.notes.armedAt <= q.env.now && q.notes.failedAt <= q.env.now
    && (q.mem.periodic.Some? ==> q.mem.periodic.value == q.notes.armedAt + p.periodic)
    && (!Stopped(q.env) ==>
          && Observed(q.env.received[..|q.env.received| - unseen], q.notes.batch, q.env.now)
          && Agreed(q.ops, q.env.attempts, q.mem.reconcileFailure)
          && Timely(q.env.attempts, q.notes)
          && BackedOff(p, q.mem.retryDelay, q.mem.retry, Trailing(q.env.attempts), q.notes.failedAt)
          && (if q.mem.pending then q.env.attempts[|q.env.attempts| - 1].at + Gap(p) <= q.env.now else Armed(q.mem)))
  }

  /** The invariant at the head of the loop. */
  ghost predicate AtHead(p: Params, q: Picture) {
    StreamFit(p, q) && WorkFit(p, q, 0)
  }

  /******* The beginning *******/

  /** newLoopState, after an initial reconciliation that may have failed. */
  function Begun(p: Params, failure: Option<string>, env: Env, ops: seq<T.Op>, store: History): Picture {
    Picture(
      Memory(Some(env.now + p.periodic), None, None,
             if failure.Some? then Some(env.now + p.retryInitial) else None, None, None,
             if failure.Some? then NextBackoff(p.retryInitial, p.retryMax) else p.retryInitial, p.retryInitial,
             false, if failure.Some? then failure.value else "", "", false, None),
      Notes([], env.now, env.now, env.now), env, ops, [], store)
  }

  /** The world in which a loop begins: one reconciliation has ended, and no stream has been opened yet. */
  ghost predicate Begins(p: Params, failure: Option<string>, env: Env, ops: seq<T.Op>) {
    && GoodParams(p) && env.serving && Caused(env) && Sound(env.stream) && env.live == {} && env.granted == 0
    && Losses(ops) == 0
    && |env.attempts| == 1 && env.attempts[0].failure == failure && env.attempts[0].at <= env.now
    && (!Stopped(env) ==> Agreed(ops, env.attempts, if failure.Some? then failure.value else ""))
  }

  lemma BegunIsFit(p: Params, failure: Option<string>, env: Env, ops: seq<T.Op>, store: History)
    requires Begins(p, failure, env, ops)
    ensures var q := Begun(p, failure, env, ops, store);
            StreamBasic(p, q) && Listening(q) && Counted(q) && WorkFit(p, q, 0) && q.mem.streamFailure == LostFor(ops)
  {
    hide Sound, Latest, Delay, Ready, Failures;
    BackoffIsExact(p, 0);
    TrailingGrows(env.attempts, [], failure);
  }

  /******* What a handler of the stream may change *******/

  /** Time passed, and streams were opened, cancelled and read. */
  ghost predicate Elapsed(a: Env, b: Env) {
    && b == a.(now := b.now, parentDone := b.parentDone, ctxDone := b.ctxDone, serverDone := b.serverDone,
               serverError := b.serverError, stream := b.stream, streams := b.streams, granted := b.granted,
               openedAt := b.openedAt, live := b.live)
    && a.now <= b.now && a.streams <= b.streams
    && (a.parentDone ==> b.parentDone) && (a.ctxDone ==> b.ctxDone) && (a.serverDone ==> b.serverDone)
    && (Caused(a) ==> Caused(b))
  }

  ghost predicate StreamOnly(q: Picture, r: Picture) {
    && r.mem == q.mem.(reconnect := r.mem.reconnect, stability := r.mem.stability,
                       reconnectDelay := r.mem.reconnectDelay, streamFailure := r.mem.streamFailure,
                       connected := r.mem.connected, cancel := r.mem.cancel)
    && r.notes == q.notes.(openedAt := r.notes.openedAt)
    && r.store == q.store
    && q.reports <= r.reports
    && OnlyAbout(q.ops, r.ops, {T.DockerEvents})
    && Elapsed(q.env, r.env)
  }

  ghost predicate NoNewStream(q: Picture, r: Picture) {
    && r.env.streams == q.env.streams && r.env.granted == q.env.granted && r.env.openedAt == q.env.openedAt
    && r.notes.openedAt == q.notes.openedAt
  }

  lemma StreamOnlyItself(q: Picture)
    ensures StreamOnly(q, q) && NoNewStream(q, q)
  {
  }

  lemma StreamOnlyTwice(q: Picture, r: Picture, s: Picture)
    requires StreamOnly(q, r) && StreamOnly(r, s)
    ensures StreamOnly(q, s)
  {
  }

  /** The reconciling side does not notice what happens to the stream. */
  lemma StreamOnlyKeepsWork(p: Params, q: Picture, r: Picture, unseen: nat)
    requires WorkFit(p, q, unseen) && StreamOnly(q, r)
    ensures WorkFit(p, r, unseen)
  {
    hide BackedOff, Latest, Failures, Delay, OnlyAbout, Ready;
    OthersUnseen(q.ops, r.ops, {T.DockerEvents}, T.DockerSnapshot);
    OthersUnseen(q.ops, r.ops, {T.DockerEvents}, T.HostsApply);
    OthersUnseen(q.ops, r.ops, {T.DockerEvents}, T.Recovery);
  }

  /******* Time passes *******/

  lemma MovedElapses(q: Picture, e: Env)
    requires Moved(q.env, e)
    ensures Elapsed(q.env, e) && StreamOnly(q, q.(env := e)) && NoNewStream(q, q.(env := e))
  {
    hide Follows, Sound;
  }

  lemma StreamMoves(p: Params, q: Picture, e: Env)
    requires Moved(q.env, e)
    ensures StreamBasic(p, q) ==> StreamBasic(p, q.(env := e))
    ensures StreamFit(p, q) ==> StreamFit(p, q.(env := e))
  {
    hide AllFaithful, Founded, BackedOff, Sound, Delay, Latest;
    FollowsKeeps(q.env.stream, e.stream);
  }

  lemma WorkMoves(p: Params, q: Picture, e: Env, unseen: nat)
    requires WorkFit(p, q, unseen) && Moved(q.env, e)
    ensures WorkFit(p, q.(env := e), unseen)
  {
    hide WorkFit, StreamOnly, Moved;
    MovedElapses(q, e);
    StreamOnlyKeepsWork(p, q, q.(env := e), unseen);
  }

  lemma FollowsKeeps(s: Stream, r: Stream)
    requires Follows(s, r)
    ensures r.consumed == s.consumed && (s.cancelled ==> r.cancelled)
    ensures s.eventsClosed ==> r.eventsClosed
    ensures s.errorsClosed ==> r.errorsClosed
    ensures s.error.Some? ==> r.error == s.error
  {
  }

  /******* Steps of the stream side *******/

  /** cancelStream. */
  function Cancelled(q: Picture): Picture {
    if q.mem.cancel.None? then q
    else q.(mem := q.mem.(cancel := None), env := CancelledEnv(q.env, q.mem.cancel.value))
  }

  function CancelledEnv(e: Env, id: nat): Env {
    e.(live := e.live - {id}, stream := e.stream.(cancelled := true))
  }

  lemma CancelElapses(e: Env, id: nat)
    requires Sound(e.stream)
    ensures var b := CancelledEnv(e, id);
            && Elapsed(e, b) && Sound(b.stream) && b.live == e.live - {id}
            && b.streams == e.streams && b.granted == e.granted && b.openedAt == e.openedAt && b.now == e.now
            && b.serving == e.serving && Stopped(b) == Stopped(e) && Caused(b) == Caused(e)
            && b.stream.consumed == e.stream.consumed
  {
    hide Sound;
    CancelFollows(e.stream);
  }

  lemma ElapsedNot(e: Env)
    ensures Elapsed(e, e)
  {
  }

  /** The first half of disconnectStream: cancel the context and let go of the channels. */
  function Dropped(q: Picture, verdict: Option<string>): Picture {
    var r := Cancelled(q);
    r.(mem := r.mem.(connected := false, stability := None),
       reports := q.reports + if q.mem.connected then [Report(verdict, q.env.stream)] else [])
  }

  lemma DropChanges(q: Picture, verdict: Option<string>)
    ensures StreamOnly(q, Dropped(q, verdict)) && NoNewStream(q, Dropped(q, verdict))
    ensures Counted(q) ==> Counted(Dropped(q, verdict))
    ensures Stopped(Dropped(q, verdict).env) == Stopped(q.env) && !Dropped(q, verdict).mem.connected
  {
    hide OnlyAbout;
    StreamOnlyItself(q);
  }

  lemma DropKeeps(p: Params, q: Picture, verdict: Option<string>)
    requires StreamBasic(p, q)
    requires q.mem.connected ==> Faithful(verdict, q.env.stream)
    ensures StreamBasic(p, Dropped(q, verdict)) && Listening(Dropped(q, verdict))
    ensures q.mem.connected && verdict.Some? ==> Reports(Dropped(q, verdict).reports, verdict.value)
  {
    hide BackedOff, Sound, Faithful, Latest, Failures, AllFaithful, Reports, Elapsed, CancelledEnv, Caused;
    if q.mem.cancel.Some? {
      CancelElapses(q.env, q.mem.cancel.value);
    }
    MoreReports(q.reports, Report(verdict, q.env.stream));
  }

  lemma MoreReports(reports: seq<Report>, r: Report)
    ensures AllFaithful(reports) && Faithful(r.verdict, r.stream) ==> AllFaithful(reports + [r])
    ensures forall text :: Reports(reports, text) ==> Reports(reports + [r], text)
    ensures r.verdict.Some? ==> Reports(reports + [r], r.verdict.value)
    ensures reports + [] == reports
  {
    var more := reports + [r];
    assert more[|reports|] == r;
    assert forall i :: 0 <= i < |reports| ==> more[i] == reports[i];
  }

  /** The second half of disconnectStream, when no stop has been signalled. */
  function Lost(p: Params, q: Picture, message: string): Picture {
    q.(mem := q.mem.(streamFailure := message, reconnect := Some(q.env.now + q.mem.reconnectDelay),
                     reconnectDelay := NextBackoff(q.mem.reconnectDelay, p.retryMax)),
       ops := q.ops + [T.Op.Fail(T.DockerEvents, message, q.env.now)])
  }

  lemma LossKeeps(p: Params, q: Picture, message: string)
    requires StreamBasic(p, q) && Listening(q) && !q.mem.connected
    requires !Stopped(q.env) ==> Counted(q)
    requires message == STREAM_CLOSED || Reports(q.reports, message)
    ensures StreamFit(p, Lost(p, q, message))
    ensures StreamOnly(q, Lost(p, q, message)) && NoNewStream(q, Lost(p, q, message))
  {
    hide BackedOff, Sound, Faithful, Latest, Failures, AllFaithful, Reports;
    OneMore(q.ops, T.Op.Fail(T.DockerEvents, message, q.env.now), T.DockerEvents);
    FailedAgain(p, q.mem.reconnectDelay, q.mem.reconnect, Losses(q.ops), LostAt(q.ops), q.env.now);
  }

  /** One more failure: the timer is armed with the current delay, and the delay grows. */
  lemma FailedAgain(p: Params, delay: nat, timer: Option<nat>, failures: nat, failedAt: int, now: nat)
    requires GoodParams(p) && BackedOff(p, delay, timer, failures, failedAt)
    ensures BackedOff(p, NextBackoff(delay, p.retryMax), Some(now + delay), failures + 1, now)
  {
    hide Delay;
    BackoffIsExact(p, failures);
  }

  /** recoverStream, when no stop has been signalled. */
  function Proved(p: Params, q: Picture): Picture {
    q.(mem := q.mem.(reconnectDelay := p.retryInitial, stability := None, streamFailure := ""),
       ops := q.ops + [T.Op.Recover(T.DockerEvents)])
  }

  lemma ProofKeeps(p: Params, q: Picture)
    requires StreamFit(p, q) && q.mem.connected
    ensures StreamFit(p, Proved(p, q))
    ensures StreamOnly(q, Proved(p, q)) && NoNewStream(q, Proved(p, q))
  {
    hide Sound, Faithful, Latest, Failures, AllFaithful, Reports, Delay;
    OneMore(q.ops, T.Op.Recover(T.DockerEvents), T.DockerEvents);
    BackoffIsExact(p, 0);
  }

  /** Where the source has just opened a stream. */
  function Given(q: Picture, e: Env, channels: bool): Picture {
    q.(mem := q.mem.(cancel := Some(q.env.streams), connected := channels), env := e)
  }

  ghost predicate Grants(a: Env, b: Env, channels: bool) {
    && b == a.(stream := b.stream, streams := a.streams + 1, openedAt := a.now, live := a.live + {a.streams},
               granted := a.granted + if channels then 1 else 0)
    && Sound(b.stream) && !b.stream.consumed && !b.stream.cancelled
  }

  lemma GrantKeeps(p: Params, q: Picture, e: Env, channels: bool)
    requires StreamBasic(p, q) && q.mem.cancel.None? && q.mem.reconnect.None? && q.mem.stability.None?
    requires Grants(q.env, e, channels)
    ensures var r := Given(q, e, channels);
            StreamBasic(p, r) && StreamOnly(q, r) && (channels ==> Listening(r))
    ensures Sound(e.stream) && Stopped(e) == Stopped(q.env)
  {
    hide BackedOff, Sound, AllFaithful, Founded;
    StreamOnlyItself(q);
  }

  lemma CancelKeeps(p: Params, q: Picture)
    requires StreamBasic(p, q)
    ensures Cancelled(q).mem.cancel.None? && Cancelled(q).env.live == {}
    ensures !q.mem.connected ==> StreamBasic(p, Cancelled(q))
    ensures StreamOnly(q, Cancelled(q)) && NoNewStream(q, Cancelled(q))
  {
    hide BackedOff, Sound, AllFaithful, Founded, Elapsed, CancelledEnv, Caused;
    ElapsedNot(q.env);
    if q.mem.cancel.Some? {
      CancelElapses(q.env, q.mem.cancel.value);
    }
    StreamOnlyItself(q);
  }

  /** A stop signal was seen right after the stream was opened. */
  function Withdrawn(q: Picture): Picture {
    var r := Cancelled(q);
    r.(mem := r.mem.(connected := false))
  }

  lemma WithdrawKeeps(p: Params, q: Picture)
    requires StreamBasic(p, q) && q.mem.stability.None?
    ensures StreamBasic(p, Withdrawn(q)) && Listening(Withdrawn(q)) && StreamOnly(q, Withdrawn(q))
    ensures Stopped(Withdrawn(q).env) == Stopped(q.env) && Withdrawn(q).env.streams == q.env.streams
  {
    hide BackedOff, Sound, AllFaithful, Founded, Elapsed, CancelledEnv, Caused;
    ElapsedNot(q.env);
    if q.mem.cancel.Some? {
      CancelElapses(q.env, q.mem.cancel.value);
    }
    StreamOnlyItself(q);
  }

  /** The stability timer is armed. */
  function Trusted(p: Params, q: Picture): Picture {
    q.(mem := q.mem.(stability := Some(q.env.now + p.stability)), notes := q.notes.(openedAt := q.env.now))
  }

  lemma TrustKeeps(p: Params, q: Picture)
    requires StreamBasic(p, q) && q.env.openedAt <= q.env.now
    ensures StreamBasic(p, Trusted(p, q)) && StreamOnly(q, Trusted(p, q)) && Trusted(p, q).env == q.env
    ensures q.mem.connected && Listening(q) ==> Listening(Trusted(p, q))
  {
    hide BackedOff, Sound, AllFaithful, Founded;
    StreamOnlyItself(q);
  }

  /** What opening a stream means while running: one more stream, its context live, its timer exact. */
  ghost predicate Opens(p: Params, q: Picture, r: Picture) {
    && r.env.streams == q.env.streams + 1
    && r.env.granted == q.env.granted + (if r.mem.connected then 1 else 0)
    && r.mem.cancel == Some(q.env.streams)
    && r.notes.openedAt == r.env.now
    && r.mem.stability == Some(r.env.now + p.stability)
  }

  /** What losing a stream means while running: the message is remembered and reported now, and the timer exact. */
  ghost predicate Loses(q: Picture, r: Picture, message: string) {
    && r.mem.streamFailure == message
    && r.ops == q.ops + [T.Op.Fail(T.DockerEvents, message, r.env.now)]
    && r.mem.reconnect == Some(r.env.now + q.mem.reconnectDelay)
  }

  /** The error of a stream is what is remembered and reported; a stream closed without one is said to be closed. */
  ghost predicate Heeds(q: Picture, r: Picture, verdict: Option<string>) {
    && (verdict.Some? ==> Loses(q, r, verdict.value))
    && (verdict.None? ==> Loses(q, r, STREAM_CLOSED))
  }

  /** The verdict on a stream that was connected is reported as it stands. */
  ghost predicate Reported(q: Picture, r: Picture, verdict: Option<string>) {
    if !q.mem.connected then r.reports == q.reports
    else |r.reports| == |q.reports| + 1 && r.reports[|q.reports|].verdict == verdict
  }

  /******* Steps of the reconciling side *******/

  lemma ReceiveKeeps(p: Params, q: Picture, e: Env)
    requires AtHead(p, q) && Sound(e.stream)
    requires e == q.env.(stream := Emptied(q.env.stream), received := q.env.received + [q.env.now])
    ensures StreamFit(p, q.(env := e)) && WorkFit(p, q.(env := e), 1)
  {
    hide BackedOff, Sound, Latest, Failures, Delay, Ready, AllFaithful, Founded;
    assert e.received[..|e.received| - 1] == q.env.received;
    assert q.env.received[..|q.env.received| - 0] == q.env.received;
  }

  /** A loop told to stop need not observe what it received. */
  lemma StoppedForgets(p: Params, q: Picture)
    requires WorkFit(p, q, 1) && Stopped(q.env)
    ensures WorkFit(p, q, 0)
  {
  }

  /** The rest of observeEvent: the event starts or extends a batch. */
  function Extended(p: Params, q: Picture): Picture {
    q.(mem := q.mem.(maximum := if q.mem.debounce.None? then Some(q.env.now + p.maxDebounce) else q.mem.maximum,
                     debounce := Some(q.env.now + p.debounce)),
       notes := q.notes.(batch := q.notes.batch + [q.env.now]))
  }

  lemma ExtendKeeps(p: Params, q: Picture)
    requires WorkFit(p, q, 1)
    ensures WorkFit(p, Extended(p, q), 0)
  {
    hide BackedOff, Agreed, Observed;
    var received := q.env.received;
    assert received[..|received| - 0] == received;
    if !Stopped(q.env) {
      ObservedOneMore(received[..|received| - 1], q.notes.batch, received[|received| - 1], q.env.now);
      assert received[..|received| - 1] + [received[|received| - 1]] == received;
    }
  }

  lemma ObservedOneMore(received: seq<nat>, batch: seq<nat>, at: nat, now: nat)
    requires Observed(received, batch, now) && at <= now
    requires batch != [] ==> batch[|batch| - 1] <= at
    ensures Observed(received + [at], batch + [now], now)
  {
    var more, longer := received + [at], batch + [now];
    var first := |received| - |batch|;
    forall k | 0 <= k < |longer| ensures more[first + k] <= longer[k] <= now {
    }
    forall k | 0 <= k < |longer| - 1 ensures longer[k] <= more[first + (k + 1)] {
      if k < |batch| - 1 {
        assert more[first + (k + 1)] == received[first + (k + 1)];
      }
    }
  }

  /** The timers that ask for a reconciliation. */
  datatype Request = Periodic | Debounce | Maximum | Retry

  function Timer(mem: Memory, c: Request): Option<nat> {
    match c
    case Periodic => mem.periodic
    case Debounce => mem.debounce
    case Maximum => mem.maximum
    case Retry => mem.retry
  }

  /** One of them has fired. */
  function Requested(q: Picture, c: Request): Picture {
    var mem := q.mem.(pending := true);
    if c.Retry? then q.(mem := mem.(retry := None))
    else
      q.(mem := mem.(debounce := None, maximum := None, periodic := if c.Periodic? then None else mem.periodic),
         notes := q.notes.(batch := []))
  }

  /** A timer that has fired was armed long enough ago. */
  lemma RequestKeeps(p: Params, q: Picture, c: Request)
    requires AtHead(p, q) && Due(Timer(q.mem, c), q.env.now)
    ensures AtHead(p, Requested(q, c))
  {
    hide StreamFit, Latest, Failures, Delay, Ready, Gap;
    SameStreamFits(p, q, Requested(q, c));
    if !Stopped(q.env) {
      RipeWhenDue(p, q, c);
    }
  }

  lemma RipeWhenDue(p: Params, q: Picture, c: Request)
    requires WorkFit(p, q, 0) && !Stopped(q.env) && Due(Timer(q.mem, c), q.env.now)
    ensures q.env.attempts[|q.env.attempts| - 1].at + Gap(p) <= q.env.now
  {
    hide Observed, Agreed, Delay;
    if c.Retry? {
      DelayIsLong(p, Trailing(q.env.attempts) - 1);
    } else if c.Debounce? || c.Maximum? {
      assert q.notes.batch != [];
    }
  }

  lemma DelayIsLong(p: Params, k: nat)
    requires GoodParams(p)
    ensures Delay(p, k) >= p.retryInitial
  {
    assert Pow2(k) >= 1;
    assert p.retryInitial * Pow2(k) >= p.retryInitial;
  }

  /** The first part of reconcilePending: every timer that could ask for this reconciliation is stopped. */
  function Cleared(q: Picture): Picture {
    q.(mem := q.mem.(pending := false, periodic := None, debounce := None, maximum := None, retry := None),
       notes := q.notes.(batch := []))
  }

  /** Reconciling: the timers are stopped, and the latest reconciliation, if it has ended, is not recorded yet. */
  ghost predicate Busy(p: Params, q: Picture, before: seq<Attempt>, failure: Option<string>) {
    && StreamFit(p, q)
    && q.mem.pending == false && q.mem.debounce.None? && q.mem.maximum.None? && q.mem.retry.None?
    && q.notes.batch == []
    && q.notes.armedAt <= q.env.now && q.notes.failedAt <= q.env.now
    && (failure.Some? ==> failure.value != "")
    && (!Stopped(q.env) ==>
          && Ready(q.ops) && Latest(q.ops, T.Recovery).None? && Names(q.ops, failure)
          && q.mem.retryDelay == Delay(p, Trailing(before)))
  }

  /** ... and it has ended, at a moment not in the future. */
  ghost predicate Ended(q: Picture, before: seq<Attempt>, failure: Option<string>) {
    && |q.env.attempts| == |before| + 1
    && q.env.attempts[..|before|] == before
    && q.env.attempts[|before|].failure == failure
    && q.env.attempts[|before|].at <= q.env.now
  }

  lemma ClearKeeps(p: Params, q: Picture)
    requires AtHead(p, q)
    ensures Busy(p, Cleared(q), q.env.attempts,
                 if q.mem.reconcileFailure == "" then None else Some(q.mem.reconcileFailure))
  {
    hide Sound, Latest, Failures, AllFaithful, Reports, Delay, Ready;
  }

  /** The reconciliation itself. */
  lemma AttemptKeeps(p: Params, q: Picture, r: Picture, last: Option<string>, failure: Option<string>)
    requires Busy(p, q, q.env.attempts, last) && r == q.(env := r.env, ops := r.ops, store := r.store)
    requires Attempted(q.env, r.env, failure) && OnlyAbout(q.ops, r.ops, WORK)
    requires failure.Some? ==> failure.value != ""
    requires !Stopped(r.env) ==> Names(r.ops, failure)
    ensures Busy(p, r, q.env.attempts, failure) && Ended(r, q.env.attempts, failure)
  {
    hide StreamFit, Latest, Failures, Delay, Ready, Moved, OnlyAbout, Names, Caused;
    AttemptedStops(q.env, r.env, failure);
    OthersUnseen(q.ops, r.ops, WORK, T.Recovery);
    AttemptKeepsStream(p, q, r, failure);
  }

  lemma AttemptKeepsStream(p: Params, q: Picture, r: Picture, failure: Option<string>)
    requires StreamFit(p, q) && r == q.(env := r.env, ops := r.ops, store := r.store)
    requires Attempted(q.env, r.env, failure) && OnlyAbout(q.ops, r.ops, WORK)
    ensures StreamFit(p, r)
  {
    hide StreamBasic, Latest, Failures, Moved, OnlyAbout;
    var e := r.env.(attempts := q.env.attempts, listing := q.env.listing);
    StreamMoves(p, q, e);
    OthersUnseen(q.ops, r.ops, WORK, T.DockerEvents);
    SameStreamFits(p, q.(env := e), r);
  }

  /** The stream side looks at the stream side only. */
  lemma SameStreamFits(p: Params, q: Picture, r: Picture)
    requires StreamFit(p, q)
    requires r.mem == q.mem.(periodic := r.mem.periodic, debounce := r.mem.debounce, maximum := r.mem.maximum,
                             retry := r.mem.retry, retryDelay := r.mem.retryDelay, pending := r.mem.pending,
                             reconcileFailure := r.mem.reconcileFailure)
    requires r.notes.openedAt == q.notes.openedAt && r.reports == q.reports
    requires r.env == q.env.(attempts := r.env.attempts, received := r.env.received, listing := r.env.listing)
    requires Losses(r.ops) == Losses(q.ops) && LostAt(r.ops) == LostAt(q.ops) && LostFor(r.ops) == LostFor(q.ops)
    ensures StreamFit(p, r)
  {
    hide Sound, Latest, Failures, AllFaithful, Reports, Delay;
  }

  lemma BusyMoves(p: Params, q: Picture, e: Env, before: seq<Attempt>, failure: Option<string>)
    requires Busy(p, q, before, failure) && Moved(q.env, e)
    ensures Busy(p, q.(env := e), before, failure)
    ensures Ended(q, before, failure) ==> Ended(q.(env := e), before, failure)
  {
    hide StreamFit, Latest, Failures, Delay, Ready, Follows, Sound;
    StreamMoves(p, q, e);
  }

  /** The periodic timer is armed again. */
  function Rearmed(p: Params, q: Picture): Picture {
    q.(mem := q.mem.(periodic := Some(q.env.now + p.periodic)), notes := q.notes.(armedAt := q.env.now))
  }

  lemma RearmKeeps(p: Params, q: Picture, before: seq<Attempt>, failure: Option<string>)
    requires Busy(p, q, before, failure) && Ended(q, before, failure)
    ensures Busy(p, Rearmed(p, q), before, failure) && Ended(Rearmed(p, q), before, failure)
  {
    hide StreamFit, Latest, Failures, Delay, Ready;
    SameStreamFits(p, q, Rearmed(p, q));
  }

  /** The rest of reconcilePending: the result is recorded. */
  function Recorded(p: Params, q: Picture, failure: Option<string>): Picture {
    if failure.None? then q.(mem := q.mem.(retryDelay := p.retryInitial, reconcileFailure := ""))
    else
      q.(mem := q.mem.(reconcileFailure := failure.value, retry := Some(q.env.now + q.mem.retryDelay),
                       retryDelay := NextBackoff(q.mem.retryDelay, p.retryMax)),
         notes := q.notes.(failedAt := q.env.now))
  }

  /** The periodic timer, as far as it is known while reconciling. */
  ghost predicate PeriodicFit(p: Params, q: Picture, before: seq<Attempt>) {
    && (q.mem.periodic.Some? ==> q.mem.periodic.value == q.notes.armedAt + p.periodic)
    && (!Stopped(q.env) ==>
          q.mem.periodic.Some? && |q.env.attempts| > |before| && q.env.attempts[|before|].at <= q.notes.armedAt)
  }

  lemma ResultKeeps(p: Params, q: Picture, before: seq<Attempt>, failure: Option<string>)
    requires GoodParams(p) && Busy(p, q, before, failure) && Ended(q, before, failure) && PeriodicFit(p, q, before)
    ensures AtHead(p, Recorded(p, q, failure))
  {
    hide StreamFit, Latest, Failures, Delay, Ready;
    var r := Recorded(p, q, failure);
    SameStreamFits(p, q, r);
    BackoffIsExact(p, Trailing(before));
    TrailingGrows(q.env.attempts, before, failure);
  }

  lemma TrailingGrows(attempts: seq<Attempt>, before: seq<Attempt>, failure: Option<string>)
    requires |attempts| == |before| + 1 && attempts[..|before|] == before && attempts[|before|].failure == failure
    ensures Trailing(attempts) == if failure.None? then 0 else Trailing(before) + 1
  {
  }

  /** A reconciliation interrupted by a stop signal leaves a picture fit for the head of the loop. */
  lemma InterruptedIsFit(p: Params, q: Picture, before: seq<Attempt>, failure: Option<string>)
    requires GoodParams(p) && Busy(p, q, before, failure) && Stopped(q.env)
    requires q.mem.periodic.Some? ==> q.mem.periodic.value == q.notes.armedAt + p.periodic
    ensures AtHead(p, q)
  {
    hide StreamFit, Latest, Failures, Delay, Ready;
  }

  /******* From one head to the next *******/

  /** Logs only grow, and signals stay up. */
  ghost predicate Onward(a: Env, b: Env) {
    && a.now <= b.now && a.streams <= b.streams
    && a.received <= b.received && a.attempts <= b.attempts
    && b.acts == a.acts && b.serving == a.serving
    && (a.parentDone ==> b.parentDone) && (a.ctxDone ==> b.ctxDone) && (a.serverDone ==> b.serverDone)
  }

  /** A pending request is reconciled exactly once; otherwise the hosts file is left alone. */
  ghost predicate Works(q: Picture, r: Picture) {
    if q.mem.pending then
      && |r.env.attempts| == |q.env.attempts| + 1 && q.env.now <= r.env.attempts[|q.env.attempts|].at
      && !r.mem.pending && r.notes.batch == []
    else r.env.attempts == q.env.attempts && r.store == q.store
  }

  /** An event is observed at once and proves the stream; a batch is given up only for a reconciliation. */
  ghost predicate Batches(q: Picture, r: Picture) {
    if r.env.received != q.env.received then
      && |r.env.received| == |q.env.received| + 1
      && q.env.now <= r.env.received[|q.env.received|]
      && r.notes.batch == q.notes.batch + [r.env.now]
      && Losses(r.ops) == 0 && r.mem.stability.None?
    else
      r.notes.batch == q.notes.batch || (r.notes.batch == [] && (q.mem.pending || r.mem.pending))
  }

  /** Timers are armed by the reconciliation of this step, or not at all. */
  ghost predicate Arms(q: Picture, r: Picture) {
    if q.mem.pending then
      && q.env.now <= r.notes.armedAt
      && (r.mem.reconcileFailure != "" ==> r.notes.failedAt == r.env.now)
    else r.notes.armedAt == q.notes.armedAt && r.notes.failedAt == q.notes.failedAt
  }

  /** The stability timer is armed by the stream opened in this step, or not at all. */
  ghost predicate Connects(q: Picture, r: Picture) {
    if r.env.streams == q.env.streams then r.notes.openedAt == q.notes.openedAt
    else
      r.env.streams == q.env.streams + 1 && (r.mem.connected ==> r.notes.openedAt == r.env.now && r.mem.stability.Some?)
  }

  /** A reconciliation is asked for by a timer that is due, and by nothing else; that timer is stopped, and with any
      but the retry timer the batch is given up. */
  ghost predicate Asks(q: Picture, r: Picture) {
    !q.mem.pending && r.mem.pending ==>
      exists c ::
        && Due(Timer(q.mem, c), r.env.now) && r == Requested(q.(env := r.env), c)
        && Timer(r.mem, c).None? && (c.Retry? || r.notes.batch == [])
  }

  /** The error a stream ended with in this step is the one the loop remembers and the health endpoint shows. */
  ghost predicate Remembers(q: Picture, r: Picture) {
    |r.reports| > |q.reports| ==>
      var verdict := r.reports[|q.reports|].verdict;
      && (verdict.Some? ==> r.mem.streamFailure == verdict.value && LostFor(r.ops) == verdict.value)
      && (verdict.None? ==> r.mem.streamFailure == STREAM_CLOSED && LostFor(r.ops) == STREAM_CLOSED)
  }

  /** The tracker was told that the stream has recovered. */
  ghost predicate Recovers(ops: seq<T.Op>, more: seq<T.Op>) {
    exists i :: |ops| <= i < |more| && more[i] == T.Op.Recover(T.DockerEvents)
  }

  /** A stream is opened only when the reconnect timer is due, and taken for proved without an event only when the
      stability timer is. */
  ghost predicate Awaits(q: Picture, r: Picture) {
    && (r.env.streams > q.env.streams ==> Due(q.mem.reconnect, r.env.now))
    && (Recovers(q.ops, r.ops) && r.env.received == q.env.received ==>
          Due(q.mem.stability, r.env.now) && (!Stopped(r.env) ==> r.mem.stability.None?))
  }

  /** Everything claimed of two heads in a row. */
  ghost predicate GoodStep(q: Picture, r: Picture) {
    && Onward(q.env, r.env) && r.env.cut == q.env.cut && Works(q, r) && Asks(q, r) && Awaits(q, r)
    && q.reports <= r.reports && |r.reports| <= |q.reports| + 1 && q.ops <= r.ops
    && (!Stopped(r.env) ==> Batches(q, r) && Arms(q, r) && Connects(q, r) && Remembers(q, r))
  }

  lemma HeedsRemembers(q: Picture, r: Picture, verdict: Option<string>)
    requires Reported(q, r, verdict) && Heeds(q, r, verdict)
    ensures Remembers(q, r)
  {
    hide Latest;
    OneMore(q.ops, T.Op.Fail(T.DockerEvents, r.mem.streamFailure, r.env.now), T.DockerEvents);
  }

  /** A handler of the stream. */
  lemma StreamStep(q: Picture, r: Picture)
    requires StreamOnly(q, r) && !q.mem.pending && |r.reports| <= |q.reports| + 1
    requires Awaits(q, r) && (!Stopped(r.env) ==> Connects(q, r) && Remembers(q, r))
    ensures GoodStep(q, r)
  {
  }

  /** Waiting before a step. */
  lemma WaitThenStep(q: Picture, e: Env, r: Picture)
    requires Moved(q.env, e) && GoodStep(q.(env := e), r)
    ensures GoodStep(q, r)
  {
    hide Follows, Sound;
  }

  /** Handling an event changes the stream side and the batch. */
  ghost predicate EventOnly(q: Picture, r: Picture) {
    && NoNewStream(q, r)
    && StreamOnly(q, r.(mem := r.mem.(debounce := q.mem.debounce, maximum := q.mem.maximum),
                        notes := r.notes.(batch := q.notes.batch)))
  }

  /** What an event means while running: it proves the stream, it joins the batch now, and the batch keeps its hard
      deadline. */
  ghost predicate Notices(p: Params, q: Picture, r: Picture) {
    && r.ops == q.ops + [T.Op.Recover(T.DockerEvents)] && r.mem.stability.None?
    && r.notes.batch == q.notes.batch + [r.env.now]
    && r.mem.debounce == Some(r.env.now + p.debounce)
    && r.mem.maximum == if q.mem.maximum.Some? then q.mem.maximum else Some(r.env.now + p.maxDebounce)
  }

  /** The event that was received joins the batch. */
  lemma NoticeKeeps(p: Params, q: Picture, m: Picture)
    requires WorkFit(p, q, 1) && StreamOnly(q, m) && NoNewStream(q, m) && StreamFit(p, m)
    requires !Stopped(m.env) ==> m.ops == q.ops + [T.Op.Recover(T.DockerEvents)] && m.mem.stability.None?
    ensures var r := Extended(p, m); AtHead(p, r) && EventOnly(q, r) && (!Stopped(r.env) ==> Notices(p, q, r))
  {
    hide StreamFit, Observed, Agreed, BackedOff, OnlyAbout;
    StreamOnlyKeepsWork(p, q, m, 1);
    ExtendKeeps(p, m);
    SameStreamFits(p, m, Extended(p, m));
  }

  lemma EventStep(p: Params, q: Picture, e: Env, r: Picture)
    requires !q.mem.pending
    requires e == q.env.(stream := e.stream, received := q.env.received + [q.env.now])
    requires EventOnly(q.(env := e), r) && r.reports == q.reports
    requires !Stopped(r.env) ==> Notices(p, q.(env := e), r)
    ensures GoodStep(q, r) && (!Stopped(r.env) ==> Losses(r.ops) == 0)
  {
    OneMore(q.ops, T.Op.Recover(T.DockerEvents), T.DockerEvents);
  }

  /** A reconciliation has ended in this step, and nothing else has happened. */
  ghost predicate Rounds(q: Picture, r: Picture) {
    && Onward(q.env, r.env) && r.env.cut == q.env.cut && |r.env.attempts| == |q.env.attempts| + 1 && !r.mem.pending
    && q.env.now <= r.env.attempts[|q.env.attempts|].at
    && r.reports == q.reports && q.ops <= r.ops && !Recovers(q.ops, r.ops)
    && r.env.received == q.env.received && r.env.streams == q.env.streams
    && r.notes.openedAt == q.notes.openedAt && r.notes.batch == []
  }

  lemma AttemptRounds(q: Picture, r: Picture, failure: Option<string>)
    requires r == Cleared(q).(env := r.env, ops := r.ops, store := r.store)
    requires Attempted(q.env, r.env, failure) && OnlyAbout(q.ops, r.ops, WORK)
    ensures Rounds(q, r)
  {
    hide Follows, Sound;
  }

  lemma RoundsOn(q: Picture, r: Picture, e: Env)
    requires Rounds(q, r) && Moved(r.env, e)
    ensures Rounds(q, r.(env := e))
  {
    hide Follows, Sound;
  }

  lemma RoundIsStep(q: Picture, r: Picture)
    requires Rounds(q, r) && q.mem.pending
    requires !Stopped(r.env) ==>
               q.env.now <= r.notes.armedAt && (r.mem.reconcileFailure != "" ==> r.notes.failedAt == r.env.now)
    ensures GoodStep(q, r)
  {
  }

  lemma RequestStep(q: Picture, c: Request)
    requires !q.mem.pending && Due(Timer(q.mem, c), q.env.now)
    ensures GoodStep(q, Requested(q, c))
  {
    assert Requested(q, c) == Requested(q.(env := Requested(q, c).env), c);
  }

  /** The health endpoint shows a failed stream, and the loop remembers no text for it. */
  ghost predicate Blank(q: Picture) {
    Losses(q.ops) > 0 && LostFor(q.ops) == ""
  }

  /** The answer of a health endpoint that shows these operations. */
  ghost predicate Healthy(ops: seq<T.Op>) {
    Ready(ops) && forall c: T.Concern :: Latest(ops, c).None?
  }

  /** Health agrees with the loop's memory, but for a stream that failed without a text. */
  lemma HealthAgrees(p: Params, q: Picture)
    requires AtHead(p, q) && !Stopped(q.env)
    ensures Healthy(q.ops) <==> q.mem.reconcileFailure == "" && q.mem.streamFailure == "" && !Blank(q)
    ensures Blank(q) ==> Reports(q.reports, "")
  {
    hide BackedOff, Sound, Delay, AllFaithful, Reports, OneStream, Batched, Observed;
    assert Latest(q.ops, T.DockerEvents).Some? <==> Losses(q.ops) > 0;
    if Latest(q.ops, T.DockerEvents).None? && q.mem.reconcileFailure == "" {
      forall c: T.Concern ensures Latest(q.ops, c).None? {
        match c
        case DockerSnapshot =>
        case DockerEvents =>
        case HostsApply =>
        case Recovery =>
      }
    }
  }
}
