/** Heads of the loop: what is claimed of each, of two in a row, and of a whole run. */
module Heads {
  import opened Basics
  import opened Mapper
  import opened Backoff
  import opened World
  import opened Store
  import opened Reconciler
  import opened TrackerLaws
  import opened LoopModel
  import T = Tracker

  /** A head of the loop: everything at that moment, and what the health endpoint answers. */
  datatype Head = Head(picture: Picture, healthy: bool)

  /** Everything claimed of every head. */
  ghost predicate GoodHead(p: Params, c: Config, outsider: bool, h: Head) {
    && AtHead(p, h.picture)
    && (!Stopped(h.picture.env) ==>
          (h.healthy <==>
             h.picture.mem.reconcileFailure == "" && h.picture.mem.streamFailure == "" && !Blank(h.picture)))
    && UpToDate(c, outsider, h.picture.env.attempts, h.picture.store.slots)
  }

  /** A reconciliation that failed had a reason, and Docker is blamed exactly when it gave no snapshot. */
  ghost predicate Justified(c: Config, outsider: bool, q: Picture, r: Picture) {
    q.mem.pending && !Stopped(r.env) && r.env.attempts != [] ==>
      var listing := r.env.attempts[|r.env.attempts| - 1].listing;
      && (r.mem.reconcileFailure != "" ==> Excused(c, outsider, q.store, r.store, listing))
      && (Latest(r.ops, T.DockerSnapshot).Some? <==> !Usable(c, listing))
  }

  /** Everything claimed of two heads in a row; the first one is not told to stop. */
  ghost predicate HeadStep(c: Config, outsider: bool, q: Picture, r: Picture) {
    && !Stopped(q.env)
    && GoodStep(q, r)
    && Justified(c, outsider, q, r)
    && Respects(c, outsider, q.store, r.store)
  }

  ghost predicate GoodHeads(p: Params, c: Config, outsider: bool, heads: seq<Head>) {
    && (forall i :: 0 <= i < |heads| ==> GoodHead(p, c, outsider, heads[i]))
    && (forall i :: 0 <= i < |heads| - 1 ==> HeadStep(c, outsider, heads[i].picture, heads[i + 1].picture))
  }

  lemma OneHead(p: Params, c: Config, outsider: bool, h: Head)
    requires GoodHead(p, c, outsider, h)
    ensures GoodHeads(p, c, outsider, [h])
  {
    hide GoodHead;
  }

  lemma MoreHeads(p: Params, c: Config, outsider: bool, heads: seq<Head>, h: Head)
    requires GoodHeads(p, c, outsider, heads) && GoodHead(p, c, outsider, h)
    requires heads != [] ==> HeadStep(c, outsider, heads[|heads| - 1].picture, h.picture)
    ensures GoodHeads(p, c, outsider, heads + [h])
  {
    hide GoodHead, HeadStep;
  }

  lemma GoodAt(p: Params, c: Config, outsider: bool, heads: seq<Head>, i: nat)
    requires GoodHeads(p, c, outsider, heads) && i < |heads|
    ensures GoodHead(p, c, outsider, heads[i])
    ensures i + 1 < |heads| ==> HeadStep(c, outsider, heads[i].picture, heads[i + 1].picture)
  {
    hide GoodHead, HeadStep;
  }

  /** Where a run of the loop begins: the first head, seen from the moment the loop was entered. */
  ghost predicate FirstHead(e: Env, q: Picture) {
    && Onward(e, q.env) && q.env.cut == e.cut
    && q.env.attempts == e.attempts && q.env.received == e.received && q.env.streams <= e.streams + 1
    && q.notes.batch == [] && q.notes.armedAt == e.now && q.notes.failedAt == e.now
  }

  /** Where it ends: after its last head nothing was reconciled, received or opened. */
  ghost predicate LastHead(q: Picture, e: Env) {
    && Onward(q.env, e)
    && e.attempts == q.env.attempts && e.received == q.env.received && e.streams == q.env.streams
  }

  /** A run of the loop between two moments: all its heads are good, each follows from the one before, the first from
      the moment the loop was entered, and after the last nothing was reconciled, received or opened. */
  ghost predicate LoopRan(p: Params, c: Config, outsider: bool, e0: Env, e1: Env, heads: seq<Head>) {
    && heads != []
    && GoodHeads(p, c, outsider, heads)
    && FirstHead(e0, heads[0].picture)
    && LastHead(heads[|heads| - 1].picture, e1)
  }

  /******* Choices *******/

  /** A case of the loop's select. */
  datatype Case = Events | EventErrors | Fired(timer: Request) | Reconnect | Stability

  /** The mapper has said its last word on the stream. */
  ghost predicate Over(s: Stream) {
    s.errorsClosed || s.error.Some?
  }

  /** The case can be taken. */
  ghost predicate CanTake(q: Picture, c: Case) {
    match c
    case Events => q.mem.connected && (q.env.stream.event || q.env.stream.eventsClosed)
    case EventErrors => q.mem.connected && Over(q.env.stream)
    case Fired(timer) => Due(Timer(q.mem, timer), q.env.now)
    case Reconnect => Due(q.mem.reconnect, q.env.now)
    case Stability => Due(q.mem.stability, q.env.now)
  }

  /** What a case brings about; one that cannot be taken brings about nothing. */
  ghost predicate Acted(q: Picture, r: Picture, c: Case) {
    if !CanTake(q, c) then r == q
    else
      match c
      case Events => if q.env.stream.event then |r.env.received| == |q.env.received| + 1 else !r.mem.connected
      case EventErrors => !r.mem.connected && |r.reports| == |q.reports| + 1
      case Fired(timer) => r == Requested(q, timer)
      case Reconnect => !Stopped(r.env) ==> r.env.streams == q.env.streams + 1
      case Stability =>
        !Stopped(r.env) && r.mem.connected ==>
          && !Over(q.env.stream) && Losses(r.ops) == 0
          && (q.env.stream.event ==> |r.env.received| == |q.env.received| + 1)
  }

  /** Which case the select takes if it is ready. */
  datatype Choice = ContextDone | ServerDone | Take(which: Case)

  /** What the select does with a choice that does not end the loop. */
  ghost predicate Took(q: Picture, r: Picture, choice: Choice) {
    match choice
    case ContextDone => !q.env.ctxDone && r == q
    case ServerDone => !q.env.serverDone && r == q
    case Take(c) => Acted(q, r, c)
  }

  /** Between two heads, unless a request was pending: some time passed, and then the choice was taken. */
  ghost predicate Chosen(q: Picture, r: Picture, choice: Choice) {
    q.mem.pending || exists e :: Moved(q.env, e) && Took(q.(env := e), r, choice)
  }

  /** The run takes the choices one by one. */
  ghost predicate AllChosen(heads: seq<Head>, choices: seq<Choice>) {
    && |heads| <= |choices| + 1
    && forall i :: 0 <= i < |heads| - 1 ==> Chosen(heads[i].picture, heads[i + 1].picture, choices[i])
  }

  lemma NoneChosen(heads: seq<Head>, choices: seq<Choice>)
    requires |heads| == 1
    ensures AllChosen(heads, choices)
  {
  }

  /** One more head: the picture of this moment, with the answer of the health endpoint. */
  ghost predicate Pictured(before: seq<Head>, after: seq<Head>, q: Picture, healthy: bool) {
    after == before + [Head(q, healthy)]
  }

  lemma NextHead(p: Params, c: Config, outsider: bool, heads: seq<Head>, more: seq<Head>, q: Picture, healthy: bool,
                 choices: seq<Choice>)
    requires GoodHeads(p, c, outsider, heads) && heads != [] && Pictured(heads, more, q, healthy)
    requires AllChosen(heads, choices) && |heads| <= |choices|
    requires Chosen(heads[|heads| - 1].picture, q, choices[|heads| - 1])
    requires GoodHead(p, c, outsider, more[|heads|]) && HeadStep(c, outsider, heads[|heads| - 1].picture, q)
    ensures GoodHeads(p, c, outsider, more) && |more| == |heads| + 1 && more[0] == heads[0]
    ensures AllChosen(more, choices)
    ensures more[|heads|].picture == q
  {
    hide GoodHead, HeadStep, Chosen;
    MoreHeads(p, c, outsider, heads, more[|heads|]);
  }

  /******* Health *******/

  /** The endpoint says healthy exactly when the loop remembers no failure. */
  ghost predicate PlainlyAgree(heads: seq<Head>) {
    forall i :: 0 <= i < |heads| && !Stopped(heads[i].picture.env) ==>
      (heads[i].healthy <==>
         heads[i].picture.mem.reconcileFailure == "" && heads[i].picture.mem.streamFailure == "")
  }

  /** While running, a healthy answer means that the hosts file is in step with the containers Docker listed last. */
  lemma HealthyMeansInStep(p: Params, c: Config, h: Head)
    requires GoodHead(p, c, false, h) && !Stopped(h.picture.env) && h.healthy
    ensures var attempts := h.picture.env.attempts;
            attempts != [] && Mirrors(c, h.picture.store.slots, attempts[|attempts| - 1].listing)
  {
    hide Mirrors, StreamFit, Batched, BackedOff, Observed, Latest, Ready;
  }

  lemma FaithfulAtHead(p: Params, q: Picture)
    requires AtHead(p, q)
    ensures AllFaithful(q.reports)
  {
    hide WorkFit, AllFaithful, Sound, BackedOff, Founded;
  }

  lemma {:induction false} ReportsGrow(p: Params, c: Config, outsider: bool, heads: seq<Head>, i: nat)
    requires GoodHeads(p, c, outsider, heads) && i < |heads|
    ensures heads[i].picture.reports <= heads[|heads| - 1].picture.reports
    decreases |heads| - i
  {
    hide GoodHead, Works, Batches, Arms, Connects, Onward, Asks, Awaits, Respects, Justified;
    if i < |heads| - 1 {
      assert HeadStep(c, outsider, heads[i].picture, heads[i + 1].picture);
      ReportsGrow(p, c, outsider, heads, i + 1);
    }
  }

  /** Unless some stream ended with an empty error text, health and memory agree at every head. */
  lemma RunAgrees(p: Params, c: Config, outsider: bool, heads: seq<Head>)
    requires GoodHeads(p, c, outsider, heads) && heads != []
    ensures Reports(heads[|heads| - 1].picture.reports, "") || PlainlyAgree(heads)
  {
    hide HeadStep, AtHead, UpToDate, Blank;
    if !PlainlyAgree(heads) {
      var i :| 0 <= i < |heads| && !Stopped(heads[i].picture.env) &&
               !(heads[i].healthy <==>
                   heads[i].picture.mem.reconcileFailure == "" && heads[i].picture.mem.streamFailure == "");
      assert GoodHead(p, c, outsider, heads[i]);
      HealthAgrees(p, heads[i].picture);
      ReportsGrow(p, c, outsider, heads, i);
      var k :| 0 <= k < |heads[i].picture.reports| && heads[i].picture.reports[k].verdict == Some("");
      assert heads[|heads| - 1].picture.reports[k].verdict == Some("");
    }
  }

  /** A run only adds to the logs. */
  lemma {:induction false} RunOnward(p: Params, c: Config, outsider: bool, e: Env, heads: seq<Head>, i: nat)
    requires GoodHeads(p, c, outsider, heads) && i < |heads| && FirstHead(e, heads[0].picture)
    ensures Onward(e, heads[i].picture.env) && heads[i].picture.env.cut == e.cut
  {
    hide GoodHead, Works, Batches, Arms, Connects, Asks, Awaits, Respects, Justified;
    if i > 0 {
      RunOnward(p, c, outsider, e, heads, i - 1);
      assert HeadStep(c, outsider, heads[i - 1].picture, heads[i - 1 + 1].picture);
    }
  }


  /******* Time *******/

  /** Over any number of steps that reconcile nothing, a batch keeps the hard deadline of its first event. */
  lemma {:induction false} DeadlineStays(p: Params, c: Config, outsider: bool, heads: seq<Head>, i: nat, j: nat)
    requires GoodHeads(p, c, outsider, heads) && i <= j < |heads| && !Stopped(heads[j].picture.env)
    requires forall k :: i <= k <= j ==> heads[k].picture.notes.batch != []
    ensures heads[i].picture.notes.batch <= heads[j].picture.notes.batch
    ensures heads[j].picture.mem.maximum == heads[i].picture.mem.maximum ==
            Some(heads[i].picture.notes.batch[0] + p.maxDebounce)
  {
    hide StreamFit, BackedOff, Observed, Agreed, Timely, UpToDate, Works, Arms, Connects, Asks, Awaits, Justified,
         Respects;
    GoodAt(p, c, outsider, heads, i);
    GoodAt(p, c, outsider, heads, j);
    if i < j {
      GoodAt(p, c, outsider, heads, j - 1);
      DeadlineStays(p, c, outsider, heads, i, j - 1);
    }
  }

  /** Why a reconciliation is asked for at this moment. */
  ghost predicate HasReason(p: Params, q: Picture, now: nat) {
    var batch, failures := q.notes.batch, Trailing(q.env.attempts);
    || (batch != [] && batch[|batch| - 1] + p.debounce <= now)
    || (batch != [] && batch[0] + p.maxDebounce <= now)
    || q.notes.armedAt + p.periodic <= now
    || (failures > 0 && q.notes.failedAt + Delay(p, failures - 1) <= now)
  }

  /** A request never comes early: one debounce delay has passed since the last event of the batch, or the maximum
      delay since its first, or one interval since the periodic timer was armed, or after k failures in a row the
      k-th delay since the last one. */
  lemma RequestHasReason(p: Params, c: Config, outsider: bool, heads: seq<Head>, i: nat)
    requires GoodHeads(p, c, outsider, heads) && i + 1 < |heads|
    requires !heads[i].picture.mem.pending && heads[i + 1].picture.mem.pending
    ensures HasReason(p, heads[i].picture, heads[i + 1].picture.env.now)
  {
    hide StreamFit, Observed, Agreed, Timely, UpToDate, Works, Arms, Connects, Awaits, Batches, Justified,
         Respects, Delay, Trailing;
    GoodAt(p, c, outsider, heads, i);
    var q, r := heads[i].picture, heads[i + 1].picture;
    var t :| Due(Timer(q.mem, t), r.env.now) && r == Requested(q.(env := r.env), t);
  }

  /** A stream is opened again only after the delay for the losses in a row. */
  lemma ReconnectWaits(p: Params, c: Config, outsider: bool, heads: seq<Head>, i: nat)
    requires GoodHeads(p, c, outsider, heads) && i + 1 < |heads|
    requires heads[i + 1].picture.env.streams > heads[i].picture.env.streams
    ensures var q, losses := heads[i].picture, Losses(heads[i].picture.ops);
            losses > 0 && LostAt(q.ops) + Delay(p, losses - 1) <= heads[i + 1].picture.env.now
  {
    hide WorkFit, UpToDate, Works, Arms, Connects, Asks, Batches, Justified, Respects, Delay, AllFaithful, Founded,
         Sound, Latest;
    GoodAt(p, c, outsider, heads, i);
  }

  /** A stream that gives no event is taken for proved only one stability delay after it was opened. */
  lemma ProofWaits(p: Params, c: Config, outsider: bool, heads: seq<Head>, i: nat)
    requires GoodHeads(p, c, outsider, heads) && i + 1 < |heads|
    requires Recovers(heads[i].picture.ops, heads[i + 1].picture.ops)
    requires heads[i + 1].picture.env.received == heads[i].picture.env.received
    ensures heads[i].picture.env.openedAt + p.stability <= heads[i + 1].picture.env.now
  {
    hide WorkFit, UpToDate, Works, Arms, Connects, Asks, Batches, Justified, Respects, Recovers, AllFaithful,
         Founded, Sound, Latest, BackedOff;
    GoodAt(p, c, outsider, heads, i);
  }

  /** Reconciliations from the n-th on are at least one gap apart. */
  ghost predicate Spaced(p: Params, attempts: seq<Attempt>, n: nat) {
    forall k :: n < k < |attempts| ==> attempts[k - 1].at + Gap(p) <= attempts[k].at
  }

  /** Over a whole run, two reconciliations in a row are at least the smallest of the periodic interval, the debounce
      delay and the initial retry delay apart, whatever the events, the failures and the choices. */
  lemma {:induction false} ReconciliationsAreSpaced(p: Params, c: Config, outsider: bool, heads: seq<Head>, i: nat)
    requires GoodHeads(p, c, outsider, heads) && i < |heads|
    requires |heads[0].picture.env.attempts| == 1
    ensures |heads[i].picture.env.attempts| >= 1 && Spaced(p, heads[i].picture.env.attempts, 0)
  {
    hide GoodHead, HeadStep, Gap;
    if i > 0 {
      ReconciliationsAreSpaced(p, c, outsider, heads, i - 1);
      GoodAt(p, c, outsider, heads, i - 1);
      OneMoreSpaced(p, c, outsider, heads[i - 1], heads[i].picture);
    }
  }

  lemma OneMoreSpaced(p: Params, c: Config, outsider: bool, h: Head, r: Picture)
    requires GoodHead(p, c, outsider, h) && HeadStep(c, outsider, h.picture, r)
    requires |h.picture.env.attempts| >= 1 && Spaced(p, h.picture.env.attempts, 0)
    ensures |r.env.attempts| >= 1 && Spaced(p, r.env.attempts, 0)
  {
    hide StreamFit, UpToDate, Arms, Connects, Asks, Batches, Awaits, Justified, Respects, Batched, Observed,
         Agreed, Timely, BackedOff, Armed, Gap;
    var q := h.picture;
    forall k | 0 < k < |r.env.attempts| ensures r.env.attempts[k - 1].at + Gap(p) <= r.env.attempts[k].at {
      assert r.env.attempts[k - 1] == q.env.attempts[k - 1];
      if k < |q.env.attempts| {
        assert r.env.attempts[k] == q.env.attempts[k];
      }
    }
  }

  /******* A stream that fails without a text *******/

  /** A connected loop with nothing to complain about loses its stream with an empty error text: it remembers no
      failure, and the health endpoint says unhealthy. */
  lemma BlankDisagrees(p: Params, q: Picture)
    requires AtHead(p, q) && !Stopped(q.env) && q.mem.connected && q.mem.reconcileFailure == ""
    requires Faithful(Some(""), q.env.stream)
    ensures var r := Lost(p, Dropped(q, Some("")), "");
            && AtHead(p, r) && !Stopped(r.env) && Blank(r)
            && r.mem.reconcileFailure == "" && r.mem.streamFailure == "" && !Healthy(r.ops)
  {
    hide Faithful, StreamFit, WorkFit, StreamBasic, Listening, StreamOnly, Counted, Healthy, Blank;
    FitIsSound(p, q);
    var m := Dropped(q, Some(""));
    var r := Lost(p, m, "");
    DropChanges(q, Some(""));
    DropKeeps(p, q, Some(""));
    LossKeeps(p, m, "");
    StreamOnlyTwice(q, m, r);
    StreamOnlyKeepsWork(p, q, r, 0);
    OneMore(m.ops, T.Op.Fail(T.DockerEvents, "", m.env.now), T.DockerEvents);
    IsBlank(r);
    HealthAgrees(p, r);
  }

  lemma IsBlank(r: Picture)
    requires Losses(r.ops) > 0 && LostFor(r.ops) == ""
    ensures Blank(r)
  {
  }

  /** Docker can end a stream like that. */
  lemma BlankStream()
    ensures var script := [Step(Failure(Some("")), false), Step(Nothing, false)];
            Ran(OPENED, script).error == Some("") && Faithful(Some(""), Ran(OPENED, script))
  {
    var script := [Step(Failure(Some("")), false), Step(Nothing, false)];
    assert script[..1] == [script[0]] && script[..1][..0] == [];
    assert Ran(OPENED, script[..1]) == Advanced(OPENED, script[0]);
  }
}
