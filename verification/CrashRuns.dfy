/** Crash convergence, end to end: an interrupted Apply, a crash, and a restart. */
module CrashRuns {
  import opened Basics
  import opened Markers
  import opened Render
  import opened RenderLaws
  import opened Disk
  import opened Replacement
  import opened Transaction
  import opened Store
  import opened StoreApply
  import opened StoreRuns

  /** The text Apply proposes for the endpoints. */
  ghost function Proposal(c: Config, start: Slots, endpoints: seq<Endpoint>): Text {
    if start.target.now.File? then Spliced(c, start.target.now.data, BodyFor(c, endpoints)) else ""
  }

  /** The states an Apply may be stopped in. */
  ghost predicate StopsIn(c: Config, start: Slots, endpoints: seq<Endpoint>, states: seq<Slots>) {
    && ValidFile(c, start.target.now)
    && forall k :: 0 <= k < |states| ==>
         Safe(states[k], start, start.target.now.data, Proposal(c, start, endpoints), start.target.now.attr)
  }

  /** Apply with any faults and any cancellation; its states are all it can be stopped in. */
  method InterruptedApply(c: Config, start: Slots, sameDirectory: bool, self: Attr, endpoints: seq<Endpoint>)
    returns (states: seq<Slots>)
    requires GoodConfig(c) && Renderable(c, endpoints) && ValidFile(c, start.target.now)
    ensures StopsIn(c, start, endpoints, states) && |states| > 0 && states[0] == start
  {
    hide GoodConfig, Valid, Safe, Spliced, BodyFor, AllValid, ValidPart, Tidy, RetainedFirst;
    var fs := new FileSystem(start, sameDirectory, false, self);
    var ctx := new Context(false);
    var _ := Apply(c, fs, ctx, endpoints);
    states := fs.trace;
    StartIsSafe([start], start, start.target.now.data, Proposal(c, start, endpoints), start.target.now.attr);
  }

  /** Prepare and Apply on the two files; `clean` says that nothing failed and nobody cancelled. */
  method PrepareAndApply(c: Config, start: Slots, sameDirectory: bool, self: Attr, endpoints: seq<Endpoint>)
    returns (view: View, clean: bool)
    requires GoodConfig(c) && Renderable(c, endpoints)
    ensures clean && Preparable(c, start) ==>
              view == AppliedView(c, PreparedView(c, ViewOf(start)), BodyFor(c, endpoints))
  {
    hide GoodConfig, Valid, Safe, Spliced, BodyFor, AllSafe, OnlyGuarded, AllWithin, Within, AllValid, ValidPart,
         ApplySafe, Tidy;
    var fs := new FileSystem(start, sameDirectory, false, self);
    var ctx := new Context(false);
    var prepared := Prepare(c, fs, ctx);
    ghost var middle := fs.slots;
    clean := fs.faults == 0 && !ctx.done;
    var out := Apply(c, fs, ctx, endpoints);
    clean := clean && fs.faults == 0 && !ctx.done;
    view := ViewOf(fs.slots);
    if clean && Preparable(c, start) {
      assert !prepared.NotPrepared?;
      assert out.Done?;
    }
  }

  /** Stop Apply in any of its states, crash, restart: the crash leaves exactly the old or the proposed target, and a
      clean Prepare and Apply give the bytes of a clean uninterrupted run. */
  method CrashAndRestart(c: Config, start: Slots, sameDirectory: bool, self: Attr, endpoints: seq<Endpoint>)
    returns (crashed: View, restarted: View, uninterrupted: View, clean: bool)
    requires GoodConfig(c) && Renderable(c, endpoints)
    requires ValidFile(c, start.target.now) && Settled(start.target) && Special !in start.backup.maybe
    ensures || Holds(crashed.target, start.target.now.data, start.target.now.attr)
            || Holds(crashed.target, Proposal(c, start, endpoints), start.target.now.attr)
    ensures SameOutside(c, start.target.now.data, Proposal(c, start, endpoints))
    ensures clean ==> Bytes(restarted.target) == Bytes(uninterrupted.target) == Some(Proposal(c, start, endpoints))
    ensures clean ==> Bytes(restarted.backup) == Bytes(uninterrupted.backup) == Some(Proposal(c, start, endpoints))
  {
    hide GoodConfig, Valid, Safe, Spliced, BodyFor, AllValid, ValidPart, CrashImage, AppliedView, PreparedView,
         SameOutside;
    var states := InterruptedApply(c, start, sameDirectory, self, endpoints);
    var k: int := *;
    var last := states[if 0 <= k < |states| then k else 0];
    var t, b := Crash(last);
    crashed := View(t, b);
    var clean2;
    restarted, clean := PrepareAndApply(c, Slots(Slot(t, {t}), Slot(b, {b})), sameDirectory, self, endpoints);
    uninterrupted, clean2 := PrepareAndApply(c, start, sameDirectory, self, endpoints);
    clean := clean && clean2;
    CrashLeaves(c, start, last, endpoints, t, b);
  }

  /** What the crash leaves, and where both runs end. */
  lemma CrashLeaves(c: Config, start: Slots, s: Slots, endpoints: seq<Endpoint>, t: Entry, b: Entry)
    requires GoodConfig(c) && Renderable(c, endpoints)
    requires ValidFile(c, start.target.now) && Settled(start.target) && Special !in start.backup.maybe
    requires Safe(s, start, start.target.now.data, Proposal(c, start, endpoints), start.target.now.attr)
    requires CrashImage(s.target, t) && CrashImage(s.backup, b)
    ensures || Holds(t, start.target.now.data, start.target.now.attr)
            || Holds(t, Proposal(c, start, endpoints), start.target.now.attr)
    ensures SameOutside(c, start.target.now.data, Proposal(c, start, endpoints))
    ensures ValidFile(c, t) && !b.Special? && !start.backup.now.Special?
    ensures var body, goal := BodyFor(c, endpoints), Proposal(c, start, endpoints);
            var restarted := AppliedView(c, PreparedView(c, View(t, b)), body);
            var uninterrupted := AppliedView(c, PreparedView(c, ViewOf(start)), body);
            Bytes(restarted.target) == Bytes(restarted.backup) == Some(goal)
            && Bytes(uninterrupted.target) == Bytes(uninterrupted.backup) == Some(goal)
  {
    hide Valid, Safe, Spliced, GoodBody, BodyFor, AllValid, ValidPart, CrashImage, AppliedView, PreparedView,
         SameOutside, GoodConfig;
    var current, body := start.target.now.data, BodyFor(c, endpoints);
    BodyIsGood(c, endpoints);
    SplicedKeeps(c, current, body);
    SplicedIsValid(c, current, Spliced(c, current, body));
    CrashedTarget(c, start, s, body, t);
    CrashedBackup(start, s, current, Spliced(c, current, body), start.target.now.attr, b);
    CrashConverges(c, start, s, body, t, b);
    Converges(c, start.target.now, start.backup.now, body);
  }
}
