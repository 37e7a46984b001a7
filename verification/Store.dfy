/** Prepare of hosts/store.go. */
module Store {
  import opened Markers
  import opened Render
  import opened RenderLaws
  import opened Disk
  import opened Replacement
  import opened Transaction

  /** The configuration: marker lines, networks, how addresses are written and how rows are sorted. */
  datatype Config = Config(begin: Text, end: Text, defaultNetwork: string, networks: seq<string>,
                           show: Addr -> string, arrange: seq<Row> -> seq<Row>)

  ghost predicate GoodConfig(c: Config) {
    GoodMarkers(c.begin, c.end) && GoodPrinter(c.show) && GoodSorter(c.arrange)
  }

  ghost predicate Valid(c: Config, data: Text) {
    HasSection(data, c.begin, c.end)
  }

  ghost predicate MarkerFree(c: Config, data: Text) {
    Unmarked(data, c.begin) && Unmarked(data, c.end)
  }

  ghost predicate ValidFile(c: Config, e: Entry) {
    e.File? && Valid(c, e.data)
  }

  /** Target and backup hold the same valid bytes. */
  ghost predicate MirroredPair(c: Config, s: Slots) {
    ValidFile(c, s.target.now) && HoldsData(s.backup.now, s.target.now.data)
  }

  /** What readers see of the two files. */
  datatype View = View(target: Entry, backup: Entry)

  function ViewOf(s: Slots): View {
    View(s.target.now, s.backup.now)
  }

  /******* Prepare *******/

  datatype Preparation = Prepared | RecoveredFromBackup | NotPrepared

  /** The target Prepare aims at, on two files. */
  ghost function PreparedTarget(c: Config, v: View): Entry {
    if !v.target.File? || Valid(c, v.target.data) then v.target
    else if MarkerFree(c, v.target.data) then
      File(AppendEmptySection(v.target.data, c.begin, c.end), v.target.attr, true)
    else if ValidFile(c, v.backup) then File(v.backup.data, v.target.attr, true)
    else v.target
  }

  /** The outcome of Prepare on two files, when nothing fails. */
  ghost function PreparedView(c: Config, v: View): View {
    var goal := PreparedTarget(c, v);
    if !v.target.File? then v
    else if Valid(c, v.target.data) then v.(backup := Mirrored(v.backup, v.target.data, v.target.attr))
    else if MarkerFree(c, v.target.data) then
      if v.backup.Special? then v else View(goal, Mirrored(v.backup, goal.data, v.target.attr))
    else v.(target := goal)
  }

  /******* What the target may show on the way *******/

  /** An entry with the bytes and metadata of another, whole on disk. */
  ghost predicate Copies(e: Entry, original: Entry) {
    original.File? && e == File(original.data, original.attr, true)
  }

  ghost predicate Resembles(e: Entry, original: Entry) {
    e == original || (original.File? && Holds(e, original.data, original.attr))
  }

  /** A target on its way from what was found to the goal: nothing else is shown, and nothing else can come back
      after a crash. */
  ghost predicate Within(found: Slot, goal: Entry, s: Slot) {
    && (Resembles(s.now, found.now) || Resembles(s.now, goal))
    && forall e :: e in s.maybe ==> e in found.maybe || Copies(e, found.now) || Copies(e, goal)
  }

  ghost predicate AllWithin(oldTrace: seq<Slots>, trace: seq<Slots>, found: Slot, goal: Entry) {
    oldTrace <= trace && forall k :: |oldTrace| <= k < |trace| ==> Within(found, goal, trace[k].target)
  }

  lemma WithinAppend(t0: seq<Slots>, t1: seq<Slots>, t2: seq<Slots>, found: Slot, goal: Entry)
    requires AllWithin(t0, t1, found, goal) && AllWithin(t1, t2, found, goal)
    ensures AllWithin(t0, t2, found, goal)
  {
    hide Within;
  }

  lemma WithinPhase(t0: seq<Slots>, t1: seq<Slots>, s: Slots, after: Slots, p: Path, e: Entry, found: Slot, goal: Entry)
    requires Grew(t0, t1, s, p, e) && Between(s, after, p, e) && Within(found, goal, s.target)
    requires p.Target? ==> Copies(e, found.now) || Copies(e, goal)
    ensures AllWithin(t0, t1, found, goal) && Within(found, goal, after.target)
    ensures p.Backup? ==> after.target.now == s.target.now
    ensures p.Target? ==> after.backup.now == s.backup.now
  {
    forall m | Between(s, m, p, e) ensures Within(found, goal, m.target) {
      assert m.At(Target) == m.target && s.At(Target) == s.target;
    }
    assert after.At(Target) == after.target && s.At(Target) == s.target;
    assert after.At(Backup) == after.backup && s.At(Backup) == s.backup;
  }

  lemma WithinItself(trace: seq<Slots>, found: Slot, goal: Entry)
    ensures AllWithin(trace, trace, found, goal) && Within(found, goal, found)
  {
  }

  /** The target slot is kept in all new states. */
  ghost predicate TargetKept(oldTrace: seq<Slots>, trace: seq<Slots>, target: Slot) {
    oldTrace <= trace && forall k :: |oldTrace| <= k < |trace| ==> Kept(target, trace[k].target)
  }

  lemma BackupPhaseKeepsTarget(t0: seq<Slots>, t1: seq<Slots>, s: Slots, after: Slots, e: Entry)
    requires Grew(t0, t1, s, Backup, e) && Between(s, after, Backup, e)
    ensures TargetKept(t0, t1, s.target) && Kept(s.target, after.target)
  {
    forall m | Between(s, m, Backup, e) ensures Kept(s.target, m.target) {
      assert m.At(Target) == m.target && s.At(Target) == s.target;
    }
  }

  /** The backup slot is kept in all new states. */
  ghost predicate BackupKept(oldTrace: seq<Slots>, trace: seq<Slots>, backup: Slot) {
    oldTrace <= trace && forall k :: |oldTrace| <= k < |trace| ==> Kept(backup, trace[k].backup)
  }

  lemma TargetPhaseKeepsBackup(t0: seq<Slots>, t1: seq<Slots>, s: Slots, after: Slots, e: Entry)
    requires Grew(t0, t1, s, Target, e) && Between(s, after, Target, e)
    ensures BackupKept(t0, t1, s.backup) && Kept(s.backup, after.backup)
  {
    forall m | Between(s, m, Target, e) ensures Kept(s.backup, m.backup) {
      assert m.At(Backup) == m.backup && s.At(Backup) == s.backup;
    }
  }

  /** Markers are there, but not as one ordered pair. */
  ghost predicate Damaged(c: Config, e: Entry) {
    e.File? && !Valid(c, e.data) && !MarkerFree(c, e.data)
  }

  /** A corrupt target, and no valid backup to recover it from. */
  ghost predicate Irrecoverable(c: Config, s: Slots) {
    Damaged(c, s.target.now) && !ValidFile(c, s.backup.now)
  }

  /** Prepare has a way to a valid mirrored pair. */
  ghost predicate Preparable(c: Config, s: Slots) {
    && s.target.now.File?
    && if Damaged(c, s.target.now) then ValidFile(c, s.backup.now) else !s.backup.now.Special?
  }

  method RequireValidMarkers(c: Config, data: Text) returns (ok: bool)
    ensures ok <==> Valid(c, data)
  {
    var scan := LocateMarkers(data, c.begin, c.end);
    ok := scan.ValidMarkers?;
  }

  /** What each outcome of initializeManagedSection says about the two files. */
  ghost predicate Initializes(out: Outcome, start: Slots, s: Slots, current: Text, proposed: Text, attr: Attr) {
    match out
    case Done =>
      Settled(s.target) && s.target.now == File(proposed, attr, true) && HoldsData(s.backup.now, proposed)
    case Refused =>
      s.target.now == start.target.now && (s.backup.now == start.backup.now || HoldsData(s.backup.now, proposed))
    case Restored =>
      Settled(s.target) && Holds(s.target.now, current, attr) && HoldsData(s.backup.now, proposed)
    case RestoreFailed =>
      (Holds(s.target.now, current, attr) || Holds(s.target.now, proposed, attr)) && HoldsData(s.backup.now, proposed)
    case MirrorStale => false
  }

  /** initializeManagedSection: seed the backup, then install the target, undoing a late failure. */
  method InitializeSection(fs: FileSystem, ctx: Context, current: Text, proposed: Text, meta: Meta)
    returns (out: Outcome)
    requires fs.Valid() && meta.setOwnership
    modifies fs, ctx
    ensures fs.Valid() && fs.faults >= old(fs.faults) && (old(ctx.done) ==> ctx.done)
    ensures OnlyGuarded(old(fs.commits), fs.commits)
    ensures OnlyExchanges(old(fs.commits), fs.commits, current, proposed, meta.attr)
    ensures Steady(fs.outsider, old(fs.slots), current, meta.attr) ==>
              AllWithin(old(fs.trace), fs.trace, old(fs.slots).target, File(proposed, meta.attr, true))
              && Within(old(fs.slots).target, File(proposed, meta.attr, true), fs.slots.target)
    ensures Steady(fs.outsider, old(fs.slots), current, meta.attr) ==>
              Initializes(out, old(fs.slots), fs.slots, current, proposed, meta.attr)
    ensures Steady(fs.outsider, old(fs.slots), current, meta.attr) ==>
              Accounts(out, fs.faults - old(fs.faults), ctx.done, old(fs.slots).backup.now.Special?)
    ensures Steady(fs.outsider, old(fs.slots), current, meta.attr) && out.Done? ==>
              fs.slots.backup.now == Mirrored(old(fs.slots).backup.now, proposed, meta.attr)
    ensures Steady(fs.outsider, old(fs.slots), current, meta.attr) && old(fs.slots).backup.now.Special? ==>
              out.Refused? && ViewOf(fs.slots) == ViewOf(old(fs.slots))
    ensures Steady(fs.outsider, old(fs.slots), current, meta.attr) ==> OwnMetadata(old(fs.slots), fs.slots)
  {
    hide OnlyGuarded, OnlyExchanges, OnlyBackups, Grew, Between, AllWithin, Within, Tidy, CommittedOnce;
    ghost var s0, trace0, commits0, faults0 := fs.slots, fs.trace, fs.commits, fs.faults;
    ghost var steady := Steady(fs.outsider, s0, current, meta.attr);
    ghost var goal := File(proposed, meta.attr, true);
    WithinItself(trace0, s0.target, goal);
    var seeded := EnsureBackupMatches(fs, ctx, proposed, meta);
    ghost var s1, trace1, commits1 := fs.slots, fs.trace, fs.commits;
    if steady {
      WithinPhase(trace0, trace1, s0, s1, Backup, Mirrored(s0.backup.now, proposed, meta.attr), s0.target, goal);
      BackupPhaseLeaves(s0, s1, Mirrored(s0.backup.now, proposed, meta.attr));
    }
    BackupsExchangeNothing(commits0, commits1, current, proposed, meta.attr);
    if !seeded {
      return Refused;
    }
    out := InstallInitial(fs, ctx, current, proposed, meta);
    GuardedAppend(commits0, commits1, fs.commits);
    ExchangesAppend(commits0, commits1, fs.commits, current, proposed, meta.attr);
    if steady {
      InstalledWithin(trace0, trace1, fs.trace, s0, s1, fs.slots, goal);
    }
  }

  /** The states of the second half, seen from the beginning of the first. */
  lemma InstalledWithin(t0: seq<Slots>, t1: seq<Slots>, t2: seq<Slots>, s0: Slots, s1: Slots, s2: Slots,
                        goal: Entry)
    requires AllWithin(t0, t1, s0.target, goal) && Within(s0.target, goal, s1.target)
    requires s1.target.now == s0.target.now
    requires AllWithin(t1, t2, s1.target, goal) && Within(s1.target, goal, s2.target)
    ensures AllWithin(t0, t2, s0.target, goal) && Within(s0.target, goal, s2.target)
  {
  }

  /** The second half: the target is installed, or rolled back if that failed late. */
  method InstallInitial(fs: FileSystem, ctx: Context, current: Text, proposed: Text, meta: Meta) returns (out: Outcome)
    requires fs.Valid() && meta.setOwnership
    modifies fs, ctx
    ensures fs.Valid() && fs.faults >= old(fs.faults) && (old(ctx.done) ==> ctx.done)
    ensures OnlyGuarded(old(fs.commits), fs.commits) && !out.MirrorStale?
    ensures OnlyExchanges(old(fs.commits), fs.commits, current, proposed, meta.attr)
    ensures Steady(fs.outsider, old(fs.slots), current, meta.attr) ==>
              AllWithin(old(fs.trace), fs.trace, old(fs.slots).target, File(proposed, meta.attr, true))
              && Within(old(fs.slots).target, File(proposed, meta.attr, true), fs.slots.target)
              && fs.slots.backup.now == old(fs.slots).backup.now
    ensures Steady(fs.outsider, old(fs.slots), current, meta.attr) && HoldsData(old(fs.slots).backup.now, proposed) ==>
              Initializes(out, old(fs.slots), fs.slots, current, proposed, meta.attr)
    ensures Steady(fs.outsider, old(fs.slots), current, meta.attr) ==>
              Accounts(out, fs.faults - old(fs.faults), ctx.done, false)
  {
    hide OnlyGuarded, OnlyExchanges, Grew, Between, AllWithin, Within, Tidy, CommittedOnce;
    ghost var s0, trace0, commits0 := fs.slots, fs.trace, fs.commits;
    ghost var steady := Steady(fs.outsider, s0, current, meta.attr);
    ghost var goal := File(proposed, meta.attr, true);
    WithinItself(trace0, s0.target, goal);
    var renamed, installed := ReplaceIfUnchanged(fs, ctx, Target, proposed, meta, Snapshot(true, current, meta));
    ghost var s1, trace1, commits1 := fs.slots, fs.trace, fs.commits;
    TargetExchange(commits0, commits1, renamed, current, proposed, meta, current, proposed);
    if steady {
      WithinPhase(trace0, trace1, s0, s1, Target, goal, s0.target, goal);
    }
    if installed {
      return Done;
    }
    if !renamed {
      return Refused;
    }
    var restored := RollbackTarget(fs, current, proposed, meta);
    out := if restored then Restored else RestoreFailed;
    GuardedAppend(commits0, commits1, fs.commits);
    ExchangesAppend(commits0, commits1, fs.commits, current, proposed, meta.attr);
    if steady {
      WithinPhase(trace1, fs.trace, s1, fs.slots, Target, File(current, meta.attr, true), s0.target, goal);
      WithinAppend(trace0, trace1, fs.trace, s0.target, goal);
      TargetPhaseLeaves(s1, fs.slots, File(current, meta.attr, true));
    }
  }

  /** All new renames of the target put a valid text in place of the given one, keeping the metadata. */
  ghost predicate OnlyRestores(c: Config, oldCommits: seq<Commit>, commits: seq<Commit>, current: Text, attr: Attr) {
    && oldCommits <= commits
    && forall k :: |oldCommits| <= k < |commits| && commits[k].path.Target? ==>
         Holds(commits[k].before, current, attr) && ValidFile(c, commits[k].after) && commits[k].after.attr == attr
  }

  lemma NothingRestored(c: Config, commits: seq<Commit>, current: Text, attr: Attr)
    ensures OnlyRestores(c, commits, commits, current, attr)
  {
  }

  lemma RestoreCommit(c: Config, c0: seq<Commit>, c1: seq<Commit>, renamed: bool, current: Text, data: Text, meta: Meta)
    requires OnlyGuarded(c0, c1) && Valid(c, data)
    requires if renamed then CommittedOnce(c0, c1, Target, Snapshot(true, current, meta), File(data, meta.attr, true))
             else c1 == c0
    ensures OnlyRestores(c, c0, c1, current, meta.attr)
  {
    hide Valid;
  }

  /** A rename of the target that adds an empty section at its end, or takes one away again. */
  ghost predicate Initial(c: Config, m: Commit) {
    && m.before.File? && m.after.File? && m.before.attr == m.after.attr
    && (Extends(c, m.before.data, m.after.data) || Extends(c, m.after.data, m.before.data))
  }

  /** The second text is the marker-free first one with an empty section at its end. */
  ghost predicate Extends(c: Config, a: Text, b: Text) {
    MarkerFree(c, a) && b == AppendEmptySection(a, c.begin, c.end)
  }

  /** A rename of a damaged target to a valid text. */
  ghost predicate Recovery(c: Config, m: Commit) {
    Damaged(c, m.before) && ValidFile(c, m.after) && m.before.attr == m.after.attr
  }

  /** All that Prepare does to the target, whoever else was writing. */
  ghost predicate OnlyPrepares(c: Config, oldCommits: seq<Commit>, commits: seq<Commit>) {
    && oldCommits <= commits
    && forall k :: |oldCommits| <= k < |commits| && commits[k].path.Target? ==>
         Initial(c, commits[k]) || Recovery(c, commits[k])
  }

  lemma BackupsPrepare(c: Config, c0: seq<Commit>, c1: seq<Commit>)
    requires OnlyBackups(c0, c1)
    ensures OnlyPrepares(c, c0, c1)
  {
    hide Initial, Recovery;
  }

  lemma ExchangesPrepare(c: Config, c0: seq<Commit>, c1: seq<Commit>, current: Text, attr: Attr)
    requires MarkerFree(c, current)
    requires OnlyExchanges(c0, c1, current, AppendEmptySection(current, c.begin, c.end), attr)
    ensures OnlyPrepares(c, c0, c1)
  {
    hide AppendEmptySection, MarkerFree;
  }

  lemma RestoresPrepare(c: Config, c0: seq<Commit>, c1: seq<Commit>, current: Text, attr: Attr)
    requires !Valid(c, current) && !MarkerFree(c, current) && OnlyRestores(c, c0, c1, current, attr)
    ensures OnlyPrepares(c, c0, c1)
  {
    hide Valid, MarkerFree, Initial;
  }

  /** The recovery branch: only a backup with valid markers may replace a corrupt target. */
  method RecoverFromBackup(c: Config, fs: FileSystem, ctx: Context, current: Text, meta: Meta) returns (ok: bool)
    requires fs.Valid() && meta.setOwnership
    modifies fs, ctx
    ensures fs.Valid() && fs.faults >= old(fs.faults) && (old(ctx.done) ==> ctx.done)
    ensures OnlyGuarded(old(fs.commits), fs.commits)
    ensures OnlyRestores(c, old(fs.commits), fs.commits, current, meta.attr)
    ensures Steady(fs.outsider, old(fs.slots), current, meta.attr) ==> OwnMetadata(old(fs.slots), fs.slots)
    ensures Steady(fs.outsider, old(fs.slots), current, meta.attr) && ValidFile(c, old(fs.slots).backup.now) ==>
              AllWithin(old(fs.trace), fs.trace, old(fs.slots).target,
                        File(old(fs.slots).backup.now.data, meta.attr, true))
              && Within(old(fs.slots).target, File(old(fs.slots).backup.now.data, meta.attr, true), fs.slots.target)
    ensures Steady(fs.outsider, old(fs.slots), current, meta.attr) ==>
              BackupKept(old(fs.trace), fs.trace, old(fs.slots).backup)
              && Kept(old(fs.slots).backup, fs.slots.backup)
    ensures Steady(fs.outsider, old(fs.slots), current, meta.attr) && ok ==>
              ValidFile(c, old(fs.slots).backup.now) && Settled(fs.slots.target)
              && fs.slots.backup.now == old(fs.slots).backup.now
              && fs.slots.target.now == File(old(fs.slots).backup.now.data, meta.attr, true)
    ensures Steady(fs.outsider, old(fs.slots), current, meta.attr) && !ValidFile(c, old(fs.slots).backup.now) ==>
              !ok && fs.slots == old(fs.slots) && fs.trace == old(fs.trace)
    ensures Steady(fs.outsider, old(fs.slots), current, meta.attr) && !ok
            && !Troubled(fs.faults, old(fs.faults), ctx.done) ==>
              !ValidFile(c, old(fs.slots).backup.now)
  {
    hide OnlyGuarded, OnlyRestores, Grew, Between, AllWithin, Within, Valid, BackupKept, Kept, Tidy, CommittedOnce;
    ghost var s0, trace0, commits0 := fs.slots, fs.trace, fs.commits;
    NothingRestored(c, commits0, current, meta.attr);
    var backup := ReadOptional(fs, Backup, false);
    NothingGrew(fs.trace, fs.commits, fs.slots, Target, fs.slots.target.now);
    TargetPhaseKeepsBackup(fs.trace, fs.trace, fs.slots, fs.slots, fs.slots.target.now);
    if s0.backup.now.File? {
      WithinItself(trace0, s0.target, File(s0.backup.now.data, meta.attr, true));
    }
    if !backup.Contents? {
      return false;
    }
    var valid := RequireValidMarkers(c, backup.data);
    if !valid {
      return false;
    }
    var renamed, restored := ReplaceIfUnchanged(fs, ctx, Target, backup.data, meta, Snapshot(true, current, meta));
    RestoreCommit(c, commits0, fs.commits, renamed, current, backup.data, meta);
    ok := restored;
    if Steady(fs.outsider, s0, current, meta.attr) {
      var goal := File(backup.data, meta.attr, true);
      WithinPhase(trace0, fs.trace, s0, fs.slots, Target, goal, s0.target, goal);
      TargetPhaseKeepsBackup(trace0, fs.trace, s0, fs.slots, goal);
      TargetPhaseLeaves(s0, fs.slots, goal);
    }
  }

  /** The target keeps its metadata; the backup keeps its own, or is created with that of the target. */
  ghost predicate OwnMetadata(before: Slots, after: Slots) {
    && (before.target.now.File? ==> after.target.now.File? && after.target.now.attr == before.target.now.attr)
    && (if before.target.now.File? then OwnAttr(before.backup.now, after.backup.now, before.target.now.attr)
        else after.backup.now == before.backup.now)
  }

  lemma NothingOwned(s: Slots)
    ensures OwnMetadata(s, s)
  {
  }

  lemma MirrorOwnsMetadata(s: Slots, after: Slots, data: Text, attr: Attr)
    requires Between(s, after, Backup, Mirrored(s.backup.now, data, attr)) && s.target.now.File?
               && s.target.now.attr == attr
    requires OwnAttr(s.backup.now, after.backup.now, attr)
    ensures OwnMetadata(s, after)
  {
    BackupPhaseLeaves(s, after, Mirrored(s.backup.now, data, attr));
  }

  /** How many failures a half-done initialisation needs. */
  ghost predicate LeftInitialized(found: Entry, e: Entry, faults: nat, done: bool) {
    found.File? && !Holds(e, found.data, found.attr) ==> faults >= if done then 1 else 2
  }

  /** Prepare, with its three successful endings: valid, initialised, recovered. */
  method Prepare(c: Config, fs: FileSystem, ctx: Context) returns (r: Preparation)
    requires GoodConfig(c) && fs.Valid()
    modifies fs, ctx
    ensures fs.Valid() && fs.faults >= old(fs.faults) && (old(ctx.done) ==> ctx.done)
    ensures OnlyGuarded(old(fs.commits), fs.commits) && OnlyPrepares(c, old(fs.commits), fs.commits)
    ensures !fs.outsider && !r.NotPrepared? ==>
              MirroredPair(c, fs.slots) && ViewOf(fs.slots) == PreparedView(c, ViewOf(old(fs.slots)))
    ensures !fs.outsider && r.NotPrepared? && !Troubled(fs.faults, old(fs.faults), ctx.done) ==>
              ViewOf(fs.slots) == ViewOf(old(fs.slots)) == PreparedView(c, ViewOf(old(fs.slots)))
    ensures !fs.outsider && r.NotPrepared? ==>
              Troubled(fs.faults, old(fs.faults), ctx.done) || !Preparable(c, old(fs.slots))
    ensures !fs.outsider && r.NotPrepared? && !Damaged(c, old(fs.slots).target.now) ==>
              LeftInitialized(old(fs.slots).target.now, fs.slots.target.now,
                              fs.faults - old(fs.faults), ctx.done)
    ensures !fs.outsider ==>
              var goal := PreparedTarget(c, ViewOf(old(fs.slots)));
              AllWithin(old(fs.trace), fs.trace, old(fs.slots).target, goal)
              && Within(old(fs.slots).target, goal, fs.slots.target)
    ensures !fs.outsider && ValidFile(c, old(fs.slots).target.now) ==>
              TargetKept(old(fs.trace), fs.trace, old(fs.slots).target)
              && Kept(old(fs.slots).target, fs.slots.target)
    ensures !fs.outsider && !r.NotPrepared? && !ValidFile(c, old(fs.slots).target.now) ==> Settled(fs.slots.target)
    ensures !fs.outsider && Damaged(c, old(fs.slots).target.now) ==>
              BackupKept(old(fs.trace), fs.trace, old(fs.slots).backup)
              && Kept(old(fs.slots).backup, fs.slots.backup)
    ensures !fs.outsider ==> OwnMetadata(old(fs.slots), fs.slots)
    ensures !fs.outsider && Irrecoverable(c, old(fs.slots)) ==>
              r.NotPrepared? && fs.slots == old(fs.slots) && fs.trace == old(fs.trace)
    ensures !fs.outsider && r.RecoveredFromBackup? ==>
              ValidFile(c, old(fs.slots).backup.now) && Damaged(c, old(fs.slots).target.now)
  {
    hide OnlyGuarded, OnlyPrepares, OnlyExchanges, OnlyRestores, OnlyBackups, OwnMetadata, Grew, Between, AllWithin,
         Within,
         TargetKept, BackupKept, Unmarked, HasSection, GoodMarker, GoodPrinter, GoodSorter, AppendEmptySection,
         Tidy, Kept;
    ghost var commits0 := fs.commits;
    NoBackups(commits0);
    BackupsPrepare(c, commits0, commits0);
    NothingKept(fs.trace, fs.slots);
    NothingOwned(fs.slots);
    var stop := ctx.Check();
    GuardedNothing(fs.commits);
    WithinItself(fs.trace, fs.slots.target, PreparedTarget(c, ViewOf(fs.slots)));
    if stop {
      return NotPrepared;
    }
    ghost var s0, trace0 := fs.slots, fs.trace;
    var target := ReadOptional(fs, Target, false);
    if !target.Contents? {
      return NotPrepared;
    }
    var current, meta := target.data, target.meta;
    var scan := LocateMarkers(current, c.begin, c.end);
    if scan.ValidMarkers? {
      var mirrored := EnsureBackupMatches(fs, ctx, current, meta);
      r := if mirrored then Prepared else NotPrepared;
      BackupsPrepare(c, commits0, fs.commits);
      if !fs.outsider {
        var e := Mirrored(s0.backup.now, current, meta.attr);
        WithinPhase(trace0, fs.trace, s0, fs.slots, Backup, e, s0.target, s0.target.now);
        SpecialKept(s0, fs.slots, e);
        MirrorOwnsMetadata(s0, fs.slots, current, meta.attr);
        BackupPhaseKeepsTarget(trace0, fs.trace, s0, fs.slots, e);
      }
    } else if scan.NoMarkers? {
      var proposed := AppendEmptySection(current, c.begin, c.end);
      AppendIsValid(current, c.begin, c.end);
      var out := Refused;
      var valid := RequireValidMarkers(c, proposed);
      if valid {
        out := InitializeSection(fs, ctx, current, proposed, meta);
        ExchangesPrepare(c, commits0, fs.commits, current, meta.attr);
      }
      r := if out.Done? then Prepared else NotPrepared;
    } else {
      var ok := RecoverFromBackup(c, fs, ctx, current, meta);
      RestoresPrepare(c, commits0, fs.commits, current, meta.attr);
      r := if ok then RecoveredFromBackup else NotPrepared;
    }
  }

  lemma SpecialKept(s: Slots, after: Slots, e: Entry)
    requires Between(s, after, Backup, e)
    ensures e == s.backup.now ==> ViewOf(after) == ViewOf(s)
  {
    BackupPhaseLeaves(s, after, e);
  }

  lemma NothingKept(trace: seq<Slots>, s: Slots)
    ensures TargetKept(trace, trace, s.target) && Kept(s.target, s.target)
    ensures BackupKept(trace, trace, s.backup) && Kept(s.backup, s.backup)
  {
  }
}
