/** The two-file transaction of hosts/store.go: target and backup change together. */
module Transaction {
  import opened Markers
  import opened Disk
  import opened Replacement

  /** The backup after it has been made to mirror `data`; a fresh one gets `attr`. */
  function Mirrored(e: Entry, data: Text, attr: Attr): Entry {
    match e
    case Absent => File(data, attr, true)
    case Special => Special
    case File(d, a, _) => if d == data then e else File(data, a, true)
  }

  /** A file that is left alone, or replaced with its own metadata, or created with the given one. */
  ghost predicate OwnAttr(before: Entry, after: Entry, created: Attr) {
    after == before || (after.File? && after.attr == if before.File? then before.attr else created)
  }

  lemma OwnAttrTwice(a: Entry, b: Entry, c: Entry, created: Attr)
    requires OwnAttr(a, b, created) && OwnAttr(b, c, created)
    ensures OwnAttr(a, c, created)
  {
  }

  lemma MirrorOwnsAttr(s: Slots, after: Slots, data: Text, attr: Attr)
    requires Between(s, after, Backup, Mirrored(s.backup.now, data, attr))
    ensures OwnAttr(s.backup.now, after.backup.now, attr)
  {
    BackupPhaseLeaves(s, after, Mirrored(s.backup.now, data, attr));
  }

  ghost predicate Troubled(faults: nat, oldFaults: nat, done: bool) {
    faults > oldFaults || done
  }

  ghost predicate Holds(e: Entry, data: Text, attr: Attr) {
    e.File? && e.data == data && e.attr == attr
  }

  /** A rename that put one of the two texts in place of the other, keeping the metadata. */
  ghost predicate Exchanges(m: Commit, current: Text, proposed: Text, attr: Attr) {
    || (Holds(m.before, current, attr) && Holds(m.after, proposed, attr))
    || (Holds(m.before, proposed, attr) && Holds(m.after, current, attr))
  }

  /** All new renames of the target exchange the two texts, whoever else was writing. */
  ghost predicate OnlyExchanges(oldCommits: seq<Commit>, commits: seq<Commit>, current: Text, proposed: Text,
                                attr: Attr)
  {
    && oldCommits <= commits
    && forall k :: |oldCommits| <= k < |commits| && commits[k].path.Target? ==>
        Exchanges(commits[k], current, proposed, attr)
  }

  ghost predicate OnlyBackups(oldCommits: seq<Commit>, commits: seq<Commit>) {
    && oldCommits <= commits
    && forall k :: |oldCommits| <= k < |commits| ==> commits[k].path.Backup?
  }

  lemma ExchangesAppend(c0: seq<Commit>, c1: seq<Commit>, c2: seq<Commit>, current: Text, proposed: Text, attr: Attr)
    requires OnlyExchanges(c0, c1, current, proposed, attr) && OnlyExchanges(c1, c2, current, proposed, attr)
    ensures OnlyExchanges(c0, c2, current, proposed, attr)
  {
    hide Exchanges;
  }

  lemma BackupsExchangeNothing(c0: seq<Commit>, c1: seq<Commit>, current: Text, proposed: Text, attr: Attr)
    requires OnlyBackups(c0, c1)
    ensures OnlyExchanges(c0, c1, current, proposed, attr)
  {
    hide Exchanges;
  }

  lemma NoBackups(commits: seq<Commit>)
    ensures OnlyBackups(commits, commits)
  {
  }

  /** A guarded rename of the target over one text by the other is an exchange. */
  lemma TargetExchange(c0: seq<Commit>, c1: seq<Commit>, renamed: bool, from: Text, to: Text, meta: Meta,
                       current: Text, proposed: Text)
    requires OnlyGuarded(c0, c1)
    requires if renamed then CommittedOnce(c0, c1, Target, Snapshot(true, from, meta), File(to, meta.attr, true))
             else c1 == c0
    requires (from == current && to == proposed) || (from == proposed && to == current)
    ensures OnlyExchanges(c0, c1, current, proposed, meta.attr)
  {
  }

  lemma BackupCommit(c0: seq<Commit>, c1: seq<Commit>, renamed: bool, expected: Snapshot, e: Entry)
    requires OnlyGuarded(c0, c1)
    requires if renamed then CommittedOnce(c0, c1, Backup, expected, e) else c1 == c0
    ensures OnlyBackups(c0, c1)
  {
  }

  /** ensureBackupMatches. */
  method EnsureBackupMatches(fs: FileSystem, ctx: Context, data: Text, meta: Meta) returns (ok: bool)
    requires fs.Valid() && meta.setOwnership
    modifies fs, ctx
    ensures fs.Valid() && fs.faults >= old(fs.faults) && (old(ctx.done) ==> ctx.done)
    ensures OnlyGuarded(old(fs.commits), fs.commits) && OnlyBackups(old(fs.commits), fs.commits)
    ensures !fs.outsider ==>
              Between(old(fs.slots), fs.slots, Backup, Mirrored(old(fs.slots).backup.now, data, meta.attr))
    ensures !fs.outsider ==>
              Grew(old(fs.trace), fs.trace, old(fs.slots), Backup, Mirrored(old(fs.slots).backup.now, data, meta.attr))
    ensures !fs.outsider && ok ==> fs.slots.backup.now == Mirrored(old(fs.slots).backup.now, data, meta.attr)
    ensures !fs.outsider && ok ==> HoldsData(fs.slots.backup.now, data)
    ensures !fs.outsider ==> OwnAttr(old(fs.slots).backup.now, fs.slots.backup.now, meta.attr)
    ensures !fs.outsider && !ok ==> Troubled(fs.faults, old(fs.faults), ctx.done) || old(fs.slots).backup.now.Special?
  {
    hide Between, Grew, OnlyGuarded, OnlyBackups, CommittedOnce, Tidy;
    ghost var s0, commits := fs.slots, fs.commits;
    var r := ReadOptional(fs, Backup, false);
    NoBackups(commits);
    NothingGrew(fs.trace, fs.commits, fs.slots, Backup, Mirrored(fs.slots.backup.now, data, meta.attr));
    if r.ReadFailed? {
      return false;
    }
    if r.Contents? && r.data == data {
      return true;
    }
    var expected := SnapshotOf(r, meta);
    var used := if r.Contents? then r.meta else meta;
    var renamed, done := ReplaceIfUnchanged(fs, ctx, Backup, data, used, expected);
    BackupCommit(commits, fs.commits, renamed, expected, Staged(fs.self, data, used));
    ok := done;
    if !fs.outsider {
      MirrorOwnsAttr(s0, fs.slots, data, meta.attr);
    }
  }

  function SnapshotOf(r: ReadResult, default: Meta): Snapshot {
    if r.Contents? then Snapshot(true, r.data, r.meta) else Snapshot(false, "", default)
  }

  /******* What the transaction keeps *******/

  datatype Outcome = Done | Refused | Restored | RestoreFailed | MirrorStale

  /** No other process acts, and the target holds what the caller read from it. */
  ghost predicate Steady(outsider: bool, s: Slots, current: Text, attr: Attr) {
    !outsider && Holds(s.target.now, current, attr)
  }

  /** Every state of the transaction: the target is whole, old or new, and is new only while
      the backup is a whole old or new copy; after a crash nothing else can be there. */
  ghost predicate Safe(s: Slots, start: Slots, current: Text, proposed: Text, attr: Attr) {
    && (Holds(s.target.now, current, attr) || Holds(s.target.now, proposed, attr))
    && (s.target.now.data == current || HoldsData(s.backup.now, current) || HoldsData(s.backup.now, proposed))
    && s.target.maybe <= start.target.maybe + {File(current, attr, true), File(proposed, attr, true)}
    && forall e :: e in s.backup.maybe ==> e in start.backup.maybe || e.File?
  }

  ghost predicate EverySafe(oldTrace: seq<Slots>, trace: seq<Slots>, start: Slots,
                            current: Text, proposed: Text, attr: Attr)
  {
    && oldTrace <= trace
    && forall k :: |oldTrace| <= k < |trace| ==> Safe(trace[k], start, current, proposed, attr)
  }

  /** Before state k of the trace the backup held the current text. */
  ghost predicate Retained(oldTrace: seq<Slots>, trace: seq<Slots>, k: nat, start: Slots, current: Text)
    requires k <= |trace|
  {
    || HoldsData(start.backup.now, current)
    || exists j :: |oldTrace| <= j < k && HoldsData(trace[j].backup.now, current)
  }

  /** A text other than the current one is shown only after the backup held the current one. */
  ghost predicate RetainedFirst(oldTrace: seq<Slots>, trace: seq<Slots>, start: Slots, current: Text) {
    forall k :: |oldTrace| <= k < |trace| ==>
      HoldsData(trace[k].target.now, current) || Retained(oldTrace, trace, k, start, current)
  }

  /** Every state is safe, and they come in a safe order. */
  ghost predicate AllSafe(oldTrace: seq<Slots>, trace: seq<Slots>, start: Slots,
                          current: Text, proposed: Text, attr: Attr)
  {
    && EverySafe(oldTrace, trace, start, current, proposed, attr)
    && RetainedFirst(oldTrace, trace, start, current)
  }

  /** All new states show this target. */
  ghost predicate AllShow(oldTrace: seq<Slots>, trace: seq<Slots>, target: Entry) {
    oldTrace <= trace && forall k :: |oldTrace| <= k < |trace| ==> trace[k].target.now == target
  }

  /** What each outcome says about the two files. */
  ghost predicate Settles(out: Outcome, start: Slots, s: Slots, current: Text, proposed: Text, attr: Attr) {
    match out
    case Done => Settled(s.target) && Holds(s.target.now, proposed, attr) && HoldsData(s.backup.now, proposed)
    case Refused =>
      s.target.now == start.target.now && (s.backup.now == start.backup.now || HoldsData(s.backup.now, current))
    case Restored => Settled(s.target) && Holds(s.target.now, current, attr) && HoldsData(s.backup.now, current)
    case RestoreFailed =>
      (Holds(s.target.now, current, attr) || Holds(s.target.now, proposed, attr)) && HoldsData(s.backup.now, current)
    case MirrorStale =>
      Holds(s.target.now, proposed, attr) && (HoldsData(s.backup.now, current) || HoldsData(s.backup.now, proposed))
  }

  /** How many failures an outcome needs. */
  ghost predicate Accounts(out: Outcome, faults: nat, done: bool, special: bool) {
    match out
    case Done => true
    case Refused => faults > 0 || done || special
    case Restored => faults > 0 || done
    case RestoreFailed => faults >= if done then 1 else 2
    case MirrorStale => faults > 0 || done
  }

  /******* Phases *******/

  lemma SafeAppend(t0: seq<Slots>, t1: seq<Slots>, t2: seq<Slots>, start: Slots,
                   current: Text, proposed: Text, attr: Attr)
    requires EverySafe(t0, t1, start, current, proposed, attr) && EverySafe(t1, t2, start, current, proposed, attr)
    ensures EverySafe(t0, t2, start, current, proposed, attr)
  {
    hide Safe;
  }

  /** Once the backup holds the current text, anything may be shown. */
  lemma RetainedSince(t0: seq<Slots>, t1: seq<Slots>, t2: seq<Slots>, start: Slots, s: Slots, current: Text)
    requires 0 < |t0| && t0 <= t1 <= t2 && t0[|t0| - 1] == start && t1[|t1| - 1] == s
    requires AllShow(t0, t1, start.target.now) && HoldsData(start.target.now, current)
    requires HoldsData(s.backup.now, current)
    ensures RetainedFirst(t0, t2, start, current)
  {
    forall k | |t0| <= k < |t2| && !HoldsData(t2[k].target.now, current)
      ensures Retained(t0, t2, k, start, current)
    {
      if |t1| > |t0| {
        assert t2[|t1| - 1] == s;
      }
    }
  }

  lemma ShownFirst(t0: seq<Slots>, t1: seq<Slots>, start: Slots, current: Text)
    requires AllShow(t0, t1, start.target.now) && HoldsData(start.target.now, current)
    ensures RetainedFirst(t0, t1, start, current)
  {
  }

  lemma BackupPhaseShows(t0: seq<Slots>, t1: seq<Slots>, s: Slots, e: Entry)
    requires Grew(t0, t1, s, Backup, e)
    ensures AllShow(t0, t1, s.target.now)
  {
    forall k | |t0| <= k < |t1| ensures t1[k].target.now == s.target.now {
      BackupPhaseLeaves(s, t1[k], e);
    }
  }

  /** Replacing the backup by a copy is safe, whichever of the two texts the target holds. */
  lemma BackupPhase(t0: seq<Slots>, t1: seq<Slots>, start: Slots, s: Slots, after: Slots, e: Entry,
                    current: Text, proposed: Text, attr: Attr)
    requires Safe(s, start, current, proposed, attr)
    requires s.target.now.data == current || HoldsData(e, current) || HoldsData(e, proposed)
    requires e.File? || e == s.backup.now
    requires Grew(t0, t1, s, Backup, e) && Between(s, after, Backup, e)
    ensures EverySafe(t0, t1, start, current, proposed, attr) && Safe(after, start, current, proposed, attr)
  {
    forall m | Between(s, m, Backup, e) ensures Safe(m, start, current, proposed, attr) {
      assert m.At(Target) == m.target && m.At(Backup) == m.backup;
      assert s.At(Target) == s.target && s.At(Backup) == s.backup;
    }
  }

  /** Replacing the target is safe while the backup holds the current text. */
  lemma TargetPhase(t0: seq<Slots>, t1: seq<Slots>, start: Slots, s: Slots, after: Slots, data: Text,
                    current: Text, proposed: Text, attr: Attr)
    requires Safe(s, start, current, proposed, attr)
    requires HoldsData(s.backup.now, current)
    requires data == current || data == proposed
    requires Grew(t0, t1, s, Target, File(data, attr, true)) && Between(s, after, Target, File(data, attr, true))
    ensures EverySafe(t0, t1, start, current, proposed, attr) && Safe(after, start, current, proposed, attr)
    ensures after.backup.now == s.backup.now
  {
    forall m | Between(s, m, Target, File(data, attr, true))
      ensures Safe(m, start, current, proposed, attr) && m.backup.now == s.backup.now
    {
      assert m.At(Target) == m.target && m.At(Backup) == m.backup;
      assert s.At(Target) == s.target && s.At(Backup) == s.backup;
    }
  }

  lemma StartIsSafe(trace: seq<Slots>, s: Slots, current: Text, proposed: Text, attr: Attr)
    requires Holds(s.target.now, current, attr)
    ensures Safe(s, s, current, proposed, attr) && AllSafe(trace, trace, s, current, proposed, attr)
  {
  }

  lemma GuardedAppend(c0: seq<Commit>, c1: seq<Commit>, c2: seq<Commit>)
    requires OnlyGuarded(c0, c1) && OnlyGuarded(c1, c2)
    ensures OnlyGuarded(c0, c2)
  {
  }

  /******* The transaction *******/

  /** The first phase: the backup comes to hold the current text. */
  method RetainCurrent(fs: FileSystem, ctx: Context, current: Text, proposed: Text, targetMeta: Meta,
                       newBackupMeta: Meta)
    returns (ok: bool)
    requires fs.Valid() && newBackupMeta.setOwnership
    modifies fs, ctx
    ensures fs.Valid() && fs.faults >= old(fs.faults) && (old(ctx.done) ==> ctx.done)
    ensures OnlyGuarded(old(fs.commits), fs.commits) && OnlyBackups(old(fs.commits), fs.commits)
    ensures Steady(fs.outsider, old(fs.slots), current, targetMeta.attr) ==>
              Safe(fs.slots, old(fs.slots), current, proposed, targetMeta.attr)
    ensures Steady(fs.outsider, old(fs.slots), current, targetMeta.attr) ==>
              EverySafe(old(fs.trace), fs.trace, old(fs.slots), current, proposed, targetMeta.attr)
              && AllShow(old(fs.trace), fs.trace, old(fs.slots).target.now)
    ensures Steady(fs.outsider, old(fs.slots), current, targetMeta.attr) ==>
              fs.slots.target.now == old(fs.slots).target.now
    ensures Steady(fs.outsider, old(fs.slots), current, targetMeta.attr) ==>
              fs.slots.backup.now == old(fs.slots).backup.now || HoldsData(fs.slots.backup.now, current)
    ensures !fs.outsider && ok ==>
              fs.slots.backup.now == Mirrored(old(fs.slots).backup.now, current, newBackupMeta.attr)
    ensures !fs.outsider && ok ==> HoldsData(fs.slots.backup.now, current)
    ensures !fs.outsider ==> OwnAttr(old(fs.slots).backup.now, fs.slots.backup.now, newBackupMeta.attr)
    ensures !fs.outsider && !ok ==>
              Troubled(fs.faults, old(fs.faults), ctx.done) || old(fs.slots).backup.now.Special?
  {
    hide Between, Grew, OnlyGuarded, OnlyBackups, Safe, EverySafe, AllShow, Tidy;
    ghost var start, trace := fs.slots, fs.trace;
    ok := EnsureBackupMatches(fs, ctx, current, newBackupMeta);
    if Steady(fs.outsider, start, current, targetMeta.attr) {
      var e := Mirrored(start.backup.now, current, newBackupMeta.attr);
      StartIsSafe(trace, start, current, proposed, targetMeta.attr);
      BackupPhase(trace, fs.trace, start, start, fs.slots, e, current, proposed, targetMeta.attr);
      BackupPhaseShows(trace, fs.trace, start, e);
      BackupPhaseLeaves(start, fs.slots, e);
    }
  }

  lemma BackupPhaseLeaves(s: Slots, after: Slots, e: Entry)
    requires Between(s, after, Backup, e)
    ensures after.target.now == s.target.now && after.target.maybe <= s.target.maybe
    ensures after.backup.now == s.backup.now || after.backup.now == e
  {
    assert after.At(Target) == after.target && after.At(Backup) == after.backup;
    assert s.At(Target) == s.target && s.At(Backup) == s.backup;
  }

  lemma TargetPhaseLeaves(s: Slots, after: Slots, e: Entry)
    requires Between(s, after, Target, e)
    ensures after.target.now == s.target.now || after.target.now == e
    ensures after.backup.now == s.backup.now
  {
    assert after.At(Target) == after.target && s.At(Target) == s.target;
    assert after.At(Backup) == after.backup && s.At(Backup) == s.backup;
  }

  /** A transaction under way: the target is whole and the backup holds the current text. */
  ghost predicate Underway(outsider: bool, s: Slots, start: Slots, current: Text, proposed: Text, attr: Attr) {
    !outsider && Safe(s, start, current, proposed, attr) && HoldsData(s.backup.now, current)
  }

  /** rollbackTarget: restores the target under a context that the caller cannot cancel; running out of time counts
      as a failure. */
  method RollbackTarget(fs: FileSystem, current: Text, proposed: Text, meta: Meta) returns (ok: bool)
    requires fs.Valid() && meta.setOwnership
    modifies fs
    ensures fs.Valid() && fs.faults >= old(fs.faults)
    ensures OnlyGuarded(old(fs.commits), fs.commits)
    ensures OnlyExchanges(old(fs.commits), fs.commits, current, proposed, meta.attr)
    ensures !fs.outsider ==> Between(old(fs.slots), fs.slots, Target, File(current, meta.attr, true))
    ensures !fs.outsider ==> Grew(old(fs.trace), fs.trace, old(fs.slots), Target, File(current, meta.attr, true))
    ensures !fs.outsider && ok ==> Settled(fs.slots.target) && Holds(fs.slots.target.now, current, meta.attr)
    ensures !fs.outsider && !ok && Holds(old(fs.slots).target.now, proposed, meta.attr) ==>
              fs.faults > old(fs.faults)
  {
    hide Between, Grew, OnlyGuarded, OnlyExchanges, CommittedOnce, Tidy;
    ghost var commits := fs.commits;
    var detached := new Context(false);
    var renamed, done := ReplaceIfUnchanged(fs, detached, Target, current, meta, Snapshot(true, proposed, meta));
    TargetExchange(commits, fs.commits, renamed, proposed, current, meta, current, proposed);
    ok := done;
    if !done && detached.done {
      fs.TimeOut();
    }
  }

  /** The second phase: install the proposed text, then mirror it or roll it back. */
  method InstallProposed(fs: FileSystem, ctx: Context, current: Text, proposed: Text, meta: Meta,
                         newBackupMeta: Meta, ghost start: Slots)
    returns (out: Outcome)
    requires fs.Valid() && meta.setOwnership && newBackupMeta.setOwnership
    modifies fs, ctx
    ensures fs.Valid() && fs.faults >= old(fs.faults) && (old(ctx.done) ==> ctx.done)
    ensures OnlyGuarded(old(fs.commits), fs.commits)
    ensures OnlyExchanges(old(fs.commits), fs.commits, current, proposed, meta.attr)
    ensures Installing(fs.outsider, old(fs.slots), start, current, proposed, meta.attr) ==>
              Safe(fs.slots, start, current, proposed, meta.attr)
              && EverySafe(old(fs.trace), fs.trace, start, current, proposed, meta.attr)
    ensures Installing(fs.outsider, old(fs.slots), start, current, proposed, meta.attr) ==>
              Settles(out, start, fs.slots, current, proposed, meta.attr)
    ensures Installing(fs.outsider, old(fs.slots), start, current, proposed, meta.attr) ==>
              Accounts(out, fs.faults - old(fs.faults), ctx.done, false)
    ensures !fs.outsider && out.Done? ==>
              fs.slots.backup.now == Mirrored(old(fs.slots).backup.now, proposed, newBackupMeta.attr)
    ensures !fs.outsider ==> OwnAttr(old(fs.slots).backup.now, fs.slots.backup.now, newBackupMeta.attr)
  {
    hide Between, Grew, OnlyGuarded, OnlyExchanges, OnlyBackups, CommittedOnce, Safe, EverySafe, Tidy;
    ghost var s, trace, commits, faults := fs.slots, fs.trace, fs.commits, fs.faults;
    ghost var steady := Installing(fs.outsider, s, start, current, proposed, meta.attr);
    var renamed, ok := ReplaceIfUnchanged(fs, ctx, Target, proposed, meta, Snapshot(true, current, meta));
    ghost var s1, trace1, commits1 := fs.slots, fs.trace, fs.commits;
    TargetExchange(commits, commits1, renamed, current, proposed, meta, current, proposed);
    if !fs.outsider {
      TargetPhaseLeaves(s, s1, File(proposed, meta.attr, true));
    }
    if steady {
      TargetPhase(trace, trace1, start, s, s1, proposed, current, proposed, meta.attr);
    }
    if ok {
      var mirrored := EnsureBackupMatches(fs, ctx, proposed, newBackupMeta);
      out := if mirrored then Done else MirrorStale;
      BackupsExchangeNothing(commits1, fs.commits, current, proposed, meta.attr);
      if !fs.outsider {
        MirrorPhase(steady, trace, trace1, fs.trace, start, s, s1, fs.slots,
                    current, proposed, meta.attr, newBackupMeta.attr);
      }
    } else if !renamed {
      out := Refused;
      GuardedNothing(commits1);
      NoBackups(commits1);
      BackupsExchangeNothing(commits1, commits1, current, proposed, meta.attr);
    } else {
      var restored := RollbackTarget(fs, current, proposed, meta);
      out := if restored then Restored else RestoreFailed;
      if !fs.outsider {
        TargetPhaseLeaves(s1, fs.slots, File(current, meta.attr, true));
      }
      if steady {
        TargetPhase(trace1, fs.trace, start, s1, fs.slots, current, current, proposed, meta.attr);
        SafeAppend(trace, trace1, fs.trace, start, current, proposed, meta.attr);
        SafeTarget(fs.slots, start, current, proposed, meta.attr);
      }
    }
    GuardedAppend(commits, commits1, fs.commits);
    ExchangesAppend(commits, commits1, fs.commits, current, proposed, meta.attr);
  }

  /** Ready to install: the target still is what the transaction started from. */
  ghost predicate Installing(outsider: bool, s: Slots, start: Slots, current: Text, proposed: Text, attr: Attr) {
    && Underway(outsider, s, start, current, proposed, attr)
    && s.target.now == start.target.now
    && Holds(s.target.now, current, attr)
  }

  lemma GuardedNothing(commits: seq<Commit>)
    ensures OnlyGuarded(commits, commits)
  {
  }

  lemma SafeTarget(s: Slots, start: Slots, current: Text, proposed: Text, attr: Attr)
    requires Safe(s, start, current, proposed, attr)
    ensures Holds(s.target.now, current, attr) || Holds(s.target.now, proposed, attr)
  {
  }

  /** Refreshing the mirror after the commit touches only the backup. */
  lemma MirrorPhase(steady: bool, t0: seq<Slots>, t1: seq<Slots>, t2: seq<Slots>,
                    start: Slots, s: Slots, s1: Slots, s2: Slots,
                    current: Text, proposed: Text, attr: Attr, backupAttr: Attr)
    requires steady ==>
               HoldsData(s.backup.now, current)
               && EverySafe(t0, t1, start, current, proposed, attr) && Safe(s1, start, current, proposed, attr)
    requires Between(s, s1, Target, File(proposed, attr, true)) && Settled(s1.target)
               && Holds(s1.target.now, proposed, attr)
    requires Between(s1, s2, Backup, Mirrored(s1.backup.now, proposed, backupAttr))
    requires Grew(t1, t2, s1, Backup, Mirrored(s1.backup.now, proposed, backupAttr))
    ensures s1.backup.now == s.backup.now
    ensures s2.target.now == s1.target.now && Settled(s2.target)
    ensures steady ==> EverySafe(t0, t2, start, current, proposed, attr) && Safe(s2, start, current, proposed, attr)
    ensures steady ==> HoldsData(s2.backup.now, current) || HoldsData(s2.backup.now, proposed)
  {
    hide Safe, EverySafe, Grew;
    assert s1.At(Backup) == s1.backup && s.At(Backup) == s.backup;
    var e := Mirrored(s1.backup.now, proposed, backupAttr);
    BackupPhaseLeaves(s1, s2, e);
    if steady {
      BackupPhase(t1, t2, start, s1, s2, e, current, proposed, attr);
      SafeAppend(t0, t1, t2, start, current, proposed, attr);
    }
  }

  /** applyReplacement. */
  method ApplyReplacement(fs: FileSystem, ctx: Context, current: Text, proposed: Text, meta: Meta, newBackupMeta: Meta)
    returns (out: Outcome)
    requires fs.Valid() && meta.setOwnership && newBackupMeta.setOwnership
    modifies fs, ctx
    ensures fs.Valid() && fs.faults >= old(fs.faults) && (old(ctx.done) ==> ctx.done)
    ensures OnlyGuarded(old(fs.commits), fs.commits)
    ensures OnlyExchanges(old(fs.commits), fs.commits, current, proposed, meta.attr)
    ensures Steady(fs.outsider, old(fs.slots), current, meta.attr) ==>
              Safe(fs.slots, old(fs.slots), current, proposed, meta.attr)
              && AllSafe(old(fs.trace), fs.trace, old(fs.slots), current, proposed, meta.attr)
    ensures Steady(fs.outsider, old(fs.slots), current, meta.attr) ==>
              Settles(out, old(fs.slots), fs.slots, current, proposed, meta.attr)
    ensures Steady(fs.outsider, old(fs.slots), current, meta.attr) ==>
              Accounts(out, fs.faults - old(fs.faults), ctx.done, old(fs.slots).backup.now.Special?)
    ensures !fs.outsider && out.Done? ==>
              fs.slots.backup.now ==
                Mirrored(Mirrored(old(fs.slots).backup.now, current, newBackupMeta.attr), proposed, newBackupMeta.attr)
    ensures !fs.outsider ==> OwnAttr(old(fs.slots).backup.now, fs.slots.backup.now, newBackupMeta.attr)
  {
    hide OnlyGuarded, OnlyExchanges, OnlyBackups, Safe, EverySafe, AllShow, RetainedFirst, Tidy;
    ghost var start, trace, commits, faults := fs.slots, fs.trace, fs.commits, fs.faults;
    var retained := RetainCurrent(fs, ctx, current, proposed, meta, newBackupMeta);
    BackupsExchangeNothing(commits, fs.commits, current, proposed, meta.attr);
    if !retained {
      if Steady(fs.outsider, start, current, meta.attr) {
        ShownFirst(trace, fs.trace, start, current);
      }
      return Refused;
    }
    ghost var s1, trace1, commits1, faults1 := fs.slots, fs.trace, fs.commits, fs.faults;
    out := InstallProposed(fs, ctx, current, proposed, meta, newBackupMeta, start);
    if !fs.outsider {
      OwnAttrTwice(start.backup.now, s1.backup.now, fs.slots.backup.now, newBackupMeta.attr);
    }
    GuardedAppend(commits, commits1, fs.commits);
    ExchangesAppend(commits, commits1, fs.commits, current, proposed, meta.attr);
    if Steady(fs.outsider, start, current, meta.attr) {
      SafeAppend(trace, trace1, fs.trace, start, current, proposed, meta.attr);
      SafeTraces(trace, trace1, fs.trace, start, current, proposed, meta.attr);
      RetainedSince(trace, trace1, fs.trace, start, s1, current);
    }
  }

  lemma SafeTraces(t0: seq<Slots>, t1: seq<Slots>, t2: seq<Slots>, start: Slots,
                   current: Text, proposed: Text, attr: Attr)
    requires EverySafe(t0, t1, start, current, proposed, attr) && EverySafe(t1, t2, start, current, proposed, attr)
    ensures t0 <= t1 <= t2
  {
  }
}
