/** One guarded file replacement: stage, check the expectation, rename, sync, read back. */
module Replacement {
  import opened Basics
  import opened Markers
  import opened Disk

  /******* What a replacement may do to the destinations *******/

  /** The slot is as before, up to entries that a crash can no longer bring back. */
  ghost predicate Kept(before: Slot, after: Slot) {
    after.now == before.now && after.maybe <= before.maybe
  }

  /** Slots reachable while p is being replaced by e: p is old or new, the rest is kept. */
  ghost predicate Between(before: Slots, s: Slots, p: Path, e: Entry) {
    && Kept(before.At(Other(p)), s.At(Other(p)))
    && (s.At(p).now == before.At(p).now || s.At(p).now == e)
    && s.At(p).maybe <= before.At(p).maybe + {e}
  }

  /** The trace grew, and all of its new states are between. */
  ghost predicate Grew(oldTrace: seq<Slots>, trace: seq<Slots>, before: Slots, p: Path, e: Entry) {
    && oldTrace <= trace
    && forall k :: |oldTrace| <= k < |trace| ==> Between(before, trace[k], p, e)
  }

  ghost predicate OnlyGuarded(oldCommits: seq<Commit>, commits: seq<Commit>) {
    && oldCommits <= commits
    && forall k :: |oldCommits| <= k < |commits| ==> Guarded(commits[k])
  }

  /** Exactly one more rename happened: onto p, against this expectation, with this entry. */
  ghost predicate CommittedOnce(oldCommits: seq<Commit>, commits: seq<Commit>, p: Path, expected: Snapshot, e: Entry) {
    && |commits| == |oldCommits| + 1
    && commits[|oldCommits|].path == p
    && commits[|oldCommits|].expected == expected
    && commits[|oldCommits|].after == e
  }

  /******* Reading *******/

  datatype ReadResult = ReadFailed | Missing | Contents(data: Text, meta: Meta)

  ghost predicate Describes(r: ReadResult, e: Entry, faulted: bool) {
    match r
    case ReadFailed => faulted || e.Special?
    case Missing => e.Absent?
    case Contents(data, meta) => e.File? && data == e.data && meta == Meta(e.attr, true)
  }

  /** These bytes were read last. */
  ghost predicate LastSeen(seen: seq<Entry>, data: Text) {
    seen != [] && HoldsData(seen[|seen| - 1], data)
  }

  /** readOptionalRegularFile; `window` marks a read during which no other process acts. */
  method ReadOptional(fs: FileSystem, p: Path, window: bool) returns (r: ReadResult)
    requires fs.Traced()
    modifies fs`slots, fs`trace, fs`faults, fs`seen
    ensures fs.Traced() && fs.faults >= old(fs.faults)
    ensures r.Contents? ==> r.meta.setOwnership && LastSeen(fs.seen, r.data)
    ensures window || !fs.outsider ==> fs.slots == old(fs.slots) && fs.trace == old(fs.trace)
    ensures window || !fs.outsider ==> Describes(r, fs.slots.At(p).now, fs.faults > old(fs.faults))
  {
    if !window {
      fs.Outside();
    }
    var handle := fs.OpenReadNoFollow(p);
    if handle.NotExist? {
      return Missing;
    }
    if handle.OpenFailed? {
      return ReadFailed;
    }
    var info := fs.Observe(handle.entry, window);
    if info.None? || !info.value.File? {
      var _ := fs.Close();
      return ReadFailed;
    }
    var content := fs.Observe(handle.entry, window);
    var closed := fs.Close();
    if content.None? || !closed {
      return ReadFailed;
    }
    return Contents(content.value.data, Meta(info.value.attr, true));
  }

  /** requireSnapshot: nothing else acts from here to the rename that follows. */
  method RequireSnapshot(fs: FileSystem, p: Path, expected: Snapshot) returns (ok: bool)
    requires fs.Traced()
    modifies fs`slots, fs`trace, fs`faults, fs`seen
    ensures fs.slots == old(fs.slots) && fs.trace == old(fs.trace) && fs.faults >= old(fs.faults)
    ensures ok ==> Matches(fs.slots.At(p).now, expected)
    ensures !ok ==> fs.faults > old(fs.faults) || !Matches(fs.slots.At(p).now, expected)
  {
    var r := ReadOptional(fs, p, true);
    match r
    case ReadFailed => ok := false;
    case Missing => ok := !expected.present;
    case Contents(data, meta) => ok := expected.present && data == expected.data && meta == expected.meta;
  }

  /******* Staging *******/

  method ConfigureOwnership(fs: FileSystem, ctx: Context, id: nat, meta: Meta) returns (ok: bool)
    requires fs.Staging(id)
    modifies fs`temps, fs`faults, ctx
    ensures fs.Staging(id) && fs.faults >= old(fs.faults) && (old(ctx.done) ==> ctx.done)
    ensures !ok ==> fs.faults > old(fs.faults) || ctx.done
    ensures ok && meta.setOwnership ==> fs.temps[id].attr.uid == meta.attr.uid && fs.temps[id].attr.gid == meta.attr.gid
    ensures !meta.setOwnership ==> fs.temps == old(fs.temps)
  {
    if !meta.setOwnership {
      return true;
    }
    var stop := ctx.Check();
    if stop {
      return false;
    }
    ok := fs.Chmod(id, Mode(0, false, false, false));
    if !ok {
      return;
    }
    stop := ctx.Check();
    if stop {
      return false;
    }
    ok := fs.Chown(id, meta.attr.uid, meta.attr.gid);
  }

  /** The mode is set after the write, so bits the write cleared are there in the end. */
  method WriteAndSync(fs: FileSystem, ctx: Context, id: nat, data: Text, mode: Mode) returns (ok: bool)
    requires fs.Staging(id)
    modifies fs`temps, fs`faults, ctx
    ensures fs.Staging(id) && fs.faults >= old(fs.faults) && (old(ctx.done) ==> ctx.done)
    ensures !ok ==> fs.faults > old(fs.faults) || ctx.done
    ensures ok ==> fs.temps[id] == File(data, old(fs.temps[id].attr).(mode := mode), true)
  {
    var stop := ctx.Check();
    if stop {
      return false;
    }
    var written := fs.Write(id, data);
    if written != Some(|data|) {
      return false;
    }
    stop := ctx.Check();
    if stop {
      return false;
    }
    ok := fs.Chmod(id, mode);
    if !ok {
      return;
    }
    stop := ctx.Check();
    if stop {
      return false;
    }
    ok := fs.Sync(id);
  }

  /** The file a replacement installs: the requested bytes, and exactly the requested metadata. */
  function Staged(self: Attr, data: Text, meta: Meta): Entry {
    File(data, if meta.setOwnership then meta.attr else self.(mode := meta.attr.mode), true)
  }

  /** stageReplacement: a staged file is synced and has exactly the requested bytes and metadata. */
  method StageReplacement(fs: FileSystem, ctx: Context, data: Text, meta: Meta) returns (staged: Option<nat>)
    requires fs.Valid()
    modifies fs`temps, fs`faults, fs`stuck, ctx
    ensures fs.faults >= old(fs.faults) && (old(ctx.done) ==> ctx.done)
    ensures staged.None? ==> fs.Valid() && (fs.faults > old(fs.faults) || ctx.done)
    ensures staged.Some? ==> fs.Staging(staged.value) && fs.temps[staged.value] == Staged(fs.self, data, meta)
    ensures old(ctx.done) ==> staged.None? && fs.temps == old(fs.temps)
  {
    var stop := ctx.Check();
    if stop {
      return None;
    }
    var temp := fs.CreateTemp();
    if temp.None? {
      return None;
    }
    var id := temp.value;
    var closeAttempted := false;
    var ok := ConfigureOwnership(fs, ctx, id, meta);
    if ok {
      ok := WriteAndSync(fs, ctx, id, data, meta.attr.mode);
      if ok {
        closeAttempted := true;
        ok := fs.Close();
      }
    }
    if !ok {
      CleanupTemporary(fs, id, closeAttempted);
      return None;
    }
    return temp;
  }

  method CleanupTemporary(fs: FileSystem, id: nat, closeAttempted: bool)
    requires fs.Staging(id)
    modifies fs`temps, fs`faults, fs`stuck
    ensures fs.Valid() && fs.faults >= old(fs.faults)
  {
    if !closeAttempted {
      var _ := fs.Close();
    }
    fs.Remove(id);
  }

  /******* Committing *******/

  /** syncParentDirectory and validateReplacement. */
  method Settle(fs: FileSystem, ctx: Context, p: Path, data: Text) returns (ok: bool)
    requires fs.Traced()
    modifies fs`slots, fs`faults, fs`trace, fs`seen, ctx
    ensures fs.Traced() && fs.faults >= old(fs.faults) && (old(ctx.done) ==> ctx.done)
    ensures ok ==> LastSeen(fs.seen, data)
    ensures !fs.outsider && ok ==> fs.slots == AfterSync(old(fs.slots), p, fs.sameDirectory)
    ensures !fs.outsider && !ok ==>
              fs.slots == old(fs.slots) || fs.slots == AfterSync(old(fs.slots), p, fs.sameDirectory)
    ensures !fs.outsider ==>
              fs.trace == old(fs.trace) || (fs.trace == old(fs.trace) + [fs.slots] && |fs.trace| > |old(fs.trace)|)
    ensures !fs.outsider && !ok ==> fs.faults > old(fs.faults) || ctx.done || !HoldsData(old(fs.slots).At(p).now, data)
  {
    var stop := ctx.Check();
    if stop {
      return false;
    }
    ok := fs.OpenDirectory();
    if !ok {
      return;
    }
    stop := ctx.Check();
    if stop {
      var _ := fs.Close();
      return false;
    }
    ok := fs.SyncDirectory(p);
    var closed := fs.Close();
    if !ok || !closed {
      return false;
    }
    stop := ctx.Check();
    if stop {
      return false;
    }
    var r := ReadOptional(fs, p, false);
    ok := r.Contents? && r.data == data;
  }

  ghost predicate HoldsData(e: Entry, data: Text) {
    e.File? && e.data == data
  }

  /** commitReplacement. */
  method CommitReplacement(fs: FileSystem, ctx: Context, id: nat, p: Path, data: Text, expected: Snapshot)
    returns (renamed: bool, ok: bool)
    requires fs.Staging(id) && fs.temps[id].data == data
    modifies fs`slots, fs`temps, fs`faults, fs`stuck, fs`trace, fs`commits, fs`seen, ctx
    ensures fs.Valid() && fs.faults >= old(fs.faults) && (old(ctx.done) ==> ctx.done)
    ensures ok ==> renamed && LastSeen(fs.seen, data)
    ensures old(ctx.done) ==> !renamed
    ensures OnlyGuarded(old(fs.commits), fs.commits)
    ensures if renamed then CommittedOnce(old(fs.commits), fs.commits, p, expected, old(fs.temps[id]))
            else fs.commits == old(fs.commits)
    ensures !fs.outsider && !renamed ==> fs.slots == old(fs.slots) && fs.trace == old(fs.trace)
    ensures !fs.outsider && renamed ==> Matches(old(fs.slots).At(p).now, expected)
    ensures !fs.outsider && renamed ==> fs.slots.At(p).now == old(fs.temps[id])
    ensures !fs.outsider && ok ==> fs.slots.At(p) == Slot(old(fs.temps[id]), {old(fs.temps[id])})
    ensures !fs.outsider ==> Between(old(fs.slots), fs.slots, p, old(fs.temps[id]))
    ensures !fs.outsider ==> Grew(old(fs.trace), fs.trace, old(fs.slots), p, old(fs.temps[id]))
    ensures !fs.outsider && !ok ==>
              fs.faults > old(fs.faults) || ctx.done || !Matches(old(fs.slots).At(p).now, expected)
  {
    hide Tidy, Matches, Between, Grew, OnlyGuarded, CommittedOnce;
    ghost var s0, trace0, commits0, e := fs.slots, fs.trace, fs.commits, fs.temps[id];
    NothingGrew(trace0, commits0, s0, p, e);
    fs.Outside();
    var stop := ctx.Check();
    if stop {
      fs.Remove(id);
      return false, false;
    }
    var matched := RequireSnapshot(fs, p, expected);
    ctx.Elapse();
    if !matched {
      fs.Remove(id);
      return false, false;
    }
    stop := ctx.Check();
    if stop {
      fs.Remove(id);
      return false, false;
    }
    renamed := fs.Rename(ctx, id, p, expected);
    if !renamed {
      fs.Remove(id);
      return false, false;
    }
    RenameIsGuarded(commits0, fs.commits);
    ghost var s1, trace1 := fs.slots, fs.trace;
    fs.Outside();
    ok := Settle(fs, ctx, p, data);
    if !fs.outsider {
      RenameGrew(trace0, trace1, fs.trace, s0, s1, fs.slots, p, e, fs.sameDirectory);
    }
  }

  lemma RenameIsGuarded(c0: seq<Commit>, c1: seq<Commit>)
    requires |c1| == |c0| + 1 && c1[..|c0|] == c0 && Guarded(c1[|c0|])
    ensures OnlyGuarded(c0, c1)
    ensures CommittedOnce(c0, c1, c1[|c0|].path, c1[|c0|].expected, c1[|c0|].after)
  {
    hide Guarded;
  }

  /** The states from the rename to the end of the replacement. */
  lemma RenameGrew(t0: seq<Slots>, t1: seq<Slots>, t2: seq<Slots>, s0: Slots, s1: Slots, s2: Slots, p: Path, e: Entry,
                   sameDirectory: bool)
    requires s1 == AfterRename(s0, p, e) && t1 == t0 + [s1]
    requires s2 == s1 || s2 == AfterSync(s1, p, sameDirectory)
    requires t2 == t1 || t2 == t1 + [s2]
    ensures Between(s0, s2, p, e) && Grew(t0, t2, s0, p, e) && s2.At(p).now == e
    ensures s2 == AfterSync(s1, p, sameDirectory) ==> s2.At(p) == Slot(e, {e})
  {
    RenamedBetween(s0, s1, p, e);
    if s2 != s1 {
      SyncedBetween(s0, s1, p, e, sameDirectory);
    }
  }

  lemma RenamedBetween(s0: Slots, s1: Slots, p: Path, e: Entry)
    requires s1 == AfterRename(s0, p, e)
    ensures Between(s0, s1, p, e) && s1.At(p).now == e
  {
  }

  lemma SyncedBetween(s0: Slots, s1: Slots, p: Path, e: Entry, sameDirectory: bool)
    requires Between(s0, s1, p, e)
    ensures Between(s0, AfterSync(s1, p, sameDirectory), p, e)
    ensures AfterSync(s1, p, sameDirectory).At(p) == SettledSlot(s1.At(p))
  {
  }

  /** replaceFileIfUnchanged. */
  method ReplaceIfUnchanged(fs: FileSystem, ctx: Context, p: Path, data: Text, meta: Meta, expected: Snapshot)
    returns (renamed: bool, ok: bool)
    requires fs.Valid()
    modifies fs, ctx
    ensures fs.Valid() && fs.faults >= old(fs.faults) && (old(ctx.done) ==> ctx.done)
    ensures ok ==> renamed && LastSeen(fs.seen, data)
    ensures old(ctx.done) ==> !renamed && fs.temps == old(fs.temps)
    ensures OnlyGuarded(old(fs.commits), fs.commits)
    ensures if renamed then CommittedOnce(old(fs.commits), fs.commits, p, expected, Staged(fs.self, data, meta))
            else fs.commits == old(fs.commits)
    ensures !fs.outsider && !renamed ==> fs.slots == old(fs.slots) && fs.trace == old(fs.trace)
    ensures !fs.outsider && renamed ==> Matches(old(fs.slots).At(p).now, expected)
    ensures !fs.outsider && renamed ==> fs.slots.At(p).now == Staged(fs.self, data, meta)
    ensures !fs.outsider && ok ==> fs.slots.At(p) == Slot(Staged(fs.self, data, meta), {Staged(fs.self, data, meta)})
    ensures !fs.outsider ==> Between(old(fs.slots), fs.slots, p, Staged(fs.self, data, meta))
    ensures !fs.outsider ==> Grew(old(fs.trace), fs.trace, old(fs.slots), p, Staged(fs.self, data, meta))
    ensures !fs.outsider && !ok ==>
              fs.faults > old(fs.faults) || ctx.done || !Matches(old(fs.slots).At(p).now, expected)
  {
    hide Between, Grew, OnlyGuarded, CommittedOnce, Tidy;
    var staged := StageReplacement(fs, ctx, data, meta);
    if staged.None? {
      NothingGrew(fs.trace, fs.commits, fs.slots, p, Staged(fs.self, data, meta));
      return false, false;
    }
    renamed, ok := CommitReplacement(fs, ctx, staged.value, p, data, expected);
  }

  lemma NothingGrew(trace: seq<Slots>, commits: seq<Commit>, s: Slots, p: Path, e: Entry)
    ensures Grew(trace, trace, s, p, e) && Between(s, s, p, e) && OnlyGuarded(commits, commits)
  {
  }
}
