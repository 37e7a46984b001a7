/** The file system seen by hosts/store.go through the operations of hosts/fileops.go.

    Every operation may fail, and a rollback may run out of time; `faults` counts these failures,
    so that a claim about runs with few failures is a claim about that number.  A failed rename changes nothing
    and a successful one is atomic.  Each of the two destinations is a slot: what a reader
    sees now, and every entry that could be there after a crash.  Bytes that were not
    synced can come back torn, directory entries that were not synced can come back old.
 */
module Disk {
  import opened Basics
  import opened Markers

  datatype Mode = Mode(perm: nat, setuid: bool, setgid: bool, sticky: bool)

  datatype Attr = Attr(mode: Mode, uid: int, gid: int)

  /** fileMetadata. */
  datatype Meta = Meta(attr: Attr, setOwnership: bool)

  /** A directory entry; Special is anything that is not a regular file. */
  datatype Entry = Absent | Special | File(data: Text, attr: Attr, synced: bool)

  datatype Path = Target | Backup

  /** What a destination holds now, and what it could hold after a crash. */
  datatype SlotState = Slot(now: Entry, maybe: set<Entry>)

  type Slot = s: SlotState | s.now in s.maybe witness Slot(Absent, {Absent})

  datatype Slots = Slots(target: Slot, backup: Slot) {
    function At(p: Path): Slot {
      if p.Target? then target else backup
    }
    function With(p: Path, s: Slot): Slots {
      if p.Target? then this.(target := s) else this.(backup := s)
    }
  }

  function Other(p: Path): Path {
    if p.Target? then Backup else Target
  }

  /** fileSnapshot: what a guarded replacement expects to overwrite. */
  datatype Snapshot = Snapshot(present: bool, data: Text, meta: Meta)

  ghost predicate Matches(e: Entry, expected: Snapshot) {
    match e
    case Absent => !expected.present
    case Special => false
    case File(data, attr, _) => expected.present && data == expected.data && Meta(attr, true) == expected.meta
  }

  /** A rename that happened: what it replaced, and whether its context was done at that moment. */
  datatype Commit = Commit(path: Path, before: Entry, expected: Snapshot, after: Entry, cancelled: bool)

  ghost predicate Guarded(c: Commit) {
    Matches(c.before, c.expected) && !c.cancelled
  }

  /** Every temporary file is gone, save those in use and those whose removal failed. */
  ghost predicate Tidy(temps: seq<Entry>, stuck: set<nat>, used: set<nat>) {
    forall i :: 0 <= i < |temps| && !temps[i].Absent? ==> i in stuck || i in used
  }

  /******* Crashes *******/

  /** What an entry may look like after a crash. */
  ghost predicate Survives(e: Entry, after: Entry) {
    if e.File? && !e.synced then after.File? else after == e
  }

  ghost predicate CrashImage(s: Slot, after: Entry) {
    exists e :: e in s.maybe && Survives(e, after)
  }

  /** A crash: each destination comes back as one of the entries it may hold. */
  method Crash(s: Slots) returns (target: Entry, backup: Entry)
    ensures CrashImage(s.target, target) && CrashImage(s.backup, backup)
  {
    target := CrashSlot(s.target);
    backup := CrashSlot(s.backup);
  }

  method CrashSlot(s: Slot) returns (after: Entry)
    ensures CrashImage(s, after)
  {
    var e: Entry :| e in s.maybe;
    after := e;
    if e.File? && !e.synced {
      var data: Text, attr: Attr := *, *;
      after := File(data, attr, false);
    }
  }

  ghost predicate Settled(s: Slot) {
    s.now.File? && s.now.synced && s.maybe == {s.now}
  }

  /******* Contexts *******/

  /** A context: once done it stays done, and it may become done at any check. */
  class Context {
    var done: bool

    constructor (done: bool)
      ensures this.done == done
    {
      this.done := done;
    }

    /** Time passes, and the context may end. */
    method Elapse()
      modifies this
      ensures old(done) ==> done
    {
      if * {
        done := true;
      }
    }

    method Check() returns (stop: bool)
      modifies this
      ensures stop == done
      ensures old(done) ==> done
    {
      Elapse();
      stop := done;
    }
  }

  /******* Operations *******/

  datatype Opened = NotExist | OpenFailed | Handle(entry: Entry)

  class FileSystem {
    var slots: Slots
    var temps: seq<Entry>
    var faults: nat
    /** The temporary files whose removal failed. */
    var stuck: set<nat>
    /** Every state of the destinations so far, the present one last. */
    var trace: seq<Slots>
    ghost var commits: seq<Commit>
    /** What was read from opened files. */
    ghost var seen: seq<Entry>

    /** Whether both destinations share a parent directory. */
    const sameDirectory: bool
    /** Whether another process writes the destinations while an operation runs. */
    const outsider: bool
    /** The owner of files this process creates. */
    const self: Attr

    constructor (slots: Slots, sameDirectory: bool, outsider: bool, self: Attr)
      ensures Valid() && this.slots == slots && this.outsider == outsider && this.self == self
      ensures faults == 0 && trace == [slots] && commits == []
    {
      this.slots, this.temps, this.faults, this.trace, this.commits := slots, [], 0, [slots], [];
      this.stuck, this.seen := {}, [];
      this.sameDirectory, this.outsider, this.self := sameDirectory, outsider, self;
    }

    ghost predicate Traced()
      reads this
    {
      |trace| > 0 && trace[|trace| - 1] == slots
    }

    /** What every operation of the store leaves behind. */
    ghost predicate Valid()
      reads this
    {
      Traced() && Tidy(temps, stuck, {}) && |stuck| <= faults
    }

    /** One temporary file is in use. */
    ghost predicate Staging(id: nat)
      reads this
    {
      Traced() && IsTemp(id) && Tidy(temps, stuck, {id}) && |stuck| <= faults
    }

    ghost predicate IsTemp(id: nat)
      reads this
    {
      id < |temps| && temps[id].File?
    }

    /** Decides whether the next operation fails. */
    method Strike() returns (hit: bool)
      modifies this`faults
      ensures faults == old(faults) + if hit then 1 else 0
    {
      hit := *;
      if hit {
        faults := faults + 1;
      }
    }

    /** A rollback has run out of time. */
    method TimeOut()
      requires Valid()
      modifies this`faults
      ensures Valid() && faults == old(faults) + 1
    {
      faults := faults + 1;
    }

    /** The other process acts, if there is one. */
    method Outside()
      requires Traced()
      modifies this`slots, this`trace
      ensures Traced()
      ensures !outsider ==> slots == old(slots) && trace == old(trace)
    {
      if outsider {
        var target: Entry, backup: Entry := *, *;
        slots := Slots(Slot(target, slots.target.maybe + {target}), Slot(backup, slots.backup.maybe + {backup}));
        trace := trace + [slots];
      }
    }

    /******* Reading *******/

    method OpenReadNoFollow(p: Path) returns (r: Opened)
      modifies this`faults
      ensures faults >= old(faults)
      ensures r.NotExist? ==> slots.At(p).now == Absent && faults == old(faults)
      ensures r.OpenFailed? ==> faults > old(faults) || slots.At(p).now == Special
      ensures r.Handle? ==> r.entry == slots.At(p).now && !r.entry.Absent? && faults == old(faults)
    {
      var entry := slots.At(p).now;
      var hit := Strike();
      if hit {
        return OpenFailed;
      }
      if entry.Absent? {
        return NotExist;
      }
      var symlink: bool := *;
      if entry.Special? && symlink {
        return OpenFailed;
      }
      return Handle(entry);
    }

    /** Reads through a handle; a writer outside may have changed the opened file. */
    method Observe(entry: Entry, window: bool) returns (read: Option<Entry>)
      modifies this`faults, this`seen
      ensures faults == old(faults) + if read.None? then 1 else 0
      ensures read.Some? ==> (read.value.File? <==> entry.File?) && seen == old(seen) + [read.value]
      ensures read.Some? && (window || !outsider) ==> read.value == entry
    {
      var hit := Strike();
      if hit {
        return None;
      }
      var e := entry;
      if outsider && !window && entry.File? {
        var data: Text, attr: Attr := *, *;
        e := File(data, attr, false);
      }
      seen := seen + [e];
      return Some(e);
    }

    method Close() returns (ok: bool)
      modifies this`faults
      ensures faults == old(faults) + if ok then 0 else 1
    {
      var hit := Strike();
      ok := !hit;
    }

    /******* Temporary files *******/

    method CreateTemp() returns (id: Option<nat>)
      requires Valid()
      modifies this`temps, this`faults
      ensures faults == old(faults) + if id.None? then 1 else 0
      ensures id.None? ==> Valid()
      ensures id.Some? ==> Staging(id.value)
      ensures id.Some? ==> temps[id.value].attr.uid == self.uid && temps[id.value].attr.gid == self.gid
    {
      var hit := Strike();
      if hit {
        return None;
      }
      id := Some(|temps|);
      temps := temps + [File("", Attr(Mode(0x180, false, false, false), self.uid, self.gid), false)];
    }

    method Chmod(id: nat, mode: Mode) returns (ok: bool)
      requires Staging(id)
      modifies this`temps, this`faults
      ensures Staging(id) && faults == old(faults) + if ok then 0 else 1
      ensures ok ==> temps[id] == old(temps[id]).(attr := old(temps[id]).attr.(mode := mode))
    {
      var hit := Strike();
      if !hit {
        var e := temps[id];
        temps := temps[id := e.(attr := e.attr.(mode := mode))];
      }
      ok := !hit;
    }

    /** Changing the owner may clear the set-id bits. */
    method Chown(id: nat, uid: int, gid: int) returns (ok: bool)
      requires Staging(id)
      modifies this`temps, this`faults
      ensures Staging(id) && faults == old(faults) + if ok then 0 else 1
      ensures ok ==> temps[id].attr.uid == uid && temps[id].attr.gid == gid
    {
      var hit := Strike();
      if !hit {
        var mode := ClearedMode(temps[id].attr.mode);
        temps := temps[id := temps[id].(attr := Attr(mode, uid, gid))];
      }
      ok := !hit;
    }

    /** Writes all bytes, or stops early; either way set-id bits may be cleared. */
    method Write(id: nat, data: Text) returns (written: Option<nat>)
      requires Staging(id)
      modifies this`temps, this`faults
      ensures Staging(id)
      ensures faults == old(faults) + if written == Some(|data|) then 0 else 1
      ensures written == Some(|data|) ==> temps[id].data == data
      ensures temps[id].attr.uid == old(temps[id].attr.uid) && temps[id].attr.gid == old(temps[id].attr.gid)
    {
      var hit := Strike();
      var mode := ClearedMode(temps[id].attr.mode);
      var attr := temps[id].attr.(mode := mode);
      if !hit {
        temps := temps[id := File(data, attr, false)];
        return Some(|data|);
      }
      var partial: Text := *;
      temps := temps[id := File(partial, attr, false)];
      var noError: bool := *;
      if |partial| != |data| && noError {
        return Some(|partial|);
      }
      return None;
    }

    method ClearedMode(mode: Mode) returns (r: Mode)
      ensures r.perm == mode.perm && r.sticky == mode.sticky
    {
      r := mode;
      if * {
        r := mode.(setuid := false, setgid := false);
      }
    }

    method Sync(id: nat) returns (ok: bool)
      requires Staging(id)
      modifies this`temps, this`faults
      ensures Staging(id) && faults == old(faults) + if ok then 0 else 1
      ensures ok ==> temps[id] == old(temps[id]).(synced := true)
    {
      var hit := Strike();
      if !hit {
        temps := temps[id := temps[id].(synced := true)];
      }
      ok := !hit;
    }

    /** Removes a temporary file; if that fails it stays. */
    method Remove(id: nat)
      requires Staging(id)
      modifies this`temps, this`faults, this`stuck
      ensures Valid() && faults >= old(faults)
    {
      var hit := Strike();
      if hit {
        stuck := stuck + {id};
      } else {
        temps := temps[id := Absent];
      }
    }

    /******* Destinations *******/

    method Rename(ghost ctx: Context, id: nat, p: Path, ghost expected: Snapshot) returns (ok: bool)
      requires Staging(id)
      modifies this`slots, this`temps, this`faults, this`trace, this`commits
      ensures faults == old(faults) + if ok then 0 else 1
      ensures !ok ==> Staging(id) && slots == old(slots) && trace == old(trace) && commits == old(commits)
      ensures ok ==> Valid() && slots == AfterRename(old(slots), p, old(temps[id])) && trace == old(trace) + [slots]
      ensures ok ==>
                commits == old(commits) + [Commit(p, old(slots).At(p).now, expected, old(temps[id]), ctx.done)]
    {
      var hit := Strike();
      if !hit {
        var e := temps[id];
        commits := commits + [Commit(p, slots.At(p).now, expected, e, ctx.done)];
        slots := AfterRename(slots, p, e);
        trace := trace + [slots];
        temps := temps[id := Absent];
      }
      ok := !hit;
    }

    method OpenDirectory() returns (ok: bool)
      modifies this`faults
      ensures faults == old(faults) + if ok then 0 else 1
    {
      var hit := Strike();
      ok := !hit;
    }

    /** Syncs the parent directory of p: its entries can no longer come back old. */
    method SyncDirectory(p: Path) returns (ok: bool)
      requires Traced()
      modifies this`slots, this`faults, this`trace
      ensures Traced()
      ensures faults == old(faults) + if ok then 0 else 1
      ensures !ok ==> slots == old(slots) && trace == old(trace)
      ensures ok ==> slots == AfterSync(old(slots), p, sameDirectory) && trace == old(trace) + [slots]
    {
      var hit := Strike();
      if !hit {
        slots := AfterSync(slots, p, sameDirectory);
        trace := trace + [slots];
      }
      ok := !hit;
    }
  }

  function AfterRename(s: Slots, p: Path, e: Entry): Slots {
    s.With(p, Slot(e, s.At(p).maybe + {e}))
  }

  function SettledSlot(s: Slot): Slot {
    Slot(s.now, {s.now})
  }

  function AfterSync(s: Slots, p: Path, sameDirectory: bool): Slots {
    if sameDirectory then Slots(SettledSlot(s.target), SettledSlot(s.backup))
    else s.With(p, SettledSlot(s.At(p)))
  }
}
