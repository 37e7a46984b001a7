/** Whole runs of the store, and crashes in the middle of them. */
module StoreRuns {
  import opened Basics
  import opened Markers
  import opened Render
  import opened RenderLaws
  import opened Disk
  import opened Replacement
  import opened Transaction
  import opened Store
  import opened StoreApply

  /******* Preservation over runs *******/

  /** The entry has valid markers, and everything outside the section is as in `original`. */
  ghost predicate Intact(c: Config, original: Text, attr: Attr, e: Entry) {
    e.File? && e.attr == attr && SameOutside(c, original, e.data)
  }

  /** ... and so has everything a crash could bring back in its place. */
  ghost predicate IntactSlot(c: Config, original: Text, attr: Attr, s: Slot) {
    forall e :: e in s.maybe ==> Intact(c, original, attr, e) && e.synced
  }

  ghost predicate AllIntact(c: Config, oldTrace: seq<Slots>, trace: seq<Slots>, original: Text, attr: Attr) {
    oldTrace <= trace && forall k :: |oldTrace| <= k < |trace| ==> Intact(c, original, attr, trace[k].target.now)
  }

  ghost predicate AllIntactSlots(c: Config, oldTrace: seq<Slots>, trace: seq<Slots>, original: Text, attr: Attr) {
    oldTrace <= trace && forall k :: |oldTrace| <= k < |trace| ==> IntactSlot(c, original, attr, trace[k].target)
  }

  lemma OutsideIsTransitive(c: Config, a: Text, b: Text, d: Text)
    requires SameOutside(c, a, b) && SameOutside(c, b, d)
    ensures SameOutside(c, a, d)
  {
  }

  lemma SafeIsIntact(c: Config, s: Slots, start: Slots, original: Text, proposed: Text)
    requires start.target.now.File? && Intact(c, original, start.target.now.attr, start.target.now)
    requires SameOutside(c, start.target.now.data, proposed)
    requires Safe(s, start, start.target.now.data, proposed, start.target.now.attr)
    ensures Intact(c, original, start.target.now.attr, s.target.now)
    ensures IntactSlot(c, original, start.target.now.attr, start.target) ==>
              IntactSlot(c, original, start.target.now.attr, s.target)
  {
    hide SameOutside;
    OutsideIsTransitive(c, original, start.target.now.data, proposed);
  }

  /** What any number of Apply calls keeps: from a valid target, every later state has one valid marker pair, all
      bytes outside the section and the metadata, and so has everything a crash could bring back; any other
      target is left alone. */
  ghost predicate Preserves(c: Config, t0: seq<Slots>, t1: seq<Slots>, s0: Slots, s1: Slots) {
    && t0 <= t1
    && if ValidFile(c, s0.target.now) then
         var original, attr := s0.target.now.data, s0.target.now.attr;
         && AllIntact(c, t0, t1, original, attr) && Intact(c, original, attr, s1.target.now)
         && (IntactSlot(c, original, attr, s0.target) ==>
               AllIntactSlots(c, t0, t1, original, attr) && IntactSlot(c, original, attr, s1.target))
       else t1 == t0 && s1 == s0
  }

  lemma PreservesNothing(c: Config, trace: seq<Slots>, s: Slots)
    ensures Preserves(c, trace, trace, s, s)
  {
    hide SameOutside;
    if ValidFile(c, s.target.now) {
      OutsideIsReflexive(c, s.target.now.data);
    }
  }

  lemma PreservesAppend(c: Config, t0: seq<Slots>, t1: seq<Slots>, t2: seq<Slots>, s0: Slots, s1: Slots, s2: Slots)
    requires Preserves(c, t0, t1, s0, s1) && Preserves(c, t1, t2, s1, s2)
    ensures Preserves(c, t0, t2, s0, s2)
  {
    hide Intact, IntactSlot, Valid;
    if ValidFile(c, s0.target.now) {
      var original, attr := s0.target.now.data, s0.target.now.attr;
      IntactIsValid(c, original, attr, s1.target.now);
      var middle := s1.target.now.data;
      Rebase(c, original, middle, attr, s1.target.now, s2.target);
      RebaseSlot(c, middle, original, attr, s1.target);
      forall k | |t1| <= k < |t2|
        ensures Intact(c, original, attr, t2[k].target.now)
        ensures IntactSlot(c, middle, attr, t2[k].target) ==> IntactSlot(c, original, attr, t2[k].target)
      {
        Rebase(c, original, middle, attr, s1.target.now, t2[k].target);
      }
    }
  }

  /** What is intact against a later text is intact against the earlier one. */
  lemma Rebase(c: Config, original: Text, middle: Text, attr: Attr, m: Entry, s: Slot)
    requires Intact(c, original, attr, m) && m.data == middle
    ensures Intact(c, middle, attr, s.now) ==> Intact(c, original, attr, s.now)
    ensures IntactSlot(c, middle, attr, s) ==> IntactSlot(c, original, attr, s)
  {
    hide SameOutside;
    forall e | Intact(c, middle, attr, e) ensures Intact(c, original, attr, e) {
      OutsideIsTransitive(c, original, middle, e.data);
    }
  }

  lemma RebaseSlot(c: Config, middle: Text, original: Text, attr: Attr, s: Slot)
    requires Intact(c, original, attr, s.now) && s.now.data == middle
    ensures IntactSlot(c, original, attr, s) ==> IntactSlot(c, middle, attr, s)
  {
    hide SameOutside;
    OutsideIsSymmetric(c, original, middle);
    forall e | Intact(c, original, attr, e) ensures Intact(c, middle, attr, e) {
      OutsideIsTransitive(c, middle, original, e.data);
    }
  }

  /** One Apply keeps the target intact, in every state and under every crash. */
  lemma ApplyKeeps(c: Config, t0: seq<Slots>, t1: seq<Slots>, start: Slots, s: Slots, body: Text)
    requires GoodBody(body, c.begin, c.end) && ApplySafe(c, t0, t1, start, s, body)
    ensures Preserves(c, t0, t1, start, s)
  {
    hide SameOutside, Safe, Spliced, GoodBody, IntactSlot, Intact, Valid, RetainedFirst;
    var original, attr := start.target.now.data, start.target.now.attr;
    var proposed := Spliced(c, original, body);
    StartIsIntact(c, start);
    SplicedKeeps(c, original, body);
    SafeIsIntact(c, s, start, original, proposed);
    forall k | |t0| <= k < |t1|
      ensures Intact(c, original, attr, t1[k].target.now)
      ensures IntactSlot(c, original, attr, start.target) ==> IntactSlot(c, original, attr, t1[k].target)
    {
      SafeIsIntact(c, t1[k], start, original, proposed);
    }
  }

  lemma IntactIsValid(c: Config, original: Text, attr: Attr, e: Entry)
    requires Intact(c, original, attr, e)
    ensures ValidFile(c, e) && e.attr == attr
  {
  }

  /** An Apply in the middle of a run. */
  method ApplyOnce(c: Config, fs: FileSystem, ctx: Context, endpoints: seq<Endpoint>) returns (out: Outcome)
    requires GoodConfig(c) && fs.Valid()
    modifies fs, ctx
    ensures fs.Valid() && fs.faults >= old(fs.faults) && (old(ctx.done) ==> ctx.done)
    ensures OnlyGuarded(old(fs.commits), fs.commits) && NothingLost(c, old(fs.commits), fs.commits)
    ensures !fs.outsider ==> Preserves(c, old(fs.trace), fs.trace, old(fs.slots), fs.slots)
    ensures !fs.outsider && out.Done? ==> InStep(c, fs.slots, endpoints)
    ensures !fs.outsider && !out.Done? && Renderable(c, endpoints) && Appliable(c, old(fs.slots)) ==>
              Troubled(fs.faults, old(fs.faults), ctx.done)
  {
    hide OnlyGuarded, NothingLost, AllSafe, Safe, Valid, GoodMarkers, GoodPrinter, GoodSorter, Preserves, Spliced,
         ApplySafe, Tidy, AllValid, ValidPart, GoodBody, BodyFor;
    ghost var s0, trace0 := fs.slots, fs.trace;
    PreservesNothing(c, trace0, s0);
    out := Apply(c, fs, ctx, endpoints);
    if !fs.outsider && Renderable(c, endpoints) && ValidFile(c, s0.target.now) {
      BodyIsGood(c, endpoints);
      ApplyKeeps(c, trace0, fs.trace, s0, fs.slots, BodyFor(c, endpoints));
      if out.Done? {
        SplicedKeeps(c, s0.target.now.data, BodyFor(c, endpoints));
      }
    }
  }

  /** Nothing about the two files stands in the way of an Apply. */
  ghost predicate Appliable(c: Config, s: Slots) {
    ValidFile(c, s.target.now) && !s.backup.now.Special?
  }

  /** The hosts file is in step with the endpoints: the managed body is their rendering, and the backup the same. */
  ghost predicate InStep(c: Config, s: Slots, endpoints: seq<Endpoint>) {
    && MirroredPair(c, s)
    && Renderable(c, endpoints)
    && BodyOf(c, s.target.now.data) == BodyFor(c, endpoints)
  }

  /** Any number of Apply calls, with any endpoints, faults and cancellations. */
  method ApplyAll(c: Config, fs: FileSystem, calls: seq<seq<Endpoint>>)
    requires GoodConfig(c) && fs.Valid()
    modifies fs
    ensures fs.Valid()
    ensures OnlyGuarded(old(fs.commits), fs.commits) && NothingLost(c, old(fs.commits), fs.commits)
    ensures !fs.outsider ==> Preserves(c, old(fs.trace), fs.trace, old(fs.slots), fs.slots)
  {
    hide OnlyGuarded, NothingLost, GoodConfig, Preserves, InStep, Tidy;
    ghost var s0, trace0, commits0 := fs.slots, fs.trace, fs.commits;
    GuardedNothing(commits0);
    NothingLostYet(c, commits0);
    PreservesNothing(c, trace0, s0);
    for i := 0 to |calls|
      invariant fs.Valid()
      invariant OnlyGuarded(commits0, fs.commits) && NothingLost(c, commits0, fs.commits)
      invariant !fs.outsider ==> Preserves(c, trace0, fs.trace, s0, fs.slots)
    {
      ghost var s1, trace1, commits1 := fs.slots, fs.trace, fs.commits;
      var ctx := new Context(false);
      var _ := ApplyOnce(c, fs, ctx, calls[i]);
      if !fs.outsider {
        PreservesAppend(c, trace0, trace1, fs.trace, s0, s1, fs.slots);
      }
      GuardedAppend(commits0, commits1, fs.commits);
      LostNothingAppend(c, commits0, commits1, fs.commits);
    }
  }

  lemma LostNothingAppend(c: Config, c0: seq<Commit>, c1: seq<Commit>, c2: seq<Commit>)
    requires NothingLost(c, c0, c1) && NothingLost(c, c1, c2)
    ensures NothingLost(c, c0, c2)
  {
    hide KeepsOutside;
  }

  lemma StartIsIntact(c: Config, s: Slots)
    requires ValidFile(c, s.target.now)
    ensures Intact(c, s.target.now.data, s.target.now.attr, s.target.now)
    ensures Settled(s.target) ==> IntactSlot(c, s.target.now.data, s.target.now.attr, s.target)
  {
    hide SameOutside;
    OutsideIsReflexive(c, s.target.now.data);
  }

  /******* Crash convergence *******/

  /** A crash during an Apply on a settled valid target leaves the old or the proposed bytes, whole. */
  lemma CrashedTarget(c: Config, start: Slots, s: Slots, body: Text, t: Entry)
    requires ValidFile(c, start.target.now) && Settled(start.target)
    requires Safe(s, start, start.target.now.data, Spliced(c, start.target.now.data, body), start.target.now.attr)
    requires CrashImage(s.target, t)
    ensures || Holds(t, start.target.now.data, start.target.now.attr)
            || Holds(t, Spliced(c, start.target.now.data, body), start.target.now.attr)
  {
  }

  lemma CrashedBackup(start: Slots, s: Slots, current: Text, proposed: Text, attr: Attr, b: Entry)
    requires Safe(s, start, current, proposed, attr)
    requires Special !in start.backup.maybe
    requires CrashImage(s.backup, b)
    ensures !b.Special?
  {
  }

  function Bytes(e: Entry): Option<Text> {
    if e.File? then Some(e.data) else None
  }

  /** Preparing and applying converge to the same bytes from the old text and from the proposed one. */
  lemma Converges(c: Config, t: Entry, b: Entry, body: Text)
    requires ValidFile(c, t) && !b.Special? && GoodBody(body, c.begin, c.end)
    ensures var v := AppliedView(c, PreparedView(c, View(t, b)), body);
            Bytes(v.target) == Bytes(v.backup) == Some(Spliced(c, t.data, body))
  {
    hide HasSection, Spliced, GoodBody;
  }

  /** Crash convergence: stop Apply in any of its states, restart after the crash, and a fault-free
      Prepare and Apply end with the bytes of an uninterrupted run. */
  lemma CrashConverges(c: Config, start: Slots, s: Slots, body: Text, t: Entry, b: Entry)
    requires ValidFile(c, start.target.now) && Settled(start.target) && Special !in start.backup.maybe
    requires GoodBody(body, c.begin, c.end)
    requires Safe(s, start, start.target.now.data, Spliced(c, start.target.now.data, body), start.target.now.attr)
    requires CrashImage(s.target, t) && CrashImage(s.backup, b)
    ensures t.File? && (t.data == start.target.now.data || t.data == Spliced(c, start.target.now.data, body))
    ensures var restarted := AppliedView(c, PreparedView(c, View(t, b)), body);
            var uninterrupted := AppliedView(c, PreparedView(c, ViewOf(start)), body);
            Bytes(restarted.target) == Bytes(uninterrupted.target)
                && Bytes(restarted.backup) == Bytes(uninterrupted.backup)
  {
    hide Safe, CrashImage, Valid, Spliced, GoodBody, AppliedView, PreparedView;
    var current := start.target.now.data;
    CrashedTarget(c, start, s, body, t);
    CrashedBackup(start, s, current, Spliced(c, current, body), start.target.now.attr, b);
    SplicedKeeps(c, current, body);
    SplicedIsValid(c, current, Spliced(c, current, body));
    SplicedTwice(c, current, body, body);
    Converges(c, t, b, body);
    Converges(c, start.target.now, start.backup.now, body);
  }

  lemma SplicedIsValid(c: Config, a: Text, b: Text)
    requires SameOutside(c, a, b)
    ensures Valid(c, b)
  {
  }

  /******* A whole life of the file *******/

  /** The target is as it was found, or has valid markers and all that the goal of Prepare has outside the section. */
  ghost predicate Stays(c: Config, found: Entry, goal: Entry, e: Entry) {
    Resembles(e, found) || (goal.File? && Intact(c, goal.data, goal.attr, e))
  }

  ghost predicate AllStay(c: Config, found: Entry, goal: Entry, t0: seq<Slots>, t1: seq<Slots>) {
    t0 <= t1 && forall k :: |t0| <= k < |t1| ==> Stays(c, found, goal, t1[k].target.now)
  }

  /** What Prepare shows stays. */
  lemma WithinStays(c: Config, s: Slots, m: Slot)
    requires GoodConfig(c) && Within(s.target, PreparedTarget(c, ViewOf(s)), m)
    ensures Stays(c, s.target.now, PreparedTarget(c, ViewOf(s)), m.now)
    ensures ValidFile(c, m.now) ==>
              var goal := PreparedTarget(c, ViewOf(s)); goal.File? && Intact(c, goal.data, goal.attr, m.now)
  {
    hide HasSection, Unmarked, SameOutside, AppendEmptySection, GoodMarker, GoodPrinter, GoodSorter;
    var found, goal := s.target.now, PreparedTarget(c, ViewOf(s));
    if goal.File? && goal != found {
      if MarkerFree(c, found.data) {
        AppendIsValid(found.data, c.begin, c.end);
      }
      OutsideIsReflexive(c, goal.data);
    } else if ValidFile(c, m.now) {
      OutsideIsReflexive(c, m.now.data);
    }
  }

  lemma PrepareStays(c: Config, s: Slots, t0: seq<Slots>, t1: seq<Slots>)
    requires GoodConfig(c) && AllWithin(t0, t1, s.target, PreparedTarget(c, ViewOf(s)))
    ensures AllStay(c, s.target.now, PreparedTarget(c, ViewOf(s)), t0, t1)
  {
    hide GoodConfig, Within, PreparedTarget, Stays;
    forall k | |t0| <= k < |t1| ensures Stays(c, s.target.now, PreparedTarget(c, ViewOf(s)), t1[k].target.now) {
      WithinStays(c, s, t1[k].target);
    }
  }

  /** ... and so does everything any number of Apply calls makes of it. */
  lemma ApplyStays(c: Config, s: Slots, s1: Slots, s2: Slots, t1: seq<Slots>, t2: seq<Slots>)
    requires GoodConfig(c) && Within(s.target, PreparedTarget(c, ViewOf(s)), s1.target)
    requires Preserves(c, t1, t2, s1, s2)
    ensures AllStay(c, s.target.now, PreparedTarget(c, ViewOf(s)), t1, t2)
  {
    hide GoodConfig, Within, PreparedTarget, Valid, Intact, IntactSlot;
    var goal := PreparedTarget(c, ViewOf(s));
    WithinStays(c, s, s1.target);
    if ValidFile(c, s1.target.now) {
      IntactIsValid(c, goal.data, goal.attr, s1.target.now);
      forall k | |t1| <= k < |t2| ensures Stays(c, s.target.now, goal, t2[k].target.now) {
        Rebase(c, goal.data, s1.target.now.data, goal.attr, s1.target.now, t2[k].target);
      }
    }
  }

  lemma StayAppend(c: Config, found: Entry, goal: Entry, t0: seq<Slots>, t1: seq<Slots>, t2: seq<Slots>)
    requires AllStay(c, found, goal, t0, t1) && AllStay(c, found, goal, t1, t2)
    ensures AllStay(c, found, goal, t0, t2)
  {
    hide Stays;
  }
}
