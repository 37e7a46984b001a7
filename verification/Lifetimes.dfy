/** Any number of sessions of the store, each cut off by a crash and followed by a restart. */
module Lifetimes {
  import opened Basics
  import opened Markers
  import opened Render
  import opened Disk
  import opened Replacement
  import opened Transaction
  import opened Store
  import opened StoreApply
  import opened StoreRuns

  /** Nothing but the present entry can come back after a crash, and it comes back whole. */
  ghost predicate Quiet(s: Slot) {
    s.maybe == {s.now} && (s.now.File? ==> s.now.synced)
  }

  /** The entry found at the very beginning, or a whole file with valid markers and everything that the goal of
      the first Prepare has outside the section. */
  ghost predicate StandsFor(c: Config, found: Entry, goal: Entry, e: Entry) {
    e == found || (goal.File? && Intact(c, goal.data, goal.attr, e) && e.synced)
  }

  /** A backup that leads a corrupt target to the goal, or to nothing when there is none. */
  ghost predicate Backs(c: Config, goal: Entry, b: Entry) {
    && (b.File? ==> b.synced)
    && if ValidFile(c, goal) then b.File? && SameOutside(c, goal.data, b.data) else !ValidFile(c, b)
  }

  /** What holds of both files through all sessions. */
  ghost predicate Standing(c: Config, found: Entry, goal: Entry, s: Slots) {
    && (forall e :: e in s.target.maybe ==> StandsFor(c, found, goal, e))
    && (found.File? ==> found.synced)
    && (Damaged(c, found) && found in s.target.maybe ==> forall b :: b in s.backup.maybe ==> Backs(c, goal, b))
  }

  ghost predicate AllStanding(c: Config, found: Entry, goal: Entry, t0: seq<Slots>, t1: seq<Slots>) {
    t0 <= t1 && forall k :: |t0| <= k < |t1| ==> Standing(c, found, goal, t1[k])
  }

  /** The first target, and where Prepare would take it. */
  lemma StartStands(c: Config, start: Slots)
    requires Quiet(start.target) && (Damaged(c, start.target.now) ==> Quiet(start.backup))
    ensures Standing(c, start.target.now, PreparedTarget(c, ViewOf(start)), start)
  {
    hide SameOutside, Valid, MarkerFree;
    var goal := PreparedTarget(c, ViewOf(start));
    if Damaged(c, start.target.now) && ValidFile(c, start.backup.now) {
      OutsideIsReflexive(c, goal.data);
    }
  }

  /******* One session *******/

  /** The goal depends on the backup only for a corrupt target. */
  ghost predicate GoalOf(c: Config, found: Entry, goal: Entry) {
    && (!Damaged(c, found) ==> forall b :: goal == PreparedTarget(c, View(found, b)))
    && (Damaged(c, found) ==> goal == found || (ValidFile(c, goal) && goal.attr == found.attr))
  }

  lemma StartGoal(c: Config, start: Slots)
    ensures GoalOf(c, start.target.now, PreparedTarget(c, ViewOf(start)))
  {
    hide Valid, MarkerFree, AppendEmptySection;
  }

  /** Where a session's Prepare takes the target: it still stands for the same file. */
  lemma LaterGoal(c: Config, found: Entry, goal: Entry, s: Slots, e: Entry)
    requires GoodConfig(c) && Standing(c, found, goal, s) && Quiet(s.target) && GoalOf(c, found, goal)
    requires Copies(e, PreparedTarget(c, ViewOf(s))) || Copies(e, s.target.now)
    ensures StandsFor(c, found, goal, e)
  {
    hide Valid, MarkerFree, SameOutside, AppendEmptySection, GoodConfig;
    var t := s.target.now;
    assert t in s.target.maybe;
    if !Copies(e, t) && MarkerFree(c, t.data) {
      assert t == found by {
        if t != found {
          IntactIsValid(c, goal.data, goal.attr, t);
        }
      }
      GoalIsIntact(c, found, goal);
    } else if !Copies(e, t) {
      assert t == found by {
        if t != found {
          IntactIsValid(c, goal.data, goal.attr, t);
        }
      }
      assert s.backup.now in s.backup.maybe;
      assert Backs(c, goal, s.backup.now);
    }
  }

  lemma GoalIsIntact(c: Config, found: Entry, goal: Entry)
    requires GoodConfig(c) && GoalOf(c, found, goal) && found.File? && !Valid(c, found.data)
               && MarkerFree(c, found.data)
    ensures goal == File(AppendEmptySection(found.data, c.begin, c.end), found.attr, true)
    ensures Intact(c, goal.data, goal.attr, goal)
  {
    hide HasSection, Unmarked, SameOutside, AppendEmptySection, GoodMarker, GoodPrinter, GoodSorter;
    assert goal == PreparedTarget(c, View(found, found));
    AppendIsValid(found.data, c.begin, c.end);
    OutsideIsReflexive(c, goal.data);
  }

  /** Every state of a session's Prepare stands. */
  lemma PrepareStands(c: Config, found: Entry, goal: Entry, s: Slots, m: Slots)
    requires GoodConfig(c) && Standing(c, found, goal, s) && Quiet(s.target) && GoalOf(c, found, goal)
    requires Within(s.target, PreparedTarget(c, ViewOf(s)), m.target)
    requires ValidFile(c, s.target.now) ==> Kept(s.target, m.target)
    requires Damaged(c, s.target.now) ==> Kept(s.backup, m.backup)
    ensures Standing(c, found, goal, m)
  {
    hide GoodConfig, StandsFor, GoalOf, Valid, MarkerFree, Backs;
    forall e | e in m.target.maybe ensures StandsFor(c, found, goal, e) {
      if e !in s.target.maybe {
        LaterGoal(c, found, goal, s, e);
      }
    }
    if Damaged(c, found) && found in m.target.maybe && s.target.now != found {
      StandingIsValid(c, found, goal, s.target.now);
      assert false;
    }
  }

  lemma StandingIsValid(c: Config, found: Entry, goal: Entry, e: Entry)
    requires StandsFor(c, found, goal, e) && e != found
    ensures ValidFile(c, e)
  {
    IntactIsValid(c, goal.data, goal.attr, e);
  }

  /** A valid target that stands has all that the goal has outside the section. */
  lemma ValidStands(c: Config, found: Entry, goal: Entry, e: Entry)
    requires StandsFor(c, found, goal, e) && ValidFile(c, e) && GoalOf(c, found, goal)
    requires found.File? ==> found.synced
    ensures goal.File? && Intact(c, goal.data, goal.attr, e) && e.synced
  {
    hide Valid, SameOutside, MarkerFree, AppendEmptySection;
    if e == found {
      assert goal == PreparedTarget(c, View(found, found));
      OutsideIsReflexive(c, e.data);
    }
  }

  /** A target with all that the goal has outside the section stands. */
  lemma IntactStands(c: Config, found: Entry, goal: Entry, t: Entry, m: Slots)
    requires goal.File? && Intact(c, goal.data, goal.attr, t) && (found.File? ==> found.synced)
    requires IntactSlot(c, t.data, t.attr, m.target)
    ensures Standing(c, found, goal, m)
  {
    hide SameOutside, Valid, MarkerFree;
    forall e | e in m.target.maybe ensures StandsFor(c, found, goal, e) && ValidFile(c, e) {
      OutsideIsTransitive(c, goal.data, t.data, e.data);
      IntactIsValid(c, goal.data, goal.attr, e);
    }
  }

  /** One session, from start-up to a crash at any moment: Prepare and, if it succeeded, any number of Apply calls. */
  method Session(c: Config, slots: Slots, sameDirectory: bool, self: Attr, calls: seq<seq<Endpoint>>,
                 ghost found: Entry, ghost goal: Entry)
    returns (target: Entry, backup: Entry)
    requires GoodConfig(c) && Standing(c, found, goal, slots) && Quiet(slots.target) && GoalOf(c, found, goal)
    ensures StandsFor(c, found, goal, target)
    ensures var s := Slots(Slot(target, {target}), Slot(backup, {backup}));
            Standing(c, found, goal, s) && Quiet(s.target)
  {
    hide GoodConfig, Standing, GoalOf, Valid, OnlyGuarded, NothingLost, AllWithin, Within, TargetKept, BackupKept, Kept,
         CrashImage, Preserves, Tidy, PreparedTarget, PreparedView;
    var fs := new FileSystem(slots, sameDirectory, false, self);
    var ctx := new Context(false);
    var prepared := Prepare(c, fs, ctx);
    ghost var s1, trace1 := fs.slots, fs.trace;
    PrepareTraceStands(c, found, goal, slots, trace1);
    if !prepared.NotPrepared? {
      PreparedStands(c, found, goal, slots, s1);
      ApplyAll(c, fs, calls);
      ApplyTraceStands(c, found, goal, trace1, fs.trace, s1, fs.slots);
    }
    var k: int := *;
    var i := if 0 <= k < |fs.trace| then k else 0;
    StandingAt(c, found, goal, slots, trace1, fs.trace, i);
    target, backup := Crash(fs.trace[i]);
    CrashStands(c, found, goal, fs.trace[i], target, backup);
  }

  lemma PrepareTraceStands(c: Config, found: Entry, goal: Entry, s: Slots, t1: seq<Slots>)
    requires GoodConfig(c) && Standing(c, found, goal, s) && Quiet(s.target) && GoalOf(c, found, goal)
    requires AllWithin([s], t1, s.target, PreparedTarget(c, ViewOf(s)))
    requires ValidFile(c, s.target.now) ==> TargetKept([s], t1, s.target)
    requires Damaged(c, s.target.now) ==> BackupKept([s], t1, s.backup)
    ensures AllStanding(c, found, goal, [s], t1)
  {
    hide GoodConfig, Standing, GoalOf, Valid, MarkerFree, Within, Kept, PreparedTarget;
    forall k | 1 <= k < |t1| ensures Standing(c, found, goal, t1[k]) {
      PrepareStands(c, found, goal, s, t1[k]);
    }
  }

  /** After a successful Prepare the target is valid, and only valid targets can come back. */
  lemma PreparedStands(c: Config, found: Entry, goal: Entry, s: Slots, s1: Slots)
    requires GoodConfig(c) && Standing(c, found, goal, s) && Quiet(s.target) && GoalOf(c, found, goal)
    requires Within(s.target, PreparedTarget(c, ViewOf(s)), s1.target) && MirroredPair(c, s1)
    requires ValidFile(c, s.target.now) ==> Kept(s.target, s1.target)
    requires Damaged(c, s.target.now) ==> Kept(s.backup, s1.backup)
    requires !ValidFile(c, s.target.now) ==> Settled(s1.target)
    ensures goal.File? && Intact(c, goal.data, goal.attr, s1.target.now) && (found.File? ==> found.synced)
    ensures IntactSlot(c, s1.target.now.data, s1.target.now.attr, s1.target)
  {
    hide GoodConfig, GoalOf, Valid, MarkerFree, PreparedTarget, Backs, StandsFor, SameOutside;
    PrepareStands(c, found, goal, s, s1);
    assert s1.target.now in s1.target.maybe;
    ValidStands(c, found, goal, s1.target.now);
    OutsideIsReflexive(c, s1.target.now.data);
  }

  lemma ApplyTraceStands(c: Config, found: Entry, goal: Entry, t1: seq<Slots>, t2: seq<Slots>, s1: Slots, s2: Slots)
    requires goal.File? && Intact(c, goal.data, goal.attr, s1.target.now) && (found.File? ==> found.synced)
    requires IntactSlot(c, s1.target.now.data, s1.target.now.attr, s1.target)
    requires Preserves(c, t1, t2, s1, s2)
    ensures AllStanding(c, found, goal, t1, t2)
  {
    hide IntactSlot, Standing, Intact, Valid;
    IntactIsValid(c, goal.data, goal.attr, s1.target.now);
    forall k | |t1| <= k < |t2| ensures Standing(c, found, goal, t2[k]) {
      IntactStands(c, found, goal, s1.target.now, t2[k]);
    }
  }

  lemma StandingAt(c: Config, found: Entry, goal: Entry, s: Slots, t1: seq<Slots>, t2: seq<Slots>, i: nat)
    requires Standing(c, found, goal, s)
    requires AllStanding(c, found, goal, [s], t1) && (t2 == t1 || AllStanding(c, found, goal, t1, t2))
    requires i < |t2|
    ensures Standing(c, found, goal, t2[i])
  {
    hide Standing;
    assert [s][0] == s && t1[0] == s;
  }

  /** What stands, stands after a crash. */
  lemma CrashStands(c: Config, found: Entry, goal: Entry, s: Slots, t: Entry, b: Entry)
    requires Standing(c, found, goal, s) && CrashImage(s.target, t) && CrashImage(s.backup, b)
    ensures StandsFor(c, found, goal, t)
    ensures var after := Slots(Slot(t, {t}), Slot(b, {b})); Standing(c, found, goal, after) && Quiet(after.target)
  {
    hide Intact, Valid, MarkerFree, SameOutside;
    var e :| e in s.target.maybe && Survives(e, t);
    var d :| d in s.backup.maybe && Survives(d, b);
    assert StandsFor(c, found, goal, e);
  }

  /** Any number of sessions, each ended by a crash at any moment and followed by a restart, from any settled files:
      the target the last crash leaves is the one found at the very beginning, or a whole file with one valid
      ordered marker pair and every byte that the first Prepare's goal has outside the section. */
  method Lifetime(c: Config, start: Slots, sameDirectory: bool, self: Attr, sessions: seq<seq<seq<Endpoint>>>)
    returns (target: Entry)
    requires GoodConfig(c) && Quiet(start.target) && (Damaged(c, start.target.now) ==> Quiet(start.backup))
    ensures StandsFor(c, start.target.now, PreparedTarget(c, ViewOf(start)), target)
  {
    hide GoodConfig, Standing, GoalOf, Valid, PreparedTarget, MarkerFree;
    ghost var found, goal := start.target.now, PreparedTarget(c, ViewOf(start));
    StartStands(c, start);
    StartGoal(c, start);
    target := start.target.now;
    var slots := start;
    for i := 0 to |sessions|
      invariant StandsFor(c, found, goal, target)
      invariant Standing(c, found, goal, slots) && Quiet(slots.target)
    {
      var backup;
      target, backup := Session(c, slots, sameDirectory, self, sessions[i], found, goal);
      slots := Slots(Slot(target, {target}), Slot(backup, {backup}));
    }
  }

  /** From a valid target nothing is ever lost: the goal is the target itself. */
  lemma ValidStartKeeps(c: Config, start: Slots, e: Entry)
    requires ValidFile(c, start.target.now) && Quiet(start.target)
    requires StandsFor(c, start.target.now, PreparedTarget(c, ViewOf(start)), e)
    ensures Intact(c, start.target.now.data, start.target.now.attr, e)
  {
    hide SameOutside;
    OutsideIsReflexive(c, start.target.now.data);
  }
}
