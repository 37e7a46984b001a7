/** Apply and Regenerate of hosts/store.go. */
module StoreApply {
  import opened Basics
  import opened Baseline
  import opened Markers
  import opened Render
  import opened RenderLaws
  import opened Disk
  import opened Replacement
  import opened Transaction
  import opened Store

  /** The text with its managed body replaced. */
  ghost function Spliced(c: Config, data: Text, body: Text): Text {
    if Valid(c, data) && Fits(data, SectionOf(data, c.begin, c.end))
    then Splice(data, SectionOf(data, c.begin, c.end), body)
    else data
  }

  /** Both texts have valid markers, and agree through BEGIN and from END onward. */
  ghost predicate SameOutside(c: Config, a: Text, b: Text) {
    && Valid(c, a) && Valid(c, b)
    && var s, t := SectionOf(a, c.begin, c.end), SectionOf(b, c.begin, c.end);
       Fits(a, s) && Fits(b, t) && a[..s.beginEnd] == b[..t.beginEnd] && a[s.endStart..] == b[t.endStart..]
  }

  ghost function BodyOf(c: Config, data: Text): Text {
    if Valid(c, data) && Fits(data, SectionOf(data, c.begin, c.end))
    then data[SectionOf(data, c.begin, c.end).beginEnd..SectionOf(data, c.begin, c.end).endStart]
    else ""
  }

  /** Splicing a good body keeps everything outside, and the body is the one written. */
  lemma SplicedKeeps(c: Config, data: Text, body: Text)
    requires Valid(c, data) && GoodBody(body, c.begin, c.end)
    ensures SameOutside(c, data, Spliced(c, data, body)) && BodyOf(c, Spliced(c, data, body)) == body
  {
    hide IsSection, HasSection;
    var s := SectionOf(data, c.begin, c.end);
    SectionCuts(data, c.begin, c.end, s);
    SpliceRelocates(data, c.begin, c.end, s, body);
    SectionIsUnique(Splice(data, s, body), c.begin, c.end, Relocated(s, |body|));
  }

  /** Splicing twice is splicing once. */
  lemma SplicedTwice(c: Config, data: Text, first: Text, second: Text)
    requires Valid(c, data) && GoodBody(first, c.begin, c.end)
    ensures Spliced(c, Spliced(c, data, first), second) == Spliced(c, data, second)
  {
    hide IsSection, HasSection, Splice;
    var s := SectionOf(data, c.begin, c.end);
    SectionCuts(data, c.begin, c.end, s);
    SpliceRelocates(data, c.begin, c.end, s, first);
    SpliceTwice(data, s, first, second);
    SectionIsUnique(Splice(data, s, first), c.begin, c.end, Relocated(s, |first|));
  }

  lemma OutsideIsReflexive(c: Config, a: Text)
    requires Valid(c, a)
    ensures SameOutside(c, a, a)
  {
    SectionCuts(a, c.begin, c.end, SectionOf(a, c.begin, c.end));
  }

  /** A rename of the target that keeps every byte outside the section, and the metadata, of what it replaced. */
  ghost predicate KeepsOutside(c: Config, m: Commit) {
    m.before.File? && m.after.File? && m.before.attr == m.after.attr && SameOutside(c, m.before.data, m.after.data)
  }

  ghost predicate NothingLost(c: Config, oldCommits: seq<Commit>, commits: seq<Commit>) {
    && oldCommits <= commits
    && forall k :: |oldCommits| <= k < |commits| && commits[k].path.Target? ==> KeepsOutside(c, commits[k])
  }

  lemma ExchangesLoseNothing(c: Config, c0: seq<Commit>, c1: seq<Commit>, current: Text, proposed: Text, attr: Attr)
    requires OnlyExchanges(c0, c1, current, proposed, attr) && SameOutside(c, current, proposed)
    ensures NothingLost(c, c0, c1)
  {
    hide SameOutside;
    OutsideIsSymmetric(c, current, proposed);
  }

  lemma OutsideIsSymmetric(c: Config, a: Text, b: Text)
    requires SameOutside(c, a, b)
    ensures SameOutside(c, b, a)
  {
  }

  lemma NothingLostYet(c: Config, commits: seq<Commit>)
    ensures NothingLost(c, commits, commits)
  {
  }

  /******* Apply *******/

  /** The outcome of Apply on two files, when nothing fails. */
  ghost function AppliedView(c: Config, v: View, body: Text): View {
    if !ValidFile(c, v.target) || v.backup.Special? then v
    else
      ReplacedView(v, v.target.data, Spliced(c, v.target.data, body), v.target.attr)
  }

  /** The same, from the text that was found to the one proposed. */
  function ReplacedView(v: View, current: Text, proposed: Text, attr: Attr): View {
    if proposed == current then v.(backup := Mirrored(v.backup, current, attr))
    else View(File(proposed, attr, true), Mirrored(Mirrored(v.backup, current, attr), proposed, attr))
  }

  /** The endpoints can be rendered. */
  predicate Renderable(c: Config, endpoints: seq<Endpoint>) {
    ValidPart(c.defaultNetwork) && AllValid(endpoints)
  }

  /** The body that Apply writes for the endpoints. */
  ghost function BodyFor(c: Config, endpoints: seq<Endpoint>): Text {
    TextOf(endpoints, c.defaultNetwork, c.show, c.arrange)
  }

  lemma BodyIsGood(c: Config, endpoints: seq<Endpoint>)
    requires GoodConfig(c) && Renderable(c, endpoints)
    ensures GoodBody(BodyFor(c, endpoints), c.begin, c.end)
    ensures Renders(endpoints, c.defaultNetwork, c.show, BodyFor(c, endpoints))
  {
    hide GoodSorter, GoodPrinter, GoodMarkers, AllValid, ValidPart, TextOf, Renders, GoodBody;
    TextRenders(endpoints, c.defaultNetwork, c.show, c.arrange);
    RenderedBodyIsGood(endpoints, c.defaultNetwork, c.show, BodyFor(c, endpoints), c.begin, c.end);
  }

  /** The states of an Apply on a valid target, from the text it found to the text it proposes. */
  ghost predicate ApplySafe(c: Config, oldTrace: seq<Slots>, trace: seq<Slots>, start: Slots, s: Slots, body: Text) {
    && ValidFile(c, start.target.now)
    && var current, attr := start.target.now.data, start.target.now.attr;
       AllSafe(oldTrace, trace, start, current, Spliced(c, current, body), attr)
       && Safe(s, start, current, Spliced(c, current, body), attr)
  }

  /** How an Apply on a valid target ended. */
  ghost predicate ApplySettles(c: Config, out: Outcome, start: Slots, s: Slots, body: Text) {
    && ValidFile(c, start.target.now)
    && var current, attr := start.target.now.data, start.target.now.attr;
       || Settles(out, start, s, current, Spliced(c, current, body), attr)
       || (out.Done? && s.target.now == start.target.now)
  }

  /** Apply. */
  method Apply(c: Config, fs: FileSystem, ctx: Context, endpoints: seq<Endpoint>) returns (out: Outcome)
    requires GoodConfig(c) && fs.Valid()
    modifies fs, ctx
    ensures fs.Valid() && fs.faults >= old(fs.faults) && (old(ctx.done) ==> ctx.done)
    ensures OnlyGuarded(old(fs.commits), fs.commits) && NothingLost(c, old(fs.commits), fs.commits)
    ensures out.Done? ==> Renderable(c, endpoints)
    ensures !fs.outsider && out.Done? ==>
              MirroredPair(c, fs.slots)
              && ViewOf(fs.slots) == AppliedView(c, ViewOf(old(fs.slots)), BodyFor(c, endpoints))
    ensures !fs.outsider ==> OwnMetadata(old(fs.slots), fs.slots)
    ensures !fs.outsider && (!Renderable(c, endpoints) || !ValidFile(c, old(fs.slots).target.now)) ==>
              out.Refused? && fs.slots == old(fs.slots) && fs.trace == old(fs.trace)
    ensures !fs.outsider && Renderable(c, endpoints) && ValidFile(c, old(fs.slots).target.now) ==>
              ApplySafe(c, old(fs.trace), fs.trace, old(fs.slots), fs.slots, BodyFor(c, endpoints))
              && ApplySettles(c, out, old(fs.slots), fs.slots, BodyFor(c, endpoints))
              && Accounts(out, fs.faults - old(fs.faults), ctx.done, old(fs.slots).backup.now.Special?)
  {
    hide OnlyGuarded, NothingLost, OnlyExchanges, SameOutside, AllSafe, Safe, GoodPrinter, GoodSorter,
         GoodMarkers, HasSection, Spliced, Renders, AllValid, ValidPart, GoodBody, Tidy, TextOf;
    NothingLostYet(c, fs.commits);
    GuardedNothing(fs.commits);
    ghost var s0, trace0, commits0 := fs.slots, fs.trace, fs.commits;
    ghost var body := BodyFor(c, endpoints);
    if ValidFile(c, s0.target.now) {
      StartIsSafe(fs.trace, s0, s0.target.now.data, Spliced(c, s0.target.now.data, body), s0.target.now.attr);
    }
    var stop := ctx.Check();
    if stop {
      return Refused;
    }
    var target := ReadOptional(fs, Target, false);
    if !target.Contents? {
      return Refused;
    }
    var current, meta := target.data, target.meta;
    var scan := LocateMarkers(current, c.begin, c.end);
    if !scan.ValidMarkers? {
      return Refused;
    }
    var rendered := RenderEndpoints(endpoints, c.defaultNetwork, c.show, c.arrange);
    if rendered.Rejected? {
      return Refused;
    }
    BodyIsGood(c, endpoints);
    var proposed := ProposeText(c, current, scan.section, rendered.text);
    out := Refused;
    var valid := RequireValidMarkers(c, proposed);
    if valid {
      out := ReplaceText(fs, ctx, current, proposed, meta);
      ExchangesLoseNothing(c, commits0, fs.commits, current, proposed, meta.attr);
    }
  }

  /** replaceManagedSection on a good body: the result always passes the marker check. */
  method ProposeText(c: Config, current: Text, section: Section, body: Text) returns (proposed: Text)
    requires IsSection(current, c.begin, c.end, section) && GoodBody(body, c.begin, c.end)
    ensures proposed == Spliced(c, current, body) && SameOutside(c, current, proposed)
    ensures Valid(c, proposed) && Valid(c, current)
  {
    hide IsSection, HasSection, GoodBody;
    SectionIsUnique(current, c.begin, c.end, section);
    SectionCuts(current, c.begin, c.end, section);
    proposed := ReplaceManagedSection(current, section, body);
    SplicedKeeps(c, current, body);
    assert Valid(c, proposed);
  }

  /** The last part of Apply: an unchanged text needs only its mirror. */
  method ReplaceText(fs: FileSystem, ctx: Context, current: Text, proposed: Text, meta: Meta) returns (out: Outcome)
    requires fs.Valid() && meta.setOwnership
    modifies fs, ctx
    ensures fs.Valid() && fs.faults >= old(fs.faults) && (old(ctx.done) ==> ctx.done)
    ensures OnlyGuarded(old(fs.commits), fs.commits)
    ensures OnlyExchanges(old(fs.commits), fs.commits, current, proposed, meta.attr)
    ensures Steady(fs.outsider, old(fs.slots), current, meta.attr) && out.Done? ==>
              ViewOf(fs.slots) == ReplacedView(ViewOf(old(fs.slots)), current, proposed, meta.attr)
              && HoldsData(fs.slots.backup.now, proposed)
    ensures !fs.outsider ==> OwnAttr(old(fs.slots).backup.now, fs.slots.backup.now, meta.attr)
    ensures Steady(fs.outsider, old(fs.slots), current, meta.attr) ==>
              || Settles(out, old(fs.slots), fs.slots, current, proposed, meta.attr)
              || (out.Done? && fs.slots.target.now == old(fs.slots).target.now)
    ensures Steady(fs.outsider, old(fs.slots), current, meta.attr) ==>
              AllSafe(old(fs.trace), fs.trace, old(fs.slots), current, proposed, meta.attr)
              && Safe(fs.slots, old(fs.slots), current, proposed, meta.attr)
    ensures Steady(fs.outsider, old(fs.slots), current, meta.attr) ==>
              Accounts(out, fs.faults - old(fs.faults), ctx.done, old(fs.slots).backup.now.Special?)
  {
    hide OnlyGuarded, OnlyExchanges, OnlyBackups, EverySafe, RetainedFirst, AllShow, Safe, Tidy;
    ghost var start, trace := fs.slots, fs.trace;
    if current == proposed {
      var retained := RetainCurrent(fs, ctx, current, proposed, meta, meta);
      BackupsExchangeNothing(old(fs.commits), fs.commits, current, proposed, meta.attr);
      if Steady(fs.outsider, start, current, meta.attr) {
        ShownFirst(trace, fs.trace, start, current);
      }
      out := if retained then Done else Refused;
    } else {
      out := ApplyReplacement(fs, ctx, current, proposed, meta, meta);
    }
  }

  /******* Regenerate *******/

  function DefaultMeta(self: Attr): Meta {
    Meta(self.(mode := Mode(0x1a4, false, false, false)), true)
  }

  /** A replaced file keeps its metadata; a created one gets the default. */
  ghost predicate KeepsAttr(before: Entry, after: Entry, default: Attr) {
    after.File? && after.attr == if before.File? then before.attr else default
  }

  /** Regenerate can succeed: a valid host name, markers of some section, and no special file in the way. */
  ghost predicate Regenerable(c: Config, s: Slots, hostname: Option<string>) {
    && hostname.Some? && ValidPart(hostname.value)
    && (exists name :: FromSection(c.begin, c.end, name))
    && !s.target.now.Special? && !s.backup.now.Special?
  }

  /** The baseline with the metadata it is installed with. */
  function RegeneratedTarget(c: Config, found: Entry, self: Attr, hostname: string): Entry {
    File(FreshHostsFile(hostname, c.begin, c.end), if found.File? then found.attr else DefaultMeta(self).attr, true)
  }

  /** Regenerate; the host name is what the system answered, if it answered. */
  method Regenerate(c: Config, fs: FileSystem, ctx: Context, hostname: Option<string>) returns (ok: bool)
    requires fs.Valid()
    modifies fs, ctx
    ensures fs.Valid() && fs.faults >= old(fs.faults) && (old(ctx.done) ==> ctx.done)
    ensures OnlyGuarded(old(fs.commits), fs.commits)
    ensures ok ==> hostname.Some? && ValidPart(hostname.value)
    ensures !fs.outsider && ok ==>
              MirroredPair(c, fs.slots)
              && fs.slots.target.now.data == FreshHostsFile(hostname.value, c.begin, c.end)
    ensures !fs.outsider && ok ==>
              KeepsAttr(old(fs.slots).target.now, fs.slots.target.now, DefaultMeta(fs.self).attr) &&
              KeepsAttr(old(fs.slots).backup.now, fs.slots.backup.now, DefaultMeta(fs.self).attr)
    ensures !fs.outsider && ok && !old(fs.slots).target.now.File? ==>
              fs.slots.target.now.attr == Attr(Mode(0x1a4, false, false, false), fs.self.uid, fs.self.gid)
    ensures !fs.outsider && ok && !old(fs.slots).backup.now.File? ==>
              fs.slots.backup.now.attr == Attr(Mode(0x1a4, false, false, false), fs.self.uid, fs.self.gid)
    ensures !fs.outsider && !ok && Regenerable(c, old(fs.slots), hostname) ==>
              Troubled(fs.faults, old(fs.faults), ctx.done)
    ensures !fs.outsider && hostname.Some? ==>
              AllWithin(old(fs.trace), fs.trace, old(fs.slots).target,
                        RegeneratedTarget(c, old(fs.slots).target.now, fs.self, hostname.value))
    ensures !fs.outsider && hostname.None? ==> fs.slots == old(fs.slots) && fs.trace == old(fs.trace)
  {
    hide OnlyGuarded, AllWithin, Within, FreshHostsFile, ValidPart, HasSection, FromSection, Tidy;
    GuardedNothing(fs.commits);
    var stop := ctx.Check();
    if hostname.None? {
      return false;
    }
    WithinItself(fs.trace, fs.slots.target, RegeneratedTarget(c, fs.slots.target.now, fs.self, hostname.value));
    if stop || !ValidPart(hostname.value) {
      return false;
    }
    var baseline := FreshHostsFile(hostname.value, c.begin, c.end);
    if exists name :: FromSection(c.begin, c.end, name) {
      ghost var name :| FromSection(c.begin, c.end, name);
      BaselineIsValid(hostname.value, c.begin, c.end, name);
    }
    var valid := RequireValidMarkers(c, baseline);
    if !valid {
      return false;
    }
    var target := ReadOptional(fs, Target, false);
    if target.ReadFailed? {
      return false;
    }
    if target.Contents? {
      var sound := RequireValidMarkers(c, target.data);
      if sound {
        ok := RegenerateValid(c, fs, ctx, target.data, baseline, target.meta);
        return;
      }
    }
    ok := RegenerateCorrupt(c, fs, ctx, target, baseline);
  }

  /** Over a valid target: the same transaction as Apply. */
  method RegenerateValid(c: Config, fs: FileSystem, ctx: Context, current: Text, baseline: Text, meta: Meta)
    returns (ok: bool)
    requires fs.Valid() && meta.setOwnership && Valid(c, baseline)
    modifies fs, ctx
    ensures fs.Valid() && fs.faults >= old(fs.faults) && (old(ctx.done) ==> ctx.done)
    ensures OnlyGuarded(old(fs.commits), fs.commits)
    ensures Steady(fs.outsider, old(fs.slots), current, meta.attr) && !ok ==>
              Troubled(fs.faults, old(fs.faults), ctx.done) || old(fs.slots).backup.now.Special?
    ensures Steady(fs.outsider, old(fs.slots), current, meta.attr) && ok ==>
              MirroredPair(c, fs.slots) && fs.slots.target.now.data == baseline
    ensures Steady(fs.outsider, old(fs.slots), current, meta.attr) && ok ==>
              KeepsAttr(old(fs.slots).target.now, fs.slots.target.now, DefaultMeta(fs.self).attr) &&
              KeepsAttr(old(fs.slots).backup.now, fs.slots.backup.now, DefaultMeta(fs.self).attr)
    ensures Steady(fs.outsider, old(fs.slots), current, meta.attr) ==>
              AllWithin(old(fs.trace), fs.trace, old(fs.slots).target, File(baseline, meta.attr, true))
  {
    hide OnlyGuarded, AllWithin, EverySafe, RetainedFirst, Safe, Valid, Tidy;
    ghost var s0, trace0 := fs.slots, fs.trace;
    var out := ApplyReplacement(fs, ctx, current, baseline, meta, DefaultMeta(fs.self));
    ok := out.Done?;
    if Steady(fs.outsider, s0, current, meta.attr) {
      SafeIsWithin(trace0, fs.trace, s0, current, baseline, meta.attr);
    }
  }

  lemma SafeIsWithin(t0: seq<Slots>, t1: seq<Slots>, start: Slots, current: Text, proposed: Text, attr: Attr)
    requires EverySafe(t0, t1, start, current, proposed, attr) && Holds(start.target.now, current, attr)
    ensures AllWithin(t0, t1, start.target, File(proposed, attr, true))
  {
  }

  /** Over a missing or corrupt target: seed the backup with the baseline, then replace. */
  method RegenerateCorrupt(c: Config, fs: FileSystem, ctx: Context, target: ReadResult, baseline: Text)
    returns (ok: bool)
    requires fs.Valid() && !target.ReadFailed? && Valid(c, baseline)
    requires target.Contents? ==> target.meta.setOwnership
    requires !fs.outsider ==> Describes(target, fs.slots.target.now, false)
    modifies fs, ctx
    ensures fs.Valid() && fs.faults >= old(fs.faults) && (old(ctx.done) ==> ctx.done)
    ensures OnlyGuarded(old(fs.commits), fs.commits)
    ensures !fs.outsider && !ok ==>
              Troubled(fs.faults, old(fs.faults), ctx.done) || old(fs.slots).backup.now.Special?
    ensures !fs.outsider && ok ==> MirroredPair(c, fs.slots) && fs.slots.target.now.data == baseline
    ensures !fs.outsider && ok ==>
              KeepsAttr(old(fs.slots).target.now, fs.slots.target.now, DefaultMeta(fs.self).attr) &&
              KeepsAttr(old(fs.slots).backup.now, fs.slots.backup.now, DefaultMeta(fs.self).attr)
    ensures !fs.outsider ==>
              var meta := if target.Contents? then target.meta else DefaultMeta(fs.self);
              AllWithin(old(fs.trace), fs.trace, old(fs.slots).target, File(baseline, meta.attr, true))
  {
    hide OnlyGuarded, AllWithin, Within, Grew, Between, Valid, Tidy, CommittedOnce;
    ghost var s0, trace0, commits0 := fs.slots, fs.trace, fs.commits;
    var meta := if target.Contents? then target.meta else DefaultMeta(fs.self);
    var default := DefaultMeta(fs.self);
    var goal := File(baseline, meta.attr, true);
    WithinItself(trace0, s0.target, goal);
    var seeded := EnsureBackupMatches(fs, ctx, baseline, default);
    ghost var s1, trace1, commits1 := fs.slots, fs.trace, fs.commits;
    if !fs.outsider {
      WithinPhase(trace0, trace1, s0, s1, Backup, Mirrored(s0.backup.now, baseline, default.attr), s0.target, goal);
    }
    if !seeded {
      return false;
    }
    var _, replaced := ReplaceIfUnchanged(fs, ctx, Target, baseline, meta, SnapshotOf(target, meta));
    ok := replaced;
    GuardedAppend(commits0, commits1, fs.commits);
    if !fs.outsider {
      WithinPhase(trace1, fs.trace, s1, fs.slots, Target, goal, s0.target, goal);
      WithinAppend(trace0, trace1, fs.trace, s0.target, goal);
    }
  }
}
