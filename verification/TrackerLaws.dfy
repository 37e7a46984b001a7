/** What every run of the tracker keeps. */
module TrackerLaws {
  import opened Basics
  import opened Tracker

  ghost predicate Increasing(history: seq<Record>) {
    forall i, j :: 0 <= i < j < |history| ==> history[i].id < history[j].id
  }

  /** The position of the record of an active concern. */
  ghost predicate Retains(history: seq<Record>, c: Concern, id: nat) {
    exists i :: 0 <= i < |history| && history[i].id == id && history[i].concern == c
  }

  ghost predicate AllRetained(active: map<Concern, nat>, history: seq<Record>) {
    forall c :: c in active ==> Retains(history, c, active[c])
  }

  /** No record of an active concern is newer than its active one. */
  ghost predicate ActiveIsNewest(active: map<Concern, nat>, history: seq<Record>) {
    forall i :: 0 <= i < |history| && history[i].concern in active ==> history[i].id <= active[history[i].concern]
  }

  ghost predicate Below(active: map<Concern, nat>, history: seq<Record>, nextID: nat) {
    && (forall i :: 0 <= i < |history| ==> history[i].id <= nextID)
    && (forall c :: c in active ==> active[c] <= nextID)
  }

  function NumberOfConcerns(): nat {
    |{DockerSnapshot, DockerEvents, HostsApply, Recovery}|
  }

  function Limit(max: int): nat {
    var limit := EffectiveMax(max);
    if limit < NumberOfConcerns() then NumberOfConcerns() else limit
  }

  ghost predicate Inv(s: State) {
    && Increasing(s.history)
    && AllRetained(s.active, s.history)
    && ActiveIsNewest(s.active, s.history)
    && Below(s.active, s.history, s.nextID)
    && |s.history| <= Limit(s.max)
  }

  /******* Eviction *******/

  lemma WithoutKeeps(active: map<Concern, nat>, history: seq<Record>, i: nat)
    requires i < |history| && !ActiveID(active, history[i].id)
    requires Increasing(history) && AllRetained(active, history)
    ensures Increasing(Without(history, i)) && AllRetained(active, Without(history, i))
  {
    var rest := Without(history, i);
    forall c | c in active ensures Retains(rest, c, active[c]) {
      var k :| 0 <= k < |history| && history[k].id == active[c] && history[k].concern == c;
      assert rest[if k < i then k else k - 1] == history[k];
    }
  }

  lemma {:induction false} EvictKeeps(active: map<Concern, nat>, history: seq<Record>, max: nat)
    requires Increasing(history) && AllRetained(active, history)
    ensures Increasing(Evict(active, history, max)) && AllRetained(active, Evict(active, history, max))
    ensures forall r :: r in Evict(active, history, max) ==> r in history
    ensures var left := Evict(active, history, max);
            |left| <= max || forall k :: 0 <= k < |left| ==> ActiveID(active, left[k].id)
    decreases |history|
  {
    hide ActiveID, Increasing, AllRetained;
    if |history| > max && OldestInactive(active, history).Some? {
      var i := OldestInactive(active, history).value;
      WithoutKeeps(active, history, i);
      EvictKeeps(active, Without(history, i), max);
    }
  }

  /** The records that are active, in their order. */
  function ActiveRecords(active: map<Concern, nat>, history: seq<Record>): seq<Record> {
    if history == [] then []
    else
      var n := |history| - 1;
      var rest := ActiveRecords(active, history[..n]);
      if ActiveID(active, history[n].id) then rest + [history[n]] else rest
  }

  lemma {:induction false} ActiveRecordsConcat(active: map<Concern, nat>, a: seq<Record>, b: seq<Record>)
    ensures ActiveRecords(active, a + b) == ActiveRecords(active, a) + ActiveRecords(active, b)
    decreases |b|
  {
    hide ActiveID;
    if b == [] {
      assert a + b == a;
    } else {
      var n := |b| - 1;
      ActiveRecordsConcat(active, a, b[..n]);
      assert (a + b)[..|a| + n] == a + b[..n];
    }
  }

  lemma {:induction false} AllActiveRecords(active: map<Concern, nat>, history: seq<Record>)
    requires forall k :: 0 <= k < |history| ==> ActiveID(active, history[k].id)
    ensures ActiveRecords(active, history) == history
  {
    hide ActiveID;
    if history != [] {
      AllActiveRecords(active, history[..|history| - 1]);
    }
  }

  /** From the first m records, only the active ones are left. */
  ghost predicate OldestGone(active: map<Concern, nat>, history: seq<Record>, left: seq<Record>, m: nat) {
    m <= |history| && left == ActiveRecords(active, history[..m]) + history[m..]
  }

  /** Records go only while there are more than the limit, and the oldest inactive ones first. */
  lemma {:induction false} EvictTakesOldest(active: map<Concern, nat>, history: seq<Record>, max: nat)
    ensures var left := Evict(active, history, max);
            && (|history| <= max ==> left == history)
            && (|history| > max ==>
                  |left| == max || (|left| > max && forall k :: 0 <= k < |left| ==> ActiveID(active, left[k].id)))
            && exists m :: OldestGone(active, history, left, m)
    decreases |history|
  {
    hide ActiveID, OldestGone;
    var left := Evict(active, history, max);
    if |history| > max && OldestInactive(active, history).Some? {
      var i := OldestInactive(active, history).value;
      var rest := Without(history, i);
      EvictTakesOldest(active, rest, max);
      var m :| OldestGone(active, rest, left, m);
      OneGone(active, history, i, left, m);
    } else {
      NoneGone(active, history);
    }
  }

  lemma NoneGone(active: map<Concern, nat>, history: seq<Record>)
    ensures OldestGone(active, history, history, 0)
  {
  }

  lemma OneGone(active: map<Concern, nat>, history: seq<Record>, i: nat, left: seq<Record>, m: nat)
    requires i < |history| && !ActiveID(active, history[i].id)
    requires forall k :: 0 <= k < i ==> ActiveID(active, history[k].id)
    requires OldestGone(active, Without(history, i), left, m)
    ensures OldestGone(active, history, left, if m < i then i + 1 else m + 1)
  {
    hide ActiveID, ActiveRecords;
    var rest := Without(history, i);
    AllActiveRecords(active, history[..i]);
    InactiveIsGone(active, history[..i], history[i]);
    assert history[..i + 1] == history[..i] + [history[i]];
    if m < i {
      assert rest[..m] == history[..m];
      AllActiveRecords(active, history[..m]);
      assert left == rest;
    } else {
      GoneBetween(active, history, i, m);
    }
  }

  lemma InactiveIsGone(active: map<Concern, nat>, history: seq<Record>, r: Record)
    requires !ActiveID(active, r.id)
    ensures ActiveRecords(active, history + [r]) == ActiveRecords(active, history)
  {
    hide ActiveID;
    assert (history + [r])[..|history|] == history;
  }

  lemma GoneBetween(active: map<Concern, nat>, history: seq<Record>, i: nat, m: nat)
    requires i <= m < |history|
    requires ActiveRecords(active, history[..i + 1]) == ActiveRecords(active, history[..i])
    ensures ActiveRecords(active, history[..m + 1]) == ActiveRecords(active, Without(history, i)[..m])
    ensures history[m + 1..] == Without(history, i)[m..]
  {
    hide ActiveID, ActiveRecords;
    var between := history[i + 1..m + 1];
    assert Without(history, i)[..m] == history[..i] + between;
    assert history[..m + 1] == history[..i + 1] + between;
    ActiveRecordsConcat(active, history[..i], between);
    ActiveRecordsConcat(active, history[..i + 1], between);
  }

  /******* Counting *******/

  function Concerns(history: seq<Record>): set<Concern> {
    set i | 0 <= i < |history| :: history[i].concern
  }

  ghost predicate DistinctConcerns(history: seq<Record>) {
    forall i, j :: 0 <= i < j < |history| ==> history[i].concern != history[j].concern
  }

  lemma {:induction false} CountConcerns(history: seq<Record>)
    requires DistinctConcerns(history)
    ensures |Concerns(history)| == |history|
  {
    if history != [] {
      var n := |history| - 1;
      CountConcerns(history[..n]);
      assert forall i :: 0 <= i < n ==> history[..n][i] == history[i];
      assert Concerns(history) == Concerns(history[..n]) + {history[n].concern};
      assert history[n].concern !in Concerns(history[..n]);
    } else {
      assert Concerns(history) == {};
    }
  }

  lemma SubsetSize(a: set<Concern>, b: set<Concern>)
    requires a <= b
    ensures |a| <= |b|
  {
    assert b == a + (b - a);
  }

  lemma NoMoreConcerns(a: set<Concern>)
    ensures |a| <= NumberOfConcerns()
  {
    var all := {DockerSnapshot, DockerEvents, HostsApply, Recovery};
    assert forall c :: c in a ==> c.DockerSnapshot? || c.DockerEvents? || c.HostsApply? || c.Recovery?;
    SubsetSize(a, all);
  }

  /** An active record is the retained record of its own concern. */
  lemma ActiveRecordOwn(active: map<Concern, nat>, history: seq<Record>, k: nat)
    requires Increasing(history) && AllRetained(active, history)
    requires k < |history| && ActiveID(active, history[k].id)
    ensures history[k].concern in active && active[history[k].concern] == history[k].id
  {
    var c :| c in active && active[c] == history[k].id;
    var i :| 0 <= i < |history| && history[i].id == active[c] && history[i].concern == c;
    assert i == k;
  }

  lemma AllActiveIsShort(active: map<Concern, nat>, history: seq<Record>)
    requires Increasing(history) && AllRetained(active, history)
    requires forall k :: 0 <= k < |history| ==> ActiveID(active, history[k].id)
    ensures |history| <= |active.Keys| <= NumberOfConcerns()
  {
    hide ActiveID, AllRetained;
    forall k | 0 <= k < |history| ensures history[k].concern in active && active[history[k].concern] == history[k].id {
      ActiveRecordOwn(active, history, k);
    }
    CountConcerns(history);
    SubsetSize(Concerns(history), active.Keys);
    NoMoreConcerns(active.Keys);
  }

  /******* Every step keeps the invariant *******/

  lemma FailKeeps(s: State, c: Concern, message: string, now: int)
    requires Inv(s)
    ensures Inv(Failed(s, c, message, now))
  {
    hide ActiveID, Evict, Increasing, AllRetained, ActiveIsNewest, Below, NumberOfConcerns;
    var id := s.nextID + 1;
    var record := Record(now, message, ErrorType(c), SeverityOf(c), id, c);
    var history := s.history + [record];
    var active := s.active[c := id];
    RecordKeeps(s, record);
    EvictKeeps(active, history, EffectiveMax(s.max));
    var evicted := Evict(active, history, EffectiveMax(s.max));
    FewerRecords(active, history, evicted, id);
    if |evicted| > EffectiveMax(s.max) {
      AllActiveIsShort(active, evicted);
    }
  }

  lemma FewerRecords(active: map<Concern, nat>, history: seq<Record>, fewer: seq<Record>, nextID: nat)
    requires forall r :: r in fewer ==> r in history
    requires ActiveIsNewest(active, history) && Below(active, history, nextID)
    ensures ActiveIsNewest(active, fewer) && Below(active, fewer, nextID)
  {
    assert forall i :: 0 <= i < |fewer| ==> fewer[i] in history;
  }

  lemma RecordKeeps(s: State, record: Record)
    requires Inv(s) && record.id == s.nextID + 1
    ensures var history, active := s.history + [record], s.active[record.concern := record.id];
            && Increasing(history) && AllRetained(active, history)
            && ActiveIsNewest(active, history) && Below(active, history, record.id)
  {
    var history, active := s.history + [record], s.active[record.concern := record.id];
    forall c | c in active ensures Retains(history, c, active[c]) {
      if c == record.concern {
        assert history[|s.history|] == record;
      } else {
        var i :| 0 <= i < |s.history| && s.history[i].id == s.active[c] && s.history[i].concern == c;
        assert history[i] == s.history[i];
      }
    }
  }

  lemma StepKeeps(s: State, op: Op)
    requires Inv(s)
    ensures Inv(Step(s, op))
  {
    if op.Fail? {
      hide Failed, Increasing, Below, Retains;
      FailKeeps(s, op.concern, op.message, op.now);
    }
  }

  /** The run invariant, over any sequence of operations from a fresh tracker. */
  lemma {:induction false} RunKeeps(max: int, ops: seq<Op>)
    ensures Inv(Run(Fresh(max), ops))
    ensures EffectiveMax(max) >= NumberOfConcerns() ==> |Run(Fresh(max), ops).history| <= EffectiveMax(max)
    ensures EffectiveMax(Run(Fresh(max), ops).max) == EffectiveMax(max)
  {
    hide Inv;
    if ops == [] {
      FreshIsInv(max);
    } else {
      var before := Run(Fresh(max), ops[..|ops| - 1]);
      RunKeeps(max, ops[..|ops| - 1]);
      StepKeeps(before, ops[|ops| - 1]);
    }
    InvBounds(Run(Fresh(max), ops));
  }

  lemma InvBounds(s: State)
    requires Inv(s)
    ensures |s.history| <= Limit(s.max)
  {
  }

  lemma FreshIsInv(max: int)
    ensures Inv(Fresh(max))
  {
  }

  /** Distinct active concerns own distinct records. */
  lemma ActiveRecordsAreDistinct(s: State, c: Concern, d: Concern)
    requires Inv(s) && c in s.active && d in s.active && c != d
    ensures s.active[c] != s.active[d]
  {
    var i :| 0 <= i < |s.history| && s.history[i].id == s.active[c] && s.history[i].concern == c;
    var j :| 0 <= j < |s.history| && s.history[j].id == s.active[d] && s.history[j].concern == d;
    assert i != j;
  }

  /******* What a run shows, from its operations alone *******/

  /** The latest failure of a concern since it last recovered. */
  function Latest(ops: seq<Op>, c: Concern): (r: Option<Op>)
    ensures r.Some? ==> r.value.Fail? && r.value.concern == c
  {
    if ops == [] then None
    else
      match ops[|ops| - 1]
      case Fail(d, _, _) => if d == c then Some(ops[|ops| - 1]) else Latest(ops[..|ops| - 1], c)
      case Recover(d) => if d == c then None else Latest(ops[..|ops| - 1], c)
      case _ => Latest(ops[..|ops| - 1], c)
  }

  /** How often a concern failed since it last recovered. */
  function Failures(ops: seq<Op>, c: Concern): (n: nat)
    ensures n > 0 <==> Latest(ops, c).Some?
  {
    if ops == [] then 0
    else
      match ops[|ops| - 1]
      case Fail(d, _, _) => Failures(ops[..|ops| - 1], c) + if d == c then 1 else 0
      case Recover(d) => if d == c then 0 else Failures(ops[..|ops| - 1], c)
      case _ => Failures(ops[..|ops| - 1], c)
  }

  function Ready(ops: seq<Op>): bool {
    if ops == [] then true
    else if ops[|ops| - 1].Begin? then false
    else if ops[|ops| - 1].Complete? then true
    else Ready(ops[..|ops| - 1])
  }

  /** An operation on one of these concerns. */
  predicate About(op: Op, concerns: set<Concern>) {
    (op.Fail? || op.Recover?) && op.concern in concerns
  }

  ghost predicate OnlyAbout(ops: seq<Op>, more: seq<Op>, concerns: set<Concern>) {
    ops <= more && forall i :: |ops| <= i < |more| ==> About(more[i], concerns)
  }

  /** One more operation. */
  lemma OneMore(ops: seq<Op>, op: Op, c: Concern)
    ensures Latest(ops + [op], c) ==
            (if op.Fail? && op.concern == c then Some(op)
             else if op.Recover? && op.concern == c then None
             else Latest(ops, c))
    ensures Failures(ops + [op], c) ==
            (if op.Fail? && op.concern == c then Failures(ops, c) + 1
             else if op.Recover? && op.concern == c then 0
             else Failures(ops, c))
    ensures Ready(ops + [op]) == (if op.Begin? then false else if op.Complete? then true else Ready(ops))
  {
    assert (ops + [op])[..|ops|] == ops;
  }

  /** Operations on other concerns do not show in this one. */
  lemma {:induction false} OthersUnseen(ops: seq<Op>, more: seq<Op>, concerns: set<Concern>, c: Concern)
    requires OnlyAbout(ops, more, concerns) && c !in concerns
    ensures Latest(more, c) == Latest(ops, c) && Failures(more, c) == Failures(ops, c) && Ready(more) == Ready(ops)
    decreases |more|
  {
    if |more| > |ops| {
      OthersUnseen(ops, more[..|more| - 1], concerns, c);
    } else {
      assert more == ops;
    }
  }

  /** A concern is active exactly when it failed since it last recovered. */
  lemma {:induction false} ActiveIffFailing(max: int, ops: seq<Op>, c: Concern)
    ensures c in Run(Fresh(max), ops).active <==> Latest(ops, c).Some?
    ensures Run(Fresh(max), ops).ready == Ready(ops)
  {
    hide Evict;
    if ops != [] {
      ActiveIffFailing(max, ops[..|ops| - 1], c);
    }
  }

  /** The failures of a run, in their order. */
  function Fails(ops: seq<Op>): (r: seq<Op>)
    ensures forall k :: 0 <= k < |r| ==> r[k].Fail?
  {
    if ops == [] then []
    else
      var rest := Fails(ops[..|ops| - 1]);
      if ops[|ops| - 1].Fail? then rest + [ops[|ops| - 1]] else rest
  }

  /** A record is numbered by its failure and tells it as it was, classified by its concern. */
  ghost predicate Tells(fails: seq<Op>, r: Record) {
    && 1 <= r.id <= |fails| && fails[r.id - 1] == Op.Fail(r.concern, r.message, r.time)
    && (r.severity.Critical? <==> r.concern.Recovery?) && (r.severity.Minor? <==> r.concern.DockerEvents?)
    && (r.errorType == "docker" <==> r.concern.DockerSnapshot?)
    && (r.errorType == "docker_events" <==> r.concern.DockerEvents?)
    && (r.errorType == "update" <==> r.concern.HostsApply?)
    && (r.errorType == "validation" <==> r.concern.Recovery?)
  }

  /** Every record tells its failure, and an active concern is the record of its latest one. */
  lemma {:induction false} RecordsAreFailures(max: int, ops: seq<Op>)
    ensures var s, fails := Run(Fresh(max), ops), Fails(ops);
            && s.nextID == |fails|
            && (forall r :: r in s.history ==> Tells(fails, r))
            && (forall c :: c in s.active ==>
                  1 <= s.active[c] <= |fails| && Latest(ops, c) == Some(fails[s.active[c] - 1]))
  {
    hide Evict;
    if ops != [] {
      var op := ops[|ops| - 1];
      var before := Run(Fresh(max), ops[..|ops| - 1]);
      RecordsAreFailures(max, ops[..|ops| - 1]);
      if op.Fail? {
        EvictedOnly(before.active[op.concern := before.nextID + 1],
                    before.history + [Record(op.now, op.message, ErrorType(op.concern), SeverityOf(op.concern),
                                             before.nextID + 1, op.concern)], EffectiveMax(before.max));
      }
    }
  }

  lemma {:induction false} EvictedOnly(active: map<Concern, nat>, history: seq<Record>, max: nat)
    ensures forall r :: r in Evict(active, history, max) ==> r in history
    decreases |history|
  {
    hide ActiveID;
    if |history| > max && OldestInactive(active, history).Some? {
      EvictedOnly(active, Without(history, OldestInactive(active, history).value), max);
    }
  }

  /** An active concern's record is not older than any of its failures. */
  lemma {:induction false} LatestIsLast(max: int, ops: seq<Op>, j: nat)
    requires j < |Fails(ops)|
    ensures var s, c := Run(Fresh(max), ops), Fails(ops)[j].concern; c in s.active ==> s.active[c] >= j + 1
  {
    hide Evict;
    if ops != [] {
      var before := ops[..|ops| - 1];
      RecordsAreFailures(max, before);
      if j < |Fails(before)| {
        LatestIsLast(max, before, j);
      }
    }
  }

  /** Every failure is kept while there are no more than the limit, and at least the limit once there are. */
  lemma {:induction false} HistoryIsFull(max: int, ops: seq<Op>)
    ensures var limit, n := if max <= 0 then 10 else max, |Run(Fresh(max), ops).history|;
            |Fails(ops)| >= n >= if |Fails(ops)| <= limit then |Fails(ops)| else limit
  {
    hide Evict, ActiveID;
    RunKeeps(max, ops);
    if ops != [] {
      var op := ops[|ops| - 1];
      var before := Run(Fresh(max), ops[..|ops| - 1]);
      HistoryIsFull(max, ops[..|ops| - 1]);
      RunKeeps(max, ops[..|ops| - 1]);
      if op.Fail? {
        var active := before.active[op.concern := before.nextID + 1];
        var history := before.history + [Record(op.now, op.message, ErrorType(op.concern), SeverityOf(op.concern),
                                                before.nextID + 1, op.concern)];
        EvictTakesOldest(active, history, EffectiveMax(before.max));
        EvictIsShorter(active, history, EffectiveMax(before.max));
      }
    }
  }

  lemma {:induction false} EvictIsShorter(active: map<Concern, nat>, history: seq<Record>, max: nat)
    ensures |Evict(active, history, max)| <= |history|
    decreases |history|
  {
    hide ActiveID;
    if |history| > max && OldestInactive(active, history).Some? {
      EvictIsShorter(active, Without(history, OldestInactive(active, history).value), max);
    }
  }
}
