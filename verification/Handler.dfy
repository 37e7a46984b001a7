/** Rendering a tracker snapshot for the health endpoint, health/handler.go. */
module Handler {
  import opened Basics
  import opened Tracker
  import opened TrackerLaws

  datatype Entry = Entry(time: int, message: string, errorType: string, severity: Severity, recovering: bool)

  datatype Message = Initializing | NoErrors | AllRecovered | Degraded(conditions: nat)

  datatype Response = Response(healthy: bool, message: Message, errors: seq<Entry>, reason: Option<string>)

  /** A response, or the nil dereference that renderSnapshot would run into. */
  datatype Outcome = Rendered(response: Response) | Panic

  /** How one record is shown; `recovering` stands for the recovery text "unknown". */
  ghost predicate Shows(active: map<Concern, nat>, r: Record, e: Entry) {
    && e.time == r.time && e.message == r.message && e.errorType == r.errorType && e.severity == r.severity
    && (e.recovering <==> exists c :: c in active && active[c] == r.id)
  }

  ghost predicate NewestActive(active: map<Concern, nat>, history: seq<Record>, r: Record) {
    && r in history
    && ActiveID(active, r.id)
    && forall x :: x in history && ActiveID(active, x.id) ==> x.id <= r.id
  }

  /** What a response says about a snapshot. */
  ghost predicate Reflects(s: Snapshot, r: Response) {
    && (r.healthy <==> s.ready && s.active == map[])
    && |r.errors| == |s.history|
    && (forall i :: 0 <= i < |s.history| ==> Shows(s.active, s.history[i], r.errors[i]))
    && (r.message.Initializing? <==> !s.ready)
    && (r.message.NoErrors? <==> r.healthy && s.history == [])
    && (r.message.AllRecovered? <==> r.healthy && s.history != [])
    && (r.message.Degraded? ==> r.message.conditions == |s.active.Values|)
    && (r.healthy <==> r.reason.None?)
    && (!s.ready ==> r.reason == Some("initialization has not completed"))
    && (s.ready && !r.healthy ==>
        exists newest :: NewestActive(s.active, s.history, newest) && r.reason == Some(newest.message))
  }

  /** renderSnapshot: it fails exactly on a ready snapshot whose active records were all lost. */
  method RenderSnapshot(s: Snapshot) returns (out: Outcome)
    ensures out.Panic? <==>
              && s.ready && s.active != map[]
              && forall i :: 0 <= i < |s.history| ==> !ActiveID(s.active, s.history[i].id)
    ensures out.Rendered? ==> Reflects(s, out.response)
  {
    hide ActiveID;
    var activeIDs := s.active.Values;
    ValuesAreActive(s.active);
    var healthy := s.ready && activeIDs == {};
    var errors: seq<Entry> := [];
    var newest: Option<Record> := None;
    for i := 0 to |s.history|
      invariant |errors| == i && forall k :: 0 <= k < i ==> Shows(s.active, s.history[k], errors[k])
      invariant newest.None? ==> forall k :: 0 <= k < i ==> !ActiveID(s.active, s.history[k].id)
      invariant newest.Some? ==> newest.value in s.history && ActiveID(s.active, newest.value.id)
      invariant newest.Some? ==>
                  forall k :: 0 <= k < i && ActiveID(s.active, s.history[k].id) ==> s.history[k].id <= newest.value.id
    {
      var record := s.history[i];
      var active := record.id in activeIDs;
      if active && (newest.None? || record.id > newest.value.id) {
        newest := Some(record);
      }
      errors := errors + [Entry(record.time, record.message, record.errorType, record.severity, active)];
    }
    if !s.ready {
      return Rendered(Response(false, Initializing, errors, Some("initialization has not completed")));
    }
    if healthy {
      return Rendered(Response(true, if |errors| > 0 then AllRecovered else NoErrors, errors, None));
    }
    if newest.None? {
      return Panic;
    }
    assert NewestActive(s.active, s.history, newest.value);
    return Rendered(Response(false, Degraded(|activeIDs|), errors, Some(newest.value.message)));
  }

  lemma ValuesAreActive(active: map<Concern, nat>)
    ensures forall id :: id in active.Values <==> ActiveID(active, id)
    ensures active.Values == {} <==> active == map[]
  {
    assert active == map[] <==> active.Keys == {};
    if active != map[] {
      var c :| c in active;
      assert active[c] in active.Values;
    }
  }

  /******* On every tracker that runs can reach *******/

  /** The pointer the handler dereferences is never nil. */
  lemma NeverPanics(max: int, ops: seq<Op>)
    ensures var s := Run(Fresh(max), ops);
            s.active != map[] ==> exists i :: 0 <= i < |s.history| && ActiveID(s.active, s.history[i].id)
  {
    hide Run, Increasing, Below;
    RunKeeps(max, ops);
    var s := Run(Fresh(max), ops);
    if s.active != map[] {
      assert s.active.Keys != {};
      var c :| c in s.active;
      assert Retains(s.history, c, s.active[c]);
    }
  }

  function CountRecovering(errors: seq<Entry>): nat {
    if errors == [] then 0
    else CountRecovering(errors[..|errors| - 1]) + if errors[|errors| - 1].recovering then 1 else 0
  }

  lemma {:induction false} CountIsActiveRecords(active: map<Concern, nat>, history: seq<Record>, errors: seq<Entry>)
    requires |errors| == |history|
    requires forall i :: 0 <= i < |history| ==> Shows(active, history[i], errors[i])
    ensures CountRecovering(errors) == |ActiveRecords(active, history)|
  {
    if history != [] {
      var n := |history| - 1;
      CountIsActiveRecords(active, history[..n], errors[..n]);
    }
  }

  lemma {:induction false} ActiveRecordsAre(active: map<Concern, nat>, history: seq<Record>)
    ensures forall r :: r in ActiveRecords(active, history) <==> r in history && ActiveID(active, r.id)
  {
    hide ActiveID;
    if history != [] {
      var n := |history| - 1;
      ActiveRecordsAre(active, history[..n]);
      assert history == history[..n] + [history[n]];
    }
  }

  lemma {:induction false} ActiveRecordsIncrease(active: map<Concern, nat>, history: seq<Record>)
    requires Increasing(history)
    ensures Increasing(ActiveRecords(active, history))
  {
    hide ActiveID;
    if history != [] {
      var n := |history| - 1;
      ActiveRecordsIncrease(active, history[..n]);
      ActiveRecordsAre(active, history[..n]);
      var rest := ActiveRecords(active, history[..n]);
      forall i | 0 <= i < |rest| ensures rest[i].id < history[n].id {
        assert rest[i] in history[..n];
      }
    }
  }

  /** An unhealthy answer gives the message of a failure that its concern has not recovered from, and no concern that
      failed later is still failing. */
  lemma ReasonIsNewest(max: int, ops: seq<Op>, r: Response)
    requires Reflects(SnapshotOf(Run(Fresh(max), ops)), r) && Ready(ops) && !r.healthy
    ensures var fails := Fails(ops);
            exists k :: 0 <= k < |fails| && r.reason == Some(fails[k].message) && NewestFailing(ops, k)
  {
    hide Run, Inv, Latest, ActiveID;
    RunKeeps(max, ops);
    RecordsAreFailures(max, ops);
    ActiveIffFailing(max, ops, DockerEvents);
    var s := Run(Fresh(max), ops);
    var newest :| NewestActive(s.active, s.history, newest) && r.reason == Some(newest.message);
    NewestIsFailing(max, ops, newest);
    assert r.reason == Some(Fails(ops)[newest.id - 1].message);
  }

  /** The failure at this place is the last one of its concern, which has not recovered, and nothing that failed later
      is still failing. */
  ghost predicate NewestFailing(ops: seq<Op>, k: nat) {
    var fails := Fails(ops);
    && k < |fails| && Latest(ops, fails[k].concern) == Some(fails[k])
    && forall j :: k < j < |fails| ==> Latest(ops, fails[j].concern).None?
  }

  lemma NewestIsFailing(max: int, ops: seq<Op>, newest: Record)
    requires var s := Run(Fresh(max), ops); NewestActive(s.active, s.history, newest)
    ensures 1 <= newest.id <= |Fails(ops)| && NewestFailing(ops, newest.id - 1)
  {
    hide Run, Latest, ActiveIsNewest, Below;
    RunKeeps(max, ops);
    RecordsAreFailures(max, ops);
    var s := Run(Fresh(max), ops);
    var k :| 0 <= k < |s.history| && s.history[k] == newest;
    ActiveRecordOwn(s.active, s.history, k);
    var fails := Fails(ops);
    forall j | newest.id <= j < |fails| ensures Latest(ops, fails[j].concern).None? {
      var c := fails[j].concern;
      ActiveIffFailing(max, ops, c);
      if c in s.active {
        LatestIsLast(max, ops, j);
        assert Retains(s.history, c, s.active[c]);
        IsActiveID(s.active, c);
      }
    }
  }

  /** The records shown as still failing number exactly the active concerns. */
  lemma UnknownCountsActive(max: int, ops: seq<Op>, r: Response)
    requires Reflects(SnapshotOf(Run(Fresh(max), ops)), r)
    ensures CountRecovering(r.errors) == |Run(Fresh(max), ops).active.Keys|
  {
    hide Run, CountRecovering, Inv;
    RunKeeps(max, ops);
    var s := Run(Fresh(max), ops);
    CountIsActiveRecords(s.active, s.history, r.errors);
    ActiveRecordCount(s);
  }

  lemma ActiveRecordCount(s: State)
    requires Inv(s)
    ensures |ActiveRecords(s.active, s.history)| == |s.active.Keys|
  {
    hide ActiveID, ActiveRecords, Increasing, AllRetained, ActiveIsNewest, Below, Concerns;
    var records := ActiveRecords(s.active, s.history);
    RecordsAreOwn(s);
    ActiveRecordsIncrease(s.active, s.history);
    OwnIsDistinct(s.active, records);
    CountConcerns(records);
    ConcernsAreActive(s);
  }

  /** Each of these records is the active one of its concern. */
  ghost predicate Own(active: map<Concern, nat>, records: seq<Record>) {
    forall i :: 0 <= i < |records| ==>
      records[i].concern in active && active[records[i].concern] == records[i].id
  }

  lemma RecordsAreOwn(s: State)
    requires Inv(s)
    ensures Own(s.active, ActiveRecords(s.active, s.history))
  {
    hide ActiveID, ActiveRecords, Increasing, AllRetained, ActiveIsNewest, Below;
    ActiveRecordsAre(s.active, s.history);
    var records := ActiveRecords(s.active, s.history);
    forall i | 0 <= i < |records|
      ensures records[i].concern in s.active && s.active[records[i].concern] == records[i].id
    {
      assert records[i] in records;
      var k :| 0 <= k < |s.history| && s.history[k] == records[i];
      ActiveRecordOwn(s.active, s.history, k);
    }
  }

  lemma OwnIsDistinct(active: map<Concern, nat>, records: seq<Record>)
    requires Own(active, records) && Increasing(records)
    ensures DistinctConcerns(records)
  {
  }

  lemma ConcernsAreActive(s: State)
    requires Inv(s)
    ensures Concerns(ActiveRecords(s.active, s.history)) == s.active.Keys
  {
    hide ActiveID, ActiveRecords, Increasing, ActiveIsNewest, Below;
    var records := ActiveRecords(s.active, s.history);
    RecordsAreOwn(s);
    ActiveRecordsAre(s.active, s.history);
    forall c | c in s.active ensures c in Concerns(records) {
      assert Retains(s.history, c, s.active[c]);
      var k :| 0 <= k < |s.history| && s.history[k].id == s.active[c] && s.history[k].concern == c;
      IsActiveID(s.active, c);
      assert s.history[k] in records;
      var i :| 0 <= i < |records| && records[i] == s.history[k];
    }
  }

  lemma IsActiveID(active: map<Concern, nat>, c: Concern)
    requires c in active
    ensures ActiveID(active, active[c])
  {
  }
}
