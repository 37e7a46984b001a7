/** The health tracker of health/tracker.go: active concerns over a bounded history. */
module Tracker {
  import opened Basics

  datatype Concern = DockerSnapshot | DockerEvents | HostsApply | Recovery

  datatype Severity = Critical | Major | Minor

  datatype Record = Record(time: int, message: string, errorType: string, severity: Severity, id: nat, concern: Concern)

  const MAX_HISTORY_RECORDS := 10

  function ErrorType(c: Concern): string {
    match c
    case DockerSnapshot => "docker"
    case DockerEvents => "docker_events"
    case HostsApply => "update"
    case Recovery => "validation"
  }

  function SeverityOf(c: Concern): Severity {
    match c
    case DockerSnapshot => Major
    case DockerEvents => Minor
    case HostsApply => Major
    case Recovery => Critical
  }

  /** The value of a tracker. */
  datatype State = State(ready: bool, active: map<Concern, nat>, history: seq<Record>, nextID: nat, max: int)

  /** A tracker as newTracker makes it; max <= 0 stands for the default, as in ensureDefaults. */
  function Fresh(max: int): State {
    State(true, map[], [], 0, max)
  }

  function EffectiveMax(max: int): nat {
    if max <= 0 then MAX_HISTORY_RECORDS else max
  }

  predicate ActiveID(active: map<Concern, nat>, id: nat) {
    exists c :: c in active && active[c] == id
  }

  /** The position of the oldest record that is not active. */
  function OldestInactive(active: map<Concern, nat>, history: seq<Record>): (r: Option<nat>)
    ensures r.Some? ==> r.value < |history| && !ActiveID(active, history[r.value].id)
    ensures r.Some? ==> forall k :: 0 <= k < r.value ==> ActiveID(active, history[k].id)
    ensures r.None? ==> forall k :: 0 <= k < |history| ==> ActiveID(active, history[k].id)
  {
    if history == [] then None
    else if !ActiveID(active, history[0].id) then Some(0)
    else
      match OldestInactive(active, history[1..])
      case None =>
        assert forall k :: 0 < k < |history| ==> history[k] == history[1..][k - 1];
        None
      case Some(i) =>
        assert forall k :: 0 < k < |history| ==> history[k] == history[1..][k - 1];
        Some(i + 1)
  }

  function Without(history: seq<Record>, i: nat): seq<Record>
    requires i < |history|
  {
    history[..i] + history[i + 1..]
  }

  function Evict(active: map<Concern, nat>, history: seq<Record>, max: nat): seq<Record>
    decreases |history|
  {
    if |history| <= max then history
    else
      match OldestInactive(active, history)
      case None => history
      case Some(i) => Evict(active, Without(history, i), max)
  }

  function Failed(s: State, c: Concern, message: string, now: int): State {
    var id := s.nextID + 1;
    var max := EffectiveMax(s.max);
    var history := s.history + [Record(now, message, ErrorType(c), SeverityOf(c), id, c)];
    var active := s.active[c := id];
    State(s.ready, active, Evict(active, history, max), id, max)
  }

  function Recovered(s: State, c: Concern): State {
    s.(active := s.active - {c})
  }

  /******* Runs *******/

  datatype Op =
    | Fail(concern: Concern, message: string, now: int)
    | Recover(concern: Concern)
    | Begin
    | Complete

  function Step(s: State, op: Op): State {
    match op
    case Fail(c, message, now) => Failed(s, c, message, now)
    case Recover(c) => Recovered(s, c)
    case Begin => s.(ready := false)
    case Complete => s.(ready := true)
  }

  function Run(s: State, ops: seq<Op>): State {
    if ops == [] then s else Step(Run(s, ops[..|ops| - 1]), ops[|ops| - 1])
  }

  lemma RunStep(s: State, ops: seq<Op>, op: Op)
    ensures Run(s, ops + [op]) == Step(Run(s, ops), op)
  {
    assert (ops + [op])[..|ops|] == ops;
  }

  /******* The tracker object *******/

  class HealthTracker {
    var ready: bool
    var active: map<Concern, nat>
    var history: seq<Record>
    var nextID: nat
    var max: int
    /** Everything that was done to the tracker, and the limit it was made with. */
    ghost var ops: seq<Op>
    ghost const limit: int

    ghost function Value(): State
      reads this
    {
      State(ready, active, history, nextID, max)
    }

    /** The tracker is what its operations make of a fresh one. */
    ghost predicate Valid()
      reads this
    {
      Value() == Run(Fresh(limit), ops)
    }

    constructor (max: int)
      ensures Valid() && Value() == Fresh(max) && ops == []
    {
      this.ready, this.active, this.history, this.nextID, this.max := true, map[], [], 0, max;
      this.ops, this.limit := [], max;
    }

    method BeginInitialization()
      requires Valid()
      modifies this
      ensures Valid() && ops == old(ops) + [Op.Begin]
      ensures Value() == old(Value()).(ready := false)
    {
      RunStep(Fresh(limit), ops, Op.Begin);
      ready := false;
      ops := ops + [Op.Begin];
    }

    method CompleteInitialization()
      requires Valid()
      modifies this
      ensures Valid() && ops == old(ops) + [Op.Complete]
      ensures Value() == old(Value()).(ready := true)
    {
      RunStep(Fresh(limit), ops, Op.Complete);
      ready := true;
      ops := ops + [Op.Complete];
    }

    method Fail(c: Concern, message: string, now: int)
      requires Valid()
      modifies this
      ensures Valid() && ops == old(ops) + [Op.Fail(c, message, now)]
      ensures Value() == Failed(old(Value()), c, message, now)
    {
      hide Run;
      RunStep(Fresh(limit), ops, Op.Fail(c, message, now));
      EnsureDefaults();
      nextID := nextID + 1;
      history := history + [Record(now, message, ErrorType(c), SeverityOf(c), nextID, c)];
      active := active[c := nextID];
      EvictHistory();
      ops := ops + [Op.Fail(c, message, now)];
    }

    method EnsureDefaults()
      modifies this`max
      ensures max == EffectiveMax(old(max))
    {
      if max <= 0 {
        max := MAX_HISTORY_RECORDS;
      }
    }

    method Recover(c: Concern)
      requires Valid()
      modifies this
      ensures Valid() && ops == old(ops) + [Op.Recover(c)]
      ensures Value() == Recovered(old(Value()), c)
    {
      RunStep(Fresh(limit), ops, Op.Recover(c));
      active := active - {c};
      ops := ops + [Op.Recover(c)];
    }

    method EvictHistory()
      requires 0 <= max
      modifies this`history
      ensures history == Evict(active, old(history), max)
    {
      while |history| > max
        invariant Evict(active, history, max) == Evict(active, old(history), max)
        decreases |history|
      {
        var index := FindInactive();
        if index.None? {
          return;
        }
        history := Without(history, index.value);
      }
    }

    method FindInactive() returns (index: Option<nat>)
      ensures index == OldestInactive(active, history)
    {
      for i := 0 to |history|
        invariant forall k :: 0 <= k < i ==> ActiveID(active, history[k].id)
      {
        var isActive := IsActive(history[i].id);
        if !isActive {
          return Some(i);
        }
      }
      return None;
    }

    method IsActive(id: nat) returns (r: bool)
      ensures r <==> ActiveID(active, id)
    {
      var rest := active.Keys;
      while rest != {}
        invariant rest <= active.Keys
        invariant forall c :: c in active && c !in rest ==> active[c] != id
        decreases rest
      {
        var c :| c in rest;
        if active[c] == id {
          return true;
        }
        rest := rest - {c};
      }
      return false;
    }

    method TakeSnapshot() returns (s: Snapshot)
      ensures s == SnapshotOf(Value())
    {
      s := Snapshot(ready, active, history);
    }
  }

  datatype Snapshot = Snapshot(ready: bool, active: map<Concern, nat>, history: seq<Record>)

  function SnapshotOf(s: State): Snapshot {
    Snapshot(s.ready, s.active, s.history)
  }
}
