/** The stream mapper goroutine of docker/client.go, one step at a time.

    It forwards Docker's messages and the error that ends them over two channels with one
    place each.  On return its deferred closes shut the error channel first, then the
    event channel.  The other end of both channels is the daemon's loop.
 */
module Mapper {
  import opened Basics

  datatype Phase = Waiting | Sending | Forwarding(error: string) | Returning | ErrorsClosed | Finished

  datatype Stream = Stream(
    phase: Phase,
    event: bool,                 // the event channel holds a value
    eventsClosed: bool,
    error: Option<string>,       // the error channel holds this value
    errorsClosed: bool,
    cancelled: bool,             // the stream's context is done
    taken: Option<string>,       // the error the mapper received from Docker, if any
    forwarded: Option<string>,   // the error it put into the error channel, if any
    consumed: bool,              // the loop has received that error
    sent: nat,                   // how many events were put into the event channel,
    read: nat)                   // and how many of them were received

  const OPENED := Stream(Waiting, false, false, None, false, false, None, None, false, 0, 0)

  /** What Docker's channels offer the mapper when it looks. */
  datatype Offer = Nothing | Message | MessagesClosed(last: Option<string>) | Failure(error: Option<string>)

  /** One turn of the goroutine: what it is offered, and whether its select would rather see a done context. */
  datatype Step = Step(offer: Offer, giveUp: bool)

  predicate GivesUp(s: Stream, step: Step) {
    s.cancelled && step.giveUp
  }

  /** forwardError: no error means that there is nothing to forward. */
  function Take(s: Stream, error: Option<string>): Stream {
    if error.Some? then s.(phase := Forwarding(error.value), taken := error) else s.(phase := Returning)
  }

  /** Where one turn takes the stream. */
  function Advanced(s: Stream, step: Step): Stream {
    match s.phase
    case Waiting =>
      if GivesUp(s, step) then s.(phase := Returning)
      else (match step.offer
            case Nothing => s
            case Message => s.(phase := Sending)
            case MessagesClosed(last) => Take(s, last)
            case Failure(error) => Take(s, error))
    case Sending =>
      if GivesUp(s, step) then s.(phase := Returning)
      else if s.event then s
      else s.(phase := Waiting, event := true, sent := s.sent + 1)
    case Forwarding(error) =>
      if GivesUp(s, step) then s.(phase := Returning)
      else s.(phase := Returning, error := Some(error), forwarded := Some(error))
    case Returning => s.(phase := ErrorsClosed, errorsClosed := true)
    case ErrorsClosed => s.(phase := Finished, eventsClosed := true)
    case Finished => s
  }

  function Ran(s: Stream, script: seq<Step>): Stream {
    if script == [] then s else Advanced(Ran(s, script[..|script| - 1]), script[|script| - 1])
  }

  /** The goroutine's loop, for any number of turns with any offers and choices. */
  method RunMapper(s: Stream, script: seq<Step>) returns (r: Stream)
    requires Sound(s)
    ensures r == Ran(s, script) && Sound(r) && Follows(s, r) && r.cancelled == s.cancelled
  {
    hide Sound, Follows, Advanced;
    r := s;
    for i := 0 to |script|
      invariant r == Ran(s, script[..i])
    {
      assert script[..i + 1][..i] == script[..i];
      r := Advanced(r, script[i]);
    }
    assert script[..|script|] == script;
    RanKeeps(s, script);
  }

  /******* Laws of the goroutine *******/

  /** One turn keeps the invariant and takes nothing back. */
  lemma AdvancedKeeps(s: Stream, step: Step)
    requires Sound(s)
    ensures Sound(Advanced(s, step)) && Follows(s, Advanced(s, step)) && Advanced(s, step).cancelled == s.cancelled
  {
  }

  lemma {:induction false} RanKeeps(s: Stream, script: seq<Step>)
    requires Sound(s)
    ensures Sound(Ran(s, script)) && Follows(s, Ran(s, script)) && Ran(s, script).cancelled == s.cancelled
  {
    hide Sound, Follows, Advanced;
    if script == [] {
      FollowsItself(s);
    } else {
      var n := |script| - 1;
      RanKeeps(s, script[..n]);
      AdvancedKeeps(Ran(s, script[..n]), script[n]);
      FollowsIsTransitive(s, Ran(s, script[..n]), Ran(s, script));
    }
  }

  lemma {:induction false} RanSplits(s: Stream, script: seq<Step>, k: nat)
    requires k <= |script|
    ensures Ran(s, script) == Ran(Ran(s, script[..k]), script[k..])
  {
    hide Advanced;
    if k == |script| {
      assert script[..k] == script && script[k..] == [];
    } else {
      var n := |script| - 1;
      RanSplits(s, script[..n], k);
      assert script[..n][..k] == script[..k] && script[..n][k..] == script[k..][..n - k];
      assert script[k..][n - k] == script[n];
    }
  }

  predicate Offers(step: Step, e: string) {
    step.offer == Failure(Some(e)) || step.offer == MessagesClosed(Some(e))
  }

  /** An error Docker offers while the goroutine listens is the one it took, whatever happens next; unless the
      context ends, it is also the one it put into the error channel before closing it. */
  lemma ErrorIsForwarded(s: Stream, script: seq<Step>, k: nat, e: string)
    requires Sound(s) && k < |script|
    requires Ran(s, script[..k]).phase.Waiting? && !GivesUp(s, script[k]) && Offers(script[k], e)
    ensures Ran(s, script).taken == Some(e)
    ensures Ran(s, script).errorsClosed && !s.cancelled ==> Ran(s, script).forwarded == Some(e)
  {
    hide Ran;
    var before := Ran(s, script[..k]);
    var after := Advanced(before, script[k]);
    RanKeeps(s, script[..k]);
    AdvancedKeeps(before, script[k]);
    RanSplits(s, script, k + 1);
    assert script[..k + 1][..k] == script[..k];
    assert Ran(s, script[..k + 1]) == after by {
      RanStep(s, script[..k + 1]);
    }
    RanKeeps(after, script[k + 1..]);
  }

  lemma RanStep(s: Stream, script: seq<Step>)
    requires script != []
    ensures Ran(s, script) == Advanced(Ran(s, script[..|script| - 1]), script[|script| - 1])
  {
  }

  lemma TakesOnlyOffers(s: Stream, step: Step, e: string)
    requires Advanced(s, step).taken == Some(e)
    ensures s.taken == Some(e) || Offers(step, e)
  {
  }

  /** The goroutine invents no errors: what it took, Docker offered. */
  lemma {:induction false} TakenWasOffered(s: Stream, script: seq<Step>, e: string)
    requires s.taken.None? && Ran(s, script).taken == Some(e)
    ensures exists k :: 0 <= k < |script| && Offers(script[k], e)
  {
    hide Advanced, Offers;
    if script != [] {
      var n := |script| - 1;
      TakesOnlyOffers(Ran(s, script[..n]), script[n], e);
      if Ran(s, script[..n]).taken == Some(e) {
        TakenWasOffered(s, script[..n], e);
        var k :| 0 <= k < n && Offers(script[..n][k], e);
        assert Offers(script[k], e);
      } else {
        assert Offers(script[n], e);
      }
    }
  }

  /** The goroutine is still listening to Docker. */
  predicate Listens(s: Stream) {
    s.phase.Waiting? || s.phase.Sending?
  }

  /** Docker ends the stream, with or without an error. */
  predicate EndsStream(step: Step) {
    step.offer.MessagesClosed? || step.offer.Failure?
  }

  /** While its context lives and Docker does not end the stream, the goroutine goes on listening, however long Docker
      is silent, and closes nothing. */
  lemma {:induction false} ListensOn(s: Stream, script: seq<Step>)
    requires Sound(s) && !s.cancelled && Listens(s)
    requires forall k :: 0 <= k < |script| ==> !EndsStream(script[k])
    ensures var r := Ran(s, script); Listens(r) && !r.errorsClosed && !r.eventsClosed && r.error.None?
  {
    hide Advanced;
    RanKeeps(s, script);
    if script != [] {
      var n := |script| - 1;
      ListensOn(s, script[..n]);
      RanKeeps(s, script[..n]);
      AdvancedListens(Ran(s, script[..n]), script[n]);
    }
  }

  lemma AdvancedListens(s: Stream, step: Step)
    ensures Listens(s) && !s.cancelled && !EndsStream(step) ==> Listens(Advanced(s, step))
    ensures s.phase.Waiting? && EndsStream(step) ==> !Listens(Advanced(s, step))
    ensures s.phase.Waiting? && !GivesUp(s, step) && step.offer.Nothing? ==> Advanced(s, step) == s
    ensures Listens(s) && GivesUp(s, step) ==> !Listens(Advanced(s, step))
    ensures !Listens(s) ==> !Listens(Advanced(s, step))
  {
  }

  lemma {:induction false} StaysDeaf(s: Stream, script: seq<Step>)
    requires !Listens(s)
    ensures !Listens(Ran(s, script))
  {
    hide Advanced, Listens;
    if script != [] {
      var n := |script| - 1;
      StaysDeaf(s, script[..n]);
      AdvancedListens(Ran(s, script[..n]), script[n]);
    }
  }

  /** Once Docker has ended the stream before a waiting goroutine, it never listens again. */
  lemma EndIsFinal(s: Stream, script: seq<Step>, k: nat)
    requires k < |script| && Ran(s, script[..k]).phase.Waiting? && EndsStream(script[k])
    ensures !Listens(Ran(s, script))
  {
    hide Ran, Advanced, Listens;
    AdvancedListens(Ran(s, script[..k]), script[k]);
    assert script[..k + 1][..k] == script[..k];
    RanStep(s, script[..k + 1]);
    RanSplits(s, script, k + 1);
    StaysDeaf(Ran(s, script[..k + 1]), script[k + 1..]);
  }

  /** How many turns the goroutine needs to return. */
  function TurnsLeft(s: Stream): nat {
    match s.phase
    case Waiting => 4
    case Sending => 4
    case Forwarding(_) => 3
    case Returning => 2
    case ErrorsClosed => 1
    case Finished => 0
  }

  /** A goroutine that has stopped listening, or whose context is done and whose selects see it, closes both channels
      within a few turns. */
  lemma {:induction false} FinishesSoon(s: Stream, script: seq<Step>)
    requires !Listens(s) || (s.cancelled && forall k :: 0 <= k < |script| ==> script[k].giveUp)
    requires |script| >= TurnsLeft(s)
    ensures Ran(s, script).phase.Finished?
  {
    hide Advanced, TurnsLeft;
    TurnsRunOut(s, script);
    TurnsAreCounted(s, script);
  }

  lemma {:induction false} TurnsAreCounted(s: Stream, script: seq<Step>)
    requires !Listens(s) || (s.cancelled && forall k :: 0 <= k < |script| ==> script[k].giveUp)
    ensures TurnsLeft(Ran(s, script)) <= (if |script| >= TurnsLeft(s) then 0 else TurnsLeft(s) - |script|)
    ensures Ran(s, script).cancelled == s.cancelled
  {
    hide Advanced, TurnsLeft;
    if script != [] {
      var n := |script| - 1;
      TurnsAreCounted(s, script[..n]);
      if !Listens(s) {
        StaysDeaf(s, script[..n]);
      }
      AdvancedCounts(Ran(s, script[..n]), script[n]);
    }
  }

  lemma AdvancedCounts(s: Stream, step: Step)
    requires !Listens(s) || GivesUp(s, step)
    ensures TurnsLeft(Advanced(s, step)) <= (if TurnsLeft(s) == 0 then 0 else TurnsLeft(s) - 1)
    ensures Advanced(s, step).cancelled == s.cancelled
  {
  }

  lemma TurnsRunOut(s: Stream, script: seq<Step>)
    ensures TurnsLeft(Ran(s, script)) == 0 ==> Ran(s, script).phase.Finished?
  {
    hide Ran;
  }

  /** The messages the goroutine took from Docker in a run. */
  function Messages(s: Stream, script: seq<Step>): nat {
    if script == [] then 0
    else
      var n := |script| - 1;
      var before := Ran(s, script[..n]);
      Messages(s, script[..n]) +
      if before.phase.Waiting? && !GivesUp(before, script[n]) && script[n].offer.Message? then 1 else 0
  }

  /** A message has been taken and not yet been put into the channel. */
  function Unsent(s: Stream): nat {
    if s.phase.Sending? then 1 else 0
  }

  /** Every message taken is put into the event channel before the next one is taken, unless the context ends; and
      nothing else is put there. */
  lemma {:induction false} MessagesAreSent(s: Stream, script: seq<Step>)
    ensures var r := Ran(s, script);
            && r.sent + Unsent(r) <= s.sent + Unsent(s) + Messages(s, script)
            && (!s.cancelled ==> r.sent + Unsent(r) == s.sent + Unsent(s) + Messages(s, script))
    ensures Ran(s, script).cancelled == s.cancelled
  {
    hide Advanced;
    if script != [] {
      var n := |script| - 1;
      MessagesAreSent(s, script[..n]);
      AdvancedSends(Ran(s, script[..n]), script[n]);
    }
  }

  lemma AdvancedSends(s: Stream, step: Step)
    ensures var r := Advanced(s, step);
            var taken := if s.phase.Waiting? && !GivesUp(s, step) && step.offer.Message? then 1 else 0;
            && r.cancelled == s.cancelled
            && r.sent + Unsent(r) <= s.sent + Unsent(s) + taken
            && (!s.cancelled ==> r.sent + Unsent(r) == s.sent + Unsent(s) + taken)
  {
    hide Take;
    TakeSendsNothing(s, if step.offer.Failure? then step.offer.error else None);
    TakeSendsNothing(s, if step.offer.MessagesClosed? then step.offer.last else None);
  }

  lemma TakeSendsNothing(s: Stream, error: Option<string>)
    ensures var r := Take(s, error); r.sent == s.sent && r.cancelled == s.cancelled && !r.phase.Sending?
  {
  }

  /** What the goroutine keeps, together with a loop that receives from its channels. */
  ghost predicate Sound(s: Stream) {
    && (s.eventsClosed <==> s.phase.Finished?)
    && (s.errorsClosed <==> s.phase.Finished? || s.phase.ErrorsClosed?)
    && (s.forwarded.Some? ==> s.phase.Returning? || s.errorsClosed)
    && (s.error.Some? ==> s.forwarded == s.error)
    && (s.forwarded.Some? && !s.consumed ==> s.error == s.forwarded)
    && (s.forwarded.Some? ==> s.taken == s.forwarded)
    && (s.phase.Forwarding? ==> s.taken == Some(s.phase.error))
    && (s.phase.Waiting? || s.phase.Sending? ==> s.taken.None?)
    && (s.taken.Some? && !s.phase.Forwarding? && !s.cancelled ==> s.forwarded == s.taken)
    && (s.consumed ==> s.forwarded.Some? && s.error.None?)
    && s.sent == s.read + (if s.event then 1 else 0)
  }

  /** What later states cannot take back. */
  ghost predicate Follows(s: Stream, r: Stream) {
    && (s.eventsClosed ==> r.eventsClosed)
    && (s.errorsClosed ==> r.errorsClosed && r.forwarded == s.forwarded && r.taken == s.taken)
    && (s.forwarded.Some? ==> r.forwarded == s.forwarded && r.taken == s.taken)
    && (s.cancelled ==> r.cancelled)
    && r.consumed == s.consumed
    && (s.taken.Some? ==> r.taken == s.taken)
    && (s.event ==> r.event)
    && s.sent <= r.sent && r.read == s.read
    && (s.error.Some? ==> r.error == s.error)
  }

  lemma FollowsItself(s: Stream)
    ensures Follows(s, s)
  {
  }

  lemma CancelFollows(s: Stream)
    requires Sound(s)
    ensures Sound(s.(cancelled := true)) && Follows(s, s.(cancelled := true))
  {
  }

  lemma FollowsIsTransitive(a: Stream, b: Stream, c: Stream)
    requires Follows(a, b) && Follows(b, c)
    ensures Follows(a, c)
  {
  }

  /** A verdict on the stream is faithful when it is the error the mapper forwarded, or none when the
      mapper has returned without one; while the context is live that is the error Docker reported. */
  ghost predicate Faithful(verdict: Option<string>, s: Stream) {
    && (verdict.Some? ==> s.forwarded == verdict)
    && (verdict.None? ==> s.errorsClosed && s.forwarded.None?)
    && (!s.cancelled ==> verdict == s.taken)
  }

  /** A faithful verdict stays faithful, whatever the mapper does next. */
  lemma FaithfulIsStable(verdict: Option<string>, s: Stream, r: Stream)
    requires Faithful(verdict, s) && Follows(s, r)
    ensures Faithful(verdict, r)
  {
  }

  /******* Receiving *******/

  datatype Received<+T> = NotReady | Closed | Got(value: T)

  method ReceiveError(s: Stream) returns (got: Received<string>, r: Stream)
    requires Sound(s) && !s.consumed
    ensures Sound(r) && r.eventsClosed == s.eventsClosed && (s.cancelled <==> r.cancelled)
    ensures got.Got? ==> Faithful(Some(got.value), r)
    ensures got.Closed? ==> Faithful(None, r) && r == s
    ensures got.NotReady? ==> r == s
    ensures got.NotReady? <==> !s.errorsClosed && s.error.None?
  {
    if s.error.Some? {
      return Got(s.error.value), s.(error := None, consumed := true);
    }
    if s.errorsClosed {
      return Closed, s;
    }
    return NotReady, s;
  }

  /** The stream after a look at its event channel. */
  function Emptied(s: Stream): Stream {
    if s.event then s.(event := false, read := s.read + 1) else s
  }

  method ReceiveEvent(s: Stream) returns (got: Received<()>, r: Stream)
    requires Sound(s)
    ensures Sound(r) && r == Emptied(s)
    ensures got.Got? <==> s.event
    ensures got.Closed? <==> !s.event && s.eventsClosed
    ensures got.Closed? ==> s.errorsClosed
  {
    if s.event {
      return Got(()), s.(event := false, read := s.read + 1);
    }
    if s.eventsClosed {
      return Closed, s;
    }
    return NotReady, s;
  }
}
