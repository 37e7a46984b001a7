/** The endpoint snapshot of docker/client.go, from what the Docker API answered. */
module Snapshot {
  import opened Basics
  import opened Ordering
  import opened Render

  datatype Settings = Settings(ipv4: Addr, ipv6: Addr, aliases: seq<string>)

  /** One container inspection; a container without network settings has networks None. */
  datatype Outcome =
    | NotFound
    | Failed(error: string)
    | Inspected(networks: Option<map<string, Option<Settings>>>)

  datatype Item = Item(id: string, outcome: Outcome)

  datatype Listing = Listed(items: seq<Item>) | ListFailed(error: string)

  datatype Result =
    | Endpoints(endpoints: seq<Endpoint>)
    | NoNetworks
    | CannotList(error: string)
    | CannotInspect(id: string, error: string)

  /******* What is published *******/

  /** The non-empty aliases, each once, sorted. */
  function Normalized(aliases: seq<string>): (r: seq<string>)
    ensures StrictlySorted(r)
  {
    if aliases == [] then []
    else
      var rest := Normalized(aliases[..|aliases| - 1]);
      if aliases[|aliases| - 1] == "" then rest else AddName(rest, aliases[|aliases| - 1])
  }

  lemma {:induction false} NormalizedAre(aliases: seq<string>)
    ensures forall x :: x in Normalized(aliases) <==> x in aliases && x != ""
  {
    hide StrictlySorted;
    if aliases != [] {
      var n := |aliases| - 1;
      NormalizedAre(aliases[..n]);
      assert aliases == aliases[..n] + [aliases[n]];
    }
  }

  function Address(s: Settings): Addr {
    if s.ipv4.V4? then s.ipv4 else if s.ipv6.V6? then s.ipv6 else NoAddr
  }

  /** The endpoint one container contributes to one network, if any. */
  function Publishable(outcome: Outcome, network: string): Option<Endpoint> {
    if !outcome.Inspected? || outcome.networks.None? then None
    else
      var networks := outcome.networks.value;
      if network !in networks || networks[network].None? then None
      else
        var s := networks[network].value;
        if Address(s).NoAddr? || Normalized(s.aliases) == [] then None
        else Some(Endpoint(network, Address(s), Normalized(s.aliases)))
  }

  function FromContainer(outcome: Outcome, networks: seq<string>): seq<Endpoint> {
    if networks == [] then []
    else
      var rest := FromContainer(outcome, networks[..|networks| - 1]);
      match Publishable(outcome, networks[|networks| - 1])
      case None => rest
      case Some(e) => rest + [e]
  }

  function FromAll(items: seq<Item>, networks: seq<string>): seq<Endpoint> {
    if items == [] then []
    else FromAll(items[..|items| - 1], networks) + FromContainer(items[|items| - 1].outcome, networks)
  }

  /******* What that means *******/

  /** The container was inspected and is on the network with these settings. */
  ghost predicate On(outcome: Outcome, network: string, s: Settings) {
    && outcome.Inspected? && outcome.networks.Some?
    && network in outcome.networks.value && outcome.networks.value[network] == Some(s)
  }

  /** The endpoint of these settings: the IPv4 address if there is one and otherwise the IPv6 address, and all the
      non-empty aliases, each once and in order. */
  ghost predicate Describes(s: Settings, e: Endpoint) {
    && (if s.ipv4.V4? then e.ip == s.ipv4 else s.ipv6.V6? && e.ip == s.ipv6)
    && e.aliases != [] && StrictlySorted(e.aliases)
    && forall x :: x in e.aliases <==> x in s.aliases && x != ""
  }

  /** The container is on the network with an address and a name. */
  ghost predicate Reachable(outcome: Outcome, network: string) {
    exists s :: On(outcome, network, s) && (s.ipv4.V4? || s.ipv6.V6?) && HasName(s)
  }

  ghost predicate HasName(s: Settings) {
    exists x :: x in s.aliases && x != ""
  }

  lemma PublishableIs(outcome: Outcome, network: string, e: Endpoint)
    ensures Publishable(outcome, network) == Some(e) <==>
            e.network == network && exists s :: On(outcome, network, s) && Describes(s, e)
    ensures Publishable(outcome, network).Some? <==> Reachable(outcome, network)
  {
    hide Publishable, Describes, HasName;
    if exists s :: On(outcome, network, s) {
      var s :| On(outcome, network, s);
      PublishableOf(outcome, network, s, e);
    } else {
      UnpublishableOf(outcome, network);
    }
  }

  lemma PublishableOf(outcome: Outcome, network: string, s: Settings, e: Endpoint)
    requires On(outcome, network, s)
    ensures Publishable(outcome, network) == Some(e) <==> e.network == network && Describes(s, e)
    ensures Publishable(outcome, network).Some? <==> (s.ipv4.V4? || s.ipv6.V6?) && HasName(s)
  {
    hide Normalized, StrictlySorted;
    NormalizedAre(s.aliases);
    var names := Normalized(s.aliases);
    assert HasName(s) <==> names != [] by {
      if names != [] {
        assert names[0] in s.aliases && names[0] != "";
      }
    }
    if Describes(s, e) {
      SortedSetIsUnique(e.aliases, names);
    }
  }

  lemma UnpublishableOf(outcome: Outcome, network: string)
    requires !exists s :: On(outcome, network, s)
    ensures Publishable(outcome, network).None?
  {
    if Publishable(outcome, network).Some? {
      assert On(outcome, network, outcome.networks.value[network].value);
    }
  }

  /** Some listed container is on one of the networks with settings that this endpoint describes. */
  ghost predicate Publishes(items: seq<Item>, networks: seq<string>, e: Endpoint) {
    e.network in networks && exists i, s :: 0 <= i < |items| && On(items[i].outcome, e.network, s) && Describes(s, e)
  }

  /** How many of the networks the container is reachable on. */
  ghost function ReachableOn(outcome: Outcome, networks: seq<string>): nat {
    if networks == [] then 0
    else
      ReachableOn(outcome, networks[..|networks| - 1]) +
      if Reachable(outcome, networks[|networks| - 1]) then 1 else 0
  }

  /** The number of containers and networks on which they are reachable. */
  ghost function ReachablePairs(items: seq<Item>, networks: seq<string>): nat {
    if items == [] then 0
    else ReachablePairs(items[..|items| - 1], networks) + ReachableOn(items[|items| - 1].outcome, networks)
  }

  lemma {:induction false} ContainerCounts(outcome: Outcome, networks: seq<string>)
    ensures |FromContainer(outcome, networks)| == ReachableOn(outcome, networks)
  {
    hide Publishable, Reachable;
    if networks != [] {
      var n := |networks| - 1;
      ContainerCounts(outcome, networks[..n]);
      PublishableIs(outcome, networks[n], Endpoint("", NoAddr, []));
    }
  }

  lemma {:induction false} SnapshotCounts(items: seq<Item>, networks: seq<string>)
    ensures |FromAll(items, networks)| == ReachablePairs(items, networks)
  {
    hide FromContainer, ReachableOn;
    if items != [] {
      var n := |items| - 1;
      SnapshotCounts(items[..n], networks);
      ContainerCounts(items[n].outcome, networks);
    }
  }

  lemma SnapshotPublishes(items: seq<Item>, networks: seq<string>, e: Endpoint)
    ensures e in FromAll(items, networks) <==> Publishes(items, networks, e)
  {
    hide Publishable, FromAll, On, Describes;
    SnapshotContents(items, networks, e);
    if e in FromAll(items, networks) {
      var i, k :| 0 <= i < |items| && 0 <= k < |networks| && Publishable(items[i].outcome, networks[k]) == Some(e);
      PublishableIs(items[i].outcome, networks[k], e);
    }
    if Publishes(items, networks, e) {
      var i, s :| 0 <= i < |items| && On(items[i].outcome, e.network, s) && Describes(s, e);
      var k :| 0 <= k < |networks| && networks[k] == e.network;
      PublishableIs(items[i].outcome, networks[k], e);
    }
  }

  /** A snapshot holds one endpoint for each container and network on which it is reachable, and describes exactly
      these. */
  lemma AssembledPublishes(items: seq<Item>, networks: seq<string>)
    ensures |Assembled(items, networks)| == ReachablePairs(items, networks)
    ensures forall e :: e in Assembled(items, networks) <==> Publishes(items, networks, e)
  {
    hide FromAll, Publishes, Sorted, Comparison;
    var all, endpoints := FromAll(items, networks), Assembled(items, networks);
    SameLength(all, endpoints);
    SnapshotCounts(items, networks);
    forall e ensures e in endpoints <==> Publishes(items, networks, e) {
      assert e in endpoints <==> e in multiset(endpoints);
      assert e in all <==> e in multiset(all);
      SnapshotPublishes(items, networks, e);
    }
  }

  /******* Order *******/

  /** networkOrder: the first position of a network in the configuration. */
  function Position(networks: seq<string>, network: string): nat {
    if networks == [] || networks[0] == network then 0 else 1 + Position(networks[1..], network)
  }

  lemma {:induction false} PositionIdentifies(networks: seq<string>, a: string, b: string)
    requires a in networks && b in networks && Position(networks, a) == Position(networks, b)
    ensures a == b
  {
    if networks[0] != a && networks[0] != b {
      PositionIdentifies(networks[1..], a, b);
    }
  }

  function CompareEndpoints(networks: seq<string>, a: Endpoint, b: Endpoint): int {
    Or(Position(networks, a.network) - Position(networks, b.network),
       Or(CompareAddr(a.ip, b.ip), CompareTexts(a.aliases, b.aliases)))
  }

  function Comparison(networks: seq<string>): (Endpoint, Endpoint) -> int {
    (a, b) => CompareEndpoints(networks, a, b)
  }

  lemma EndpointsArePreordered(networks: seq<string>)
    ensures IsPreorder(Comparison(networks))
  {
    hide CompareTexts, CompareAddr, Position;
    TextsAreOrdered();
    AddrIsOrdered();
    forall a, b, c | CompareEndpoints(networks, a, b) <= 0 && CompareEndpoints(networks, b, c) <= 0
      ensures CompareEndpoints(networks, a, c) <= 0
    {
      EndpointsTransitive(networks, a, b, c);
    }
  }

  lemma EndpointsTransitive(networks: seq<string>, a: Endpoint, b: Endpoint, c: Endpoint)
    requires CompareEndpoints(networks, a, b) <= 0 && CompareEndpoints(networks, b, c) <= 0
    ensures CompareEndpoints(networks, a, c) <= 0
  {
    hide CompareTexts, CompareAddr, Position;
    TextsAreOrdered();
    AddrIsOrdered();
    if Position(networks, a.network) == Position(networks, c.network) {
      assert Position(networks, a.network) == Position(networks, b.network);
      if a.ip == c.ip {
        assert a.ip == b.ip;
      }
    }
  }

  /** The comparison ties only on equal endpoints. */
  lemma TiesAreEqual(networks: seq<string>, a: Endpoint, b: Endpoint)
    requires a.network in networks && b.network in networks
    requires CompareEndpoints(networks, a, b) <= 0 && CompareEndpoints(networks, b, a) <= 0
    ensures a == b
  {
    hide CompareTexts, CompareAddr, Position;
    TextsAreOrdered();
    AddrIsOrdered();
    PositionIdentifies(networks, a.network, b.network);
  }

  /******* Methods *******/

  /** normalizeAliases: drop empty and repeated aliases, then sort. */
  method NormalizeAliases(aliases: seq<string>) returns (normalized: seq<string>)
    ensures normalized == Normalized(aliases)
  {
    hide StrictlySorted, Sorted, CompareText, IsPreorder, IsOrder;
    var seen: set<string> := {};
    var kept: seq<string> := [];
    for i := 0 to |aliases|
      invariant seen == SetOf(kept)
      invariant Distinct(kept)
      invariant forall x :: x in kept <==> x in aliases[..i] && x != ""
    {
      assert aliases[..i + 1] == aliases[..i] + [aliases[i]];
      if aliases[i] != "" && aliases[i] !in seen {
        seen := seen + {aliases[i]};
        kept := kept + [aliases[i]];
      }
    }
    assert aliases[..|aliases|] == aliases;
    TextIsPreordered();
    normalized := Sort(CompareText, kept);
    SortedDistinct(kept, normalized);
    NormalizedAre(aliases);
    SortedSetIsUnique(normalized, Normalized(aliases));
  }

  ghost predicate Distinct(s: seq<string>) {
    forall i, j :: 0 <= i < j < |s| ==> s[i] != s[j]
  }

  lemma TextIsPreordered()
    ensures IsPreorder(CompareText)
  {
    hide CompareText;
    TextIsOrdered();
  }

  lemma {:induction false} DistinctCounts(s: seq<string>)
    requires Distinct(s)
    ensures forall x :: multiset(s)[x] <= 1
  {
    if s != [] {
      var n := |s| - 1;
      assert s == s[..n] + [s[n]];
      DistinctCounts(s[..n]);
      assert s[n] !in s[..n];
      assert s[n] !in multiset(s[..n]);
    }
  }

  lemma SortedDistinct(kept: seq<string>, sorted: seq<string>)
    requires Distinct(kept) && multiset(kept) == multiset(sorted) && Sorted(CompareText, sorted)
    ensures StrictlySorted(sorted)
    ensures forall x :: x in sorted <==> x in kept
  {
    hide CompareText;
    TextIsOrdered();
    DistinctCounts(kept);
    forall x ensures x in sorted <==> x in kept {
      assert x in multiset(sorted) <==> x in multiset(kept);
    }
    forall i, j | 0 <= i < j < |sorted| ensures CompareText(sorted[i], sorted[j]) < 0 {
      OncePerElement(sorted, i, j);
    }
  }

  lemma OncePerElement(s: seq<string>, i: nat, j: nat)
    requires i < j < |s| && multiset(s)[s[j]] <= 1
    ensures s[i] != s[j]
  {
    RemoveAt(s, j);
    var rest := s[..j] + s[j + 1..];
    assert rest[i] == s[i] && rest[i] in multiset(rest);
  }

  /** Every inspection finishes, in the order `finished`. */
  ghost predicate AllFinish(finished: seq<nat>, n: nat) {
    && (forall i :: 0 <= i < n ==> i in finished)
    && (forall k :: 0 <= k < |finished| ==> finished[k] < n)
  }

  /** The inspections run concurrently; each writes its own slot when it finishes. */
  method InspectAll(items: seq<Item>, finished: seq<nat>) returns (outcomes: seq<Outcome>)
    requires AllFinish(finished, |items|)
    ensures |outcomes| == |items| && forall i :: 0 <= i < |items| ==> outcomes[i] == items[i].outcome
  {
    var slots := new Outcome[|items|](_ => NotFound);
    for k := 0 to |finished|
      invariant forall i :: i in finished[..k] ==> slots[i] == items[i].outcome
    {
      slots[finished[k]] := items[finished[k]].outcome;
    }
    assert finished[..|finished|] == finished;
    outcomes := slots[..];
  }

  ghost predicate FirstFailure(items: seq<Item>, i: nat) {
    && i < |items|
    && items[i].outcome.Failed?
    && forall k :: 0 <= k < i ==> !items[k].outcome.Failed?
  }

  ghost predicate Reports(items: seq<Item>, i: nat, r: Result) {
    FirstFailure(items, i) && r == CannotInspect(items[i].id, items[i].outcome.error)
  }

  ghost predicate NoFailure(items: seq<Item>) {
    forall k :: 0 <= k < |items| ==> !items[k].outcome.Failed?
  }

  /** The endpoints of a snapshot. */
  function Assembled(items: seq<Item>, networks: seq<string>): (r: seq<Endpoint>)
    ensures multiset(r) == multiset(FromAll(items, networks)) && Sorted(Comparison(networks), r)
  {
    EndpointsArePreordered(networks);
    Sort(Comparison(networks), FromAll(items, networks))
  }

  /** Snapshot, after the API has answered. */
  method TakeSnapshot(networks: seq<string>, listing: Listing, finished: seq<nat>) returns (r: Result)
    requires listing.Listed? ==> AllFinish(finished, |listing.items|)
    ensures r.NoNetworks? <==> networks == []
    ensures r.CannotList? <==> networks != [] && listing.ListFailed?
    ensures r.CannotInspect? ==> listing.Listed? && exists i :: Reports(listing.items, i, r)
    ensures r.Endpoints? <==> networks != [] && listing.Listed? && NoFailure(listing.items)
    ensures r.Endpoints? ==> r.endpoints == Assembled(listing.items, networks)
    ensures r.Endpoints? ==> |r.endpoints| == ReachablePairs(listing.items, networks)
    ensures r.Endpoints? ==> forall e :: e in r.endpoints <==> Publishes(listing.items, networks, e)
    ensures r.Endpoints? ==> multiset(r.endpoints) == multiset(FromAll(listing.items, networks))
                             && Sorted(Comparison(networks), r.endpoints)
  {
    hide Publishable, Sorted, Comparison, IsPreorder, FromContainer, Publishes, ReachablePairs;
    if networks == [] {
      return NoNetworks;
    }
    if listing.ListFailed? {
      return CannotList(listing.error);
    }
    var items := listing.items;
    var outcomes := InspectAll(items, finished);
    var endpoints := [];
    for i := 0 to |items|
      invariant forall k :: 0 <= k < i ==> !items[k].outcome.Failed?
      invariant endpoints == FromAll(items[..i], networks)
    {
      assert items[..i + 1][..i] == items[..i];
      if outcomes[i].Failed? {
        r := CannotInspect(items[i].id, outcomes[i].error);
        assert Reports(items, i, r);
        return;
      }
      var contributed := Contribute(outcomes[i], networks);
      endpoints := endpoints + contributed;
    }
    assert items[..|items|] == items;
    EndpointsArePreordered(networks);
    AssembledPublishes(items, networks);
    return Endpoints(Sort(Comparison(networks), endpoints));
  }

  method Contribute(outcome: Outcome, networks: seq<string>) returns (endpoints: seq<Endpoint>)
    ensures endpoints == FromContainer(outcome, networks)
    ensures forall e :: e in endpoints <==>
              e.network in networks && exists s :: On(outcome, e.network, s) && Describes(s, e)
  {
    hide StrictlySorted, Normalized, Describes;
    ContributePublishes(outcome, networks);
    endpoints := [];
    for k := 0 to |networks|
      invariant endpoints == FromContainer(outcome, networks[..k])
    {
      assert networks[..k + 1][..k] == networks[..k];
      if !outcome.Inspected? || outcome.networks.None? {
        continue;
      }
      var settings := outcome.networks.value;
      if networks[k] !in settings || settings[networks[k]].None? {
        continue;
      }
      var s := settings[networks[k]].value;
      var ip := s.ipv4;
      if !ip.V4? {
        ip := s.ipv6;
        if !ip.V6? {
          continue;
        }
      }
      var aliases := NormalizeAliases(s.aliases);
      if aliases == [] {
        continue;
      }
      endpoints := endpoints + [Endpoint(networks[k], ip, aliases)];
    }
    assert networks[..|networks|] == networks;
  }

  /******* Laws *******/

  lemma {:induction false} ContainerContents(outcome: Outcome, networks: seq<string>, e: Endpoint)
    ensures e in FromContainer(outcome, networks) <==>
            exists k :: 0 <= k < |networks| && Publishable(outcome, networks[k]) == Some(e)
  {
    hide Publishable;
    if networks != [] {
      var n := |networks| - 1;
      ContainerContents(outcome, networks[..n], e);
      assert forall k :: 0 <= k < n ==> networks[..n][k] == networks[k];
    }
  }

  /** The snapshot holds exactly the publishable container and network pairs. */
  lemma {:induction false} SnapshotContents(items: seq<Item>, networks: seq<string>, e: Endpoint)
    ensures e in FromAll(items, networks) <==>
            exists i, k :: 0 <= i < |items| && 0 <= k < |networks|
                && Publishable(items[i].outcome, networks[k]) == Some(e)
  {
    hide Publishable, FromContainer;
    if items != [] {
      var n := |items| - 1;
      SnapshotContents(items[..n], networks, e);
      ContainerContents(items[n].outcome, networks, e);
      assert forall i :: 0 <= i < n ==> items[..n][i] == items[i];
    }
  }

  lemma FromAllLast(items: seq<Item>, networks: seq<string>)
    requires items != []
    ensures multiset(FromAll(items, networks)) ==
            multiset(FromAll(items[..|items| - 1], networks)) +
            multiset(FromContainer(items[|items| - 1].outcome, networks))
  {
    hide FromContainer;
  }

  lemma {:induction false} FromAllSplit(items: seq<Item>, networks: seq<string>, j: nat)
    requires j < |items|
    ensures multiset(FromAll(items, networks)) ==
            multiset(FromAll(items[..j] + items[j + 1..], networks)) +
            multiset(FromContainer(items[j].outcome, networks))
  {
    hide FromContainer, FromAll;
    var n := |items| - 1;
    FromAllLast(items, networks);
    if j < n {
      SplitLast(items, j);
      FromAllLast(items[..j] + items[j + 1..], networks);
      FromAllSplit(items[..n], networks, j);
    } else {
      assert items[..j] + items[j + 1..] == items[..n];
    }
  }

  lemma SplitLast(items: seq<Item>, j: nat)
    requires j < |items| - 1
    ensures var rest := items[..j] + items[j + 1..];
            rest[..|rest| - 1] == items[..|items| - 1][..j] + items[..|items| - 1][j + 1..]
                && rest[|rest| - 1] == items[|items| - 1]
  {
  }

  lemma {:induction false} ListOrderIrrelevant(a: seq<Item>, b: seq<Item>, networks: seq<string>)
    requires multiset(a) == multiset(b)
    ensures multiset(FromAll(a, networks)) == multiset(FromAll(b, networks))
    decreases |a|
  {
    hide FromContainer;
    SameLength(a, b);
    if a != [] {
      var n := |a| - 1;
      var j := FindElement(a, b, a[n]);
      RemoveAt(a, n);
      RemoveAt(b, j);
      assert a[..n] + a[n + 1..] == a[..n];
      Cancel(multiset(a[..n]), multiset(b[..j] + b[j + 1..]), a[n]);
      ListOrderIrrelevant(a[..n], b[..j] + b[j + 1..], networks);
      FromAllSplit(b, networks, j);
    }
  }

  /** Two snapshots of the same containers are equal, however the API listed them. */
  lemma SnapshotIsCanonical(a: seq<Item>, b: seq<Item>, networks: seq<string>, r1: seq<Endpoint>, r2: seq<Endpoint>)
    requires multiset(a) == multiset(b)
    requires multiset(r1) == multiset(FromAll(a, networks)) && Sorted(Comparison(networks), r1)
    requires multiset(r2) == multiset(FromAll(b, networks)) && Sorted(Comparison(networks), r2)
    ensures r1 == r2
  {
    hide Sorted, FromAll, CompareEndpoints, Publishable;
    ListOrderIrrelevant(a, b, networks);
    var cmp := Comparison(networks);
    forall x, y | x in r1 && y in r1 && cmp(x, y) <= 0 && cmp(y, x) <= 0 ensures x == y {
      assert x in multiset(FromAll(a, networks)) && y in multiset(FromAll(a, networks));
      PublishedOnNetwork(a, networks, x);
      PublishedOnNetwork(a, networks, y);
      TiesAreEqual(networks, x, y);
    }
    SortedIsUnique(cmp, r1, r2);
  }

  /** IPv4 before IPv6, and by value. */
  ghost predicate LowerAddress(a: Addr, b: Addr) {
    a.Bits() < b.Bits() || (a.Bits() == b.Bits() && a.Value() < b.Value())
  }

  /** Endpoints come in configured network order, then by address, then by aliases. */
  lemma SnapshotOrder(networks: seq<string>, endpoints: seq<Endpoint>, i: nat, j: nat)
    requires Sorted(Comparison(networks), endpoints) && i < j < |endpoints|
    ensures var a, b := endpoints[i], endpoints[j];
            || Position(networks, a.network) < Position(networks, b.network)
            || (Position(networks, a.network) == Position(networks, b.network) && LowerAddress(a.ip, b.ip))
            || (Position(networks, a.network) == Position(networks, b.network) && a.ip == b.ip
                && (a.aliases == b.aliases || ListBefore(a.aliases, b.aliases)))
  {
    hide CompareTexts, Position, ListBefore;
    AddrIsOrdered();
    TextsAreOrdered();
    CompareTextsIs(endpoints[i].aliases, endpoints[j].aliases);
    var cmp := Comparison(networks);
    assert cmp(endpoints[i], endpoints[j]) <= 0;
  }

  lemma ContributePublishes(outcome: Outcome, networks: seq<string>)
    ensures forall e :: e in FromContainer(outcome, networks) <==>
              e.network in networks && exists s :: On(outcome, e.network, s) && Describes(s, e)
  {
    hide Publishable, FromContainer, On, Describes;
    forall e ensures e in FromContainer(outcome, networks) <==>
                     e.network in networks && exists s :: On(outcome, e.network, s) && Describes(s, e)
    {
      ContainerContents(outcome, networks, e);
      if e in FromContainer(outcome, networks) {
        var k :| 0 <= k < |networks| && Publishable(outcome, networks[k]) == Some(e);
        PublishableIs(outcome, networks[k], e);
      }
      if e.network in networks && exists s :: On(outcome, e.network, s) && Describes(s, e) {
        var k :| 0 <= k < |networks| && networks[k] == e.network;
        PublishableIs(outcome, networks[k], e);
      }
    }
  }

  /** A network's position is its first occurrence in the configuration. */
  lemma {:induction false} PositionIsFirst(networks: seq<string>, network: string)
    requires network in networks
    ensures Position(networks, network) < |networks| && networks[Position(networks, network)] == network
    ensures forall k :: 0 <= k < Position(networks, network) ==> networks[k] != network
  {
    if networks[0] != network {
      PositionIsFirst(networks[1..], network);
      assert forall k :: 0 < k < |networks| ==> networks[k] == networks[1..][k - 1];
    }
  }

  lemma PublishedOnNetwork(items: seq<Item>, networks: seq<string>, e: Endpoint)
    requires e in FromAll(items, networks)
    ensures e.network in networks
  {
    hide Normalized, FromAll;
    SnapshotContents(items, networks, e);
  }
}
