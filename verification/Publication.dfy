/** From Docker to the hosts file: what the managed lines say about the containers Docker listed. */
module Publication {
  import opened Basics
  import opened Backoff
  import opened Ordering
  import opened Render
  import opened RenderLaws
  import opened Disk
  import opened World
  import opened Store
  import opened StoreApply
  import opened StoreRuns
  import opened Reconciler
  import opened Heads
  import Docker = Snapshot

  /** The bytes do not depend on the order in which Docker lists its containers, even if rows tie. */
  lemma ListingOrderIsImmaterial(c: Config, a: seq<Docker.Item>, b: seq<Docker.Item>)
    requires multiset(a) == multiset(b)
    ensures BodyFor(c, Docker.Assembled(a, c.networks)) == BodyFor(c, Docker.Assembled(b, c.networks))
  {
    hide BodyFor, Sorted, Docker.FromAll, Docker.Comparison;
    Docker.SnapshotIsCanonical(a, b, c.networks, Docker.Assembled(a, c.networks), Docker.Assembled(b, c.networks));
  }

  /** The line of some container on some network. */
  ghost predicate IsLineOf(c: Config, items: seq<Docker.Item>, line: Parsed) {
    exists e :: Docker.Publishes(items, c.networks, e) && line == Expected(e, c.defaultNetwork, c.show)
  }

  /** A hosts file in step has one line per container and network on which it is reachable, with its address and
      exactly its names, and no other line in its section. */
  lemma MirroredLines(c: Config, slots: Slots, listing: Docker.Listing)
    requires GoodConfig(c) && Mirrors(c, slots, listing)
    ensures var lines := ParseBody(BodyOf(c, slots.target.now.data));
            && |lines| == Docker.ReachablePairs(listing.items, c.networks)
            && forall line :: line in lines <==> IsLineOf(c, listing.items, line)
  {
    hide GoodConfig, InStep, ParseBody, Docker.Assembled, Docker.NoFailure, Docker.Publishes, Docker.ReachablePairs,
         Expected, Sorted;
    var endpoints := Docker.Assembled(listing.items, c.networks);
    BodyParses(c, slots, endpoints);
    Docker.AssembledPublishes(listing.items, c.networks);
    var lines := ParseBody(BodyOf(c, slots.target.now.data));
    var f := (e: Endpoint) => Expected(e, c.defaultNetwork, c.show);
    SameLength(lines, Map(f, endpoints));
    forall line ensures line in lines <==> IsLineOf(c, listing.items, line) {
      assert line in lines <==> line in multiset(lines);
      assert line in Map(f, endpoints) <==> line in multiset(Map(f, endpoints));
      if line in Map(f, endpoints) {
        var i :| 0 <= i < |endpoints| && Map(f, endpoints)[i] == line;
        assert endpoints[i] in endpoints;
      }
      if IsLineOf(c, listing.items, line) {
        var e :| Docker.Publishes(listing.items, c.networks, e) && line == Expected(e, c.defaultNetwork, c.show);
        var i :| 0 <= i < |endpoints| && endpoints[i] == e;
        assert Map(f, endpoints)[i] == line;
      }
    }
  }

  lemma BodyParses(c: Config, slots: Slots, endpoints: seq<Endpoint>)
    requires GoodConfig(c) && InStep(c, slots, endpoints)
    ensures slots.target.now.File?
    ensures multiset(ParseBody(BodyOf(c, slots.target.now.data))) ==
            multiset(Map((e: Endpoint) => Expected(e, c.defaultNetwork, c.show), endpoints))
  {
    hide ParseBody, Expected, GoodSorter, GoodPrinter, BodyFor, BodyOf, AllValid, ValidPart, Valid, Renders;
    BodyIsGood(c, endpoints);
    RenderRoundTrip(endpoints, c.defaultNetwork, c.show, BodyFor(c, endpoints));
  }

  /** While running, a healthy answer means that the managed lines are exactly those of the containers Docker listed
      last. */
  lemma HealthyShowsContainers(p: Params, c: Config, h: Head)
    requires GoodConfig(c) && GoodHead(p, c, false, h) && !Stopped(h.picture.env) && h.healthy
    ensures var attempts, target := h.picture.env.attempts, h.picture.store.slots.target.now;
            && attempts != [] && attempts[|attempts| - 1].listing.Listed? && target.File?
            && var items := attempts[|attempts| - 1].listing.items;
               forall line :: line in ParseBody(BodyOf(c, target.data)) <==> IsLineOf(c, items, line)
  {
    hide GoodConfig, GoodHead, ParseBody, IsLineOf, BodyOf, Docker.ReachablePairs, Docker.NoFailure;
    HealthyMeansInStep(p, c, h);
    var attempts := h.picture.env.attempts;
    MirroredLines(c, h.picture.store.slots, attempts[|attempts| - 1].listing);
  }
}
