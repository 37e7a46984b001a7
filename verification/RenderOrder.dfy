/** When the rendered bytes are determined by the endpoints alone.

    The sort fixes no order among rows that tie under the comparison, so with such rows the
    bytes follow the order in which the endpoints are listed.
 */
module RenderOrder {
  import opened Markers
  import opened Ordering
  import opened Render
  import opened RenderLaws

  /** An endpoint with the order and repetition of its aliases forgotten. */
  datatype Shape = Shape(network: string, ip: Addr, aliases: set<string>)

  function ShapeOf(e: Endpoint): Shape {
    Shape(e.network, e.ip, SetOf(e.aliases))
  }

  ghost predicate SameUpToOrder(e1: seq<Endpoint>, e2: seq<Endpoint>) {
    multiset(Map(ShapeOf, e1)) == multiset(Map(ShapeOf, e2))
  }

  ghost predicate Tied(a: Row, b: Row) {
    CompareRows(a, b) <= 0 && CompareRows(b, a) <= 0
  }

  ghost predicate TiesAreEqual(rows: seq<Row>) {
    forall x, y :: x in rows && y in rows && Tied(x, y) ==> x == y
  }

  ghost predicate Unambiguous(endpoints: seq<Endpoint>, defaultNetwork: string, show: Addr -> string) {
    TiesAreEqual(RowsOf(endpoints, defaultNetwork, show))
  }

  ghost predicate NoSharedAddress(endpoints: seq<Endpoint>) {
    forall i, j :: 0 <= i < j < |endpoints| ==>
        endpoints[i].network != endpoints[j].network || endpoints[i].ip != endpoints[j].ip
  }

  lemma TieMeansSameKeys(a: Row, b: Row)
    ensures Tied(a, b) <==> First(a) == First(b) && a.network == b.network && a.ip == b.ip
  {
    hide CompareText, CompareAddr, First;
    TextIsOrdered();
    AddrIsOrdered();
  }

  lemma NoSharedAddressIsUnambiguous(endpoints: seq<Endpoint>, defaultNetwork: string, show: Addr -> string)
    requires NoSharedAddress(endpoints)
    ensures Unambiguous(endpoints, defaultNetwork, show)
  {
    hide Hostnames, Tied;
    var rows := RowsOf(endpoints, defaultNetwork, show);
    forall x, y | x in rows && y in rows && Tied(x, y) ensures x == y {
      TieMeansSameKeys(x, y);
      var i :| 0 <= i < |rows| && rows[i] == x;
      var j :| 0 <= j < |rows| && rows[j] == y;
    }
  }

  lemma ShapeDecidesRow(a: Endpoint, b: Endpoint, defaultNetwork: string, show: Addr -> string)
    requires ShapeOf(a) == ShapeOf(b)
    ensures RowOf(a, defaultNetwork, show) == RowOf(b, defaultNetwork, show)
  {
    hide Hostnames, StrictlySorted, Qualified;
    var bare := a.network == defaultNetwork;
    HostnamesAre(a.aliases, a.network, bare);
    HostnamesAre(b.aliases, b.network, bare);
    forall name ensures Named(a.aliases, a.network, bare, name) <==> Named(b.aliases, b.network, bare, name) {
      NamedBySet(a.aliases, b.aliases, a.network, bare, name);
      NamedBySet(b.aliases, a.aliases, a.network, bare, name);
    }
    SortedSetIsUnique(Hostnames(a.aliases, a.network, bare), Hostnames(b.aliases, b.network, bare));
  }

  lemma NamedBySet(a: seq<string>, b: seq<string>, network: string, bare: bool, name: string)
    requires SetOf(a) == SetOf(b)
    ensures Named(a, network, bare, name) ==> Named(b, network, bare, name)
  {
    hide Qualified;
    if Named(a, network, bare, name) {
      var i :| 0 <= i < |a| && (name == Qualified(a[i], network) || (bare && name == a[i]));
      assert a[i] in SetOf(a);
      assert a[i] in b;
      var j :| 0 <= j < |b| && b[j] == a[i];
    }
  }

  lemma SameRows(e1: seq<Endpoint>, e2: seq<Endpoint>, defaultNetwork: string, show: Addr -> string)
    requires SameUpToOrder(e1, e2)
    ensures multiset(RowsOf(e1, defaultNetwork, show)) == multiset(RowsOf(e2, defaultNetwork, show))
  {
    hide RowOf, ShapeOf;
    var g := (e: Endpoint) => RowOf(e, defaultNetwork, show);
    forall x, y | ShapeOf(x) == ShapeOf(y) ensures g(x) == g(y) {
      ShapeDecidesRow(x, y, defaultNetwork, show);
    }
    MapFactors(ShapeOf, g, e1, e2);
  }

  /** Permuting the endpoints, or permuting and repeating their aliases, leaves the bytes unchanged. */
  lemma RenderIsCanonical(e1: seq<Endpoint>, e2: seq<Endpoint>, defaultNetwork: string, show: Addr -> string,
                          t1: Text, t2: Text)
    requires SameUpToOrder(e1, e2)
    requires Unambiguous(e1, defaultNetwork, show)
    requires Renders(e1, defaultNetwork, show, t1) && Renders(e2, defaultNetwork, show, t2)
    ensures t1 == t2
  {
    hide Print, SameUpToOrder, RowsOf, Sorted, IsWidth, CompareRows;
    SameRows(e1, e2, defaultNetwork, show);
    var r1, w1 :| IsLayout(e1, defaultNetwork, show, r1, w1) && t1 == Print(r1, w1);
    var r2, w2 :| IsLayout(e2, defaultNetwork, show, r2, w2) && t2 == Print(r2, w2);
    var all := RowsOf(e1, defaultNetwork, show);
    WidthIsUnique(all, RowsOf(e2, defaultNetwork, show), w1, w2);
    forall x, y | x in r1 && y in r1 && CompareRows(x, y) <= 0 && CompareRows(y, x) <= 0 ensures x == y {
      assert x in multiset(all) && y in multiset(all) && Tied(x, y);
    }
    SortedIsUnique(CompareRows, r1, r2);
  }

  function Swap(s: seq<Row>, i: nat, j: nat): seq<Row>
    requires i < |s| && j < |s|
  {
    s[i := s[j]][j := s[i]]
  }

  lemma SwapTied(s: seq<Row>, i: nat, j: nat)
    requires i < j < |s| && Sorted(CompareRows, s) && Tied(s[i], s[j])
    ensures Sorted(CompareRows, Swap(s, i, j)) && multiset(Swap(s, i, j)) == multiset(s)
  {
    hide CompareRows;
    RowsArePreordered();
    var t := Swap(s, i, j);
    forall a, b | 0 <= a < b < |t| ensures CompareRows(t[a], t[b]) <= 0 {
      assert CompareRows(t[a], s[a]) <= 0;
      assert CompareRows(s[b], t[b]) <= 0;
      assert CompareRows(s[a], t[b]) <= 0;
    }
  }

  /** Distinct rows that tie can be printed in either order, and the two texts differ. */
  lemma TiedRowsPrintTwoWays(rows: seq<Row>, i: nat, j: nat, w: nat)
    requires GoodRows(rows) && i < j < |rows| && Tied(rows[i], rows[j]) && rows[i] != rows[j]
    requires StrictlySorted(rows[i].hostnames) && StrictlySorted(rows[j].hostnames)
    requires rows[i].ipText == rows[j].ipText
    ensures Print(rows, w) != Print(Swap(rows, i, j), w)
  {
    hide Print, GoodRow, StrictlySorted, Tied, ParseBody;
    var swapped := Swap(rows, i, j);
    ParseUndoesPrint(rows, w);
    ParseUndoesPrint(swapped, w);
    TieMeansSameKeys(rows[i], rows[j]);
    if Print(rows, w) == Print(swapped, w) {
      assert Map(ParsedRow, rows)[i] == Map(ParsedRow, swapped)[i];
      assert ParsedRow(rows[i]) == ParsedRow(rows[j]);
      var a, b := rows[i].hostnames, rows[j].hostnames;
      forall x ensures x in a <==> x in b {
        assert x in SetOf(a) <==> x in SetOf(b);
      }
      SortedSetIsUnique(a, b);
    }
  }

  /** The bytes do not depend on the order the endpoints are listed in. */
  ghost predicate OrderIsImmaterial(endpoints: seq<Endpoint>, defaultNetwork: string, show: Addr -> string,
                                    arrange: seq<Row> -> seq<Row>)
  {
    forall e :: multiset(e) == multiset(endpoints) ==>
      TextOf(e, defaultNetwork, show, arrange) == TextOf(endpoints, defaultNetwork, show, arrange)
  }

  /** The endpoints in the order of their rows. */
  lemma EndpointsInOrder(endpoints: seq<Endpoint>, defaultNetwork: string, show: Addr -> string)
    returns (ordered: seq<Endpoint>)
    ensures multiset(ordered) == multiset(endpoints)
    ensures Sorted(CompareRows, RowsOf(ordered, defaultNetwork, show))
  {
    hide CompareRows, RowOf;
    RowsArePreordered();
    var cmp := (a: Endpoint, b: Endpoint) =>
      CompareRows(RowOf(a, defaultNetwork, show), RowOf(b, defaultNetwork, show));
    assert IsPreorder(cmp);
    ordered := Sort(cmp, endpoints);
  }

  /** Distinct rows that tie make two listings of the same endpoints render differently. */
  lemma AmbiguityShows(endpoints: seq<Endpoint>, defaultNetwork: string, show: Addr -> string,
                       arrange: seq<Row> -> seq<Row>)
    requires AllValid(endpoints) && GoodPrinter(show) && GoodSorter(arrange)
    requires !Unambiguous(endpoints, defaultNetwork, show)
    ensures !OrderIsImmaterial(endpoints, defaultNetwork, show, arrange)
  {
    hide Print, AllValid, GoodPrinter, IsWidth, Sorted, CompareRows, Hostnames, StrictlySorted, GoodRow,
         Swap, Tied, GoodSorter, RowOf, TextOf, Map, Exchanged;
    var all := RowsOf(endpoints, defaultNetwork, show);
    var ordered := EndpointsInOrder(endpoints, defaultNetwork, show);
    var rows := RowsOf(ordered, defaultNetwork, show);
    var x, y :| x in all && y in all && Tied(x, y) && x != y;
    var i := RowOfPermuted(endpoints, ordered, defaultNetwork, show, x);
    var j := RowOfPermuted(endpoints, ordered, defaultNetwork, show, y);
    TiedIsSymmetric(x, y);
    var lo, hi := if i < j then i else j, if i < j then j else i;
    var swapped := Exchanged(ordered, lo, hi);
    SwappedTextDiffers(ordered, swapped, lo, hi, endpoints, defaultNetwork, show, arrange);
  }

  function Exchanged(s: seq<Endpoint>, i: nat, j: nat): (r: seq<Endpoint>)
    requires i < |s| && j < |s|
    ensures multiset(r) == multiset(s)
  {
    s[i := s[j]][j := s[i]]
  }

  lemma TiedIsSymmetric(x: Row, y: Row)
    requires Tied(x, y)
    ensures Tied(y, x)
  {
  }

  lemma RowOfPermuted(endpoints: seq<Endpoint>, ordered: seq<Endpoint>, defaultNetwork: string,
                      show: Addr -> string, x: Row)
    returns (k: nat)
    requires multiset(ordered) == multiset(endpoints) && x in RowsOf(endpoints, defaultNetwork, show)
    ensures k < |ordered| && RowsOf(ordered, defaultNetwork, show)[k] == x
  {
    hide RowOf;
    var i :| 0 <= i < |endpoints| && RowOf(endpoints[i], defaultNetwork, show) == x;
    k := FindElement(endpoints, ordered, endpoints[i]);
  }

  lemma SwappedTextDiffers(ordered: seq<Endpoint>, swapped: seq<Endpoint>, i: nat, j: nat, endpoints: seq<Endpoint>,
                           defaultNetwork: string, show: Addr -> string, arrange: seq<Row> -> seq<Row>)
    requires AllValid(endpoints) && GoodPrinter(show) && GoodSorter(arrange)
    requires multiset(ordered) == multiset(endpoints) && Sorted(CompareRows, RowsOf(ordered, defaultNetwork, show))
    requires i < j < |ordered| && swapped == Exchanged(ordered, i, j)
    requires var rows := RowsOf(ordered, defaultNetwork, show); Tied(rows[i], rows[j]) && rows[i] != rows[j]
    ensures TextOf(ordered, defaultNetwork, show, arrange) != TextOf(swapped, defaultNetwork, show, arrange)
  {
    hide Print, AllValid, GoodPrinter, Sorted, CompareRows, Hostnames, StrictlySorted, GoodRow, Tied, IsWidth;
    var rows := RowsOf(ordered, defaultNetwork, show);
    var w := WidthOf(rows);
    assert RowsOf(swapped, defaultNetwork, show) == Swap(rows, i, j);
    SwapTied(rows, i, j);
    TieMeansSameKeys(rows[i], rows[j]);
    WidthIsUnique(rows, Swap(rows, i, j), w, WidthOf(Swap(rows, i, j)));
    SameShapes(ordered, endpoints, defaultNetwork, show);
    RowsAreGood(endpoints, defaultNetwork, show, rows);
    TiedRowsPrintTwoWays(rows, i, j, w);
  }

  lemma SameShapes(e1: seq<Endpoint>, e2: seq<Endpoint>, defaultNetwork: string, show: Addr -> string)
    requires multiset(e1) == multiset(e2)
    ensures SameUpToOrder(e1, e2)
    ensures multiset(RowsOf(e1, defaultNetwork, show)) == multiset(RowsOf(e2, defaultNetwork, show))
  {
    hide RowOf, ShapeOf;
    var id := (e: Endpoint) => e;
    assert Map(id, e1) == e1 && Map(id, e2) == e2;
    MapFactors(id, ShapeOf, e1, e2);
    SameRows(e1, e2, defaultNetwork, show);
  }

  /** Listing the endpoints in another order leaves the bytes alone exactly when tied rows are identical. */
  lemma CanonicalIffUnambiguous(endpoints: seq<Endpoint>, defaultNetwork: string, show: Addr -> string,
                                arrange: seq<Row> -> seq<Row>)
    requires AllValid(endpoints) && GoodPrinter(show) && GoodSorter(arrange)
    ensures OrderIsImmaterial(endpoints, defaultNetwork, show, arrange) <==>
            Unambiguous(endpoints, defaultNetwork, show)
  {
    hide Renders, Unambiguous, AllValid, GoodPrinter, GoodSorter, TextOf, SameUpToOrder;
    if Unambiguous(endpoints, defaultNetwork, show) {
      var text := TextOf(endpoints, defaultNetwork, show, arrange);
      forall e | multiset(e) == multiset(endpoints) ensures TextOf(e, defaultNetwork, show, arrange) == text {
        SameShapes(endpoints, e, defaultNetwork, show);
        TextRenders(e, defaultNetwork, show, arrange);
        TextRenders(endpoints, defaultNetwork, show, arrange);
        RenderIsCanonical(endpoints, e, defaultNetwork, show, text, TextOf(e, defaultNetwork, show, arrange));
      }
    } else {
      AmbiguityShows(endpoints, defaultNetwork, show, arrange);
    }
  }

  /** Two containers behind one address with the same first name: the bytes depend on who is listed first. */
  lemma AmbiguousExample(show: Addr -> string, arrange: seq<Row> -> seq<Row>)
    requires GoodPrinter(show) && GoodSorter(arrange)
    ensures var x, y := Endpoint("n", V4(1), ["a"]), Endpoint("n", V4(1), ["a", "b"]);
            AllValid([x, y]) && TextOf([x, y], "d", show, arrange) != TextOf([y, x], "d", show, arrange)
  {
    hide RowOf, Tied, GoodPrinter, TextOf, GoodSorter;
    var x, y := Endpoint("n", V4(1), ["a"]), Endpoint("n", V4(1), ["a", "b"]);
    ExampleRows(x, y, show);
    TiedPairDiffers(x, y, "d", show, arrange);
  }

  /** Two endpoints whose rows tie render differently in their two orders. */
  lemma TiedPairDiffers(x: Endpoint, y: Endpoint, defaultNetwork: string, show: Addr -> string,
                        arrange: seq<Row> -> seq<Row>)
    requires GoodPrinter(show) && GoodSorter(arrange) && AllValid([x, y])
    requires Tied(RowOf(x, defaultNetwork, show), RowOf(y, defaultNetwork, show))
    requires RowOf(x, defaultNetwork, show) != RowOf(y, defaultNetwork, show)
    ensures TextOf([x, y], defaultNetwork, show, arrange) != TextOf([y, x], defaultNetwork, show, arrange)
  {
    hide RowOf, Tied, GoodPrinter, TextOf, GoodSorter, Exchanged, AllValid;
    var rows := RowsOf([x, y], defaultNetwork, show);
    assert rows == [RowOf(x, defaultNetwork, show), RowOf(y, defaultNetwork, show)];
    PairIsSorted(rows[0], rows[1]);
    PairExchanged(x, y);
    SwappedTextDiffers([x, y], [y, x], 0, 1, [x, y], defaultNetwork, show, arrange);
  }

  lemma PairExchanged(x: Endpoint, y: Endpoint)
    ensures Exchanged([x, y], 0, 1) == [y, x]
  {
  }

  lemma PairIsSorted(a: Row, b: Row)
    requires Tied(a, b)
    ensures Sorted(CompareRows, [a, b])
  {
  }

  lemma ExampleRows(x: Endpoint, y: Endpoint, show: Addr -> string)
    requires x == Endpoint("n", V4(1), ["a"]) && y == Endpoint("n", V4(1), ["a", "b"])
    ensures Tied(RowOf(x, "d", show), RowOf(y, "d", show)) && RowOf(x, "d", show) != RowOf(y, "d", show)
  {
    hide Qualified, Tied, CompareText, StrictlySorted;
    var a, b := Qualified("a", "n"), Qualified("b", "n");
    assert ["a"][..0] == [] && ["a", "b"][..1] == ["a"];
    assert Hostnames(["a"], "n", false) == [a];
    QualifiedInOrder();
    assert Hostnames(["a", "b"], "n", false) == AddName([a], b);
    assert AddName([a], b) == [a, b];
    TieMeansSameKeys(RowOf(x, "d", show), RowOf(y, "d", show));
  }

  lemma QualifiedInOrder()
    ensures CompareText(Qualified("b", "n"), Qualified("a", "n")) > 0 && Qualified("b", "n") != Qualified("a", "n")
  {
    assert Qualified("b", "n")[0] == 'b' && Qualified("a", "n")[0] == 'a';
  }
}
