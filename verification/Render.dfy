/** The managed body of hosts/render.go: validation, rows, and the printed text. */
module Render {
  import opened Markers
  import opened Ordering

  /** A network address without a zone: its width and its value. */
  datatype Addr = NoAddr | V4(value: nat) | V6(value: nat) {
    function Bits(): nat {
      match this case NoAddr => 0 case V4(_) => 32 case V6(_) => 128
    }
    function Value(): nat {
      if NoAddr? then 0 else value
    }
  }

  function CompareAddr(a: Addr, b: Addr): int {
    Or(a.Bits() - b.Bits(), a.Value() - b.Value())
  }

  datatype Endpoint = Endpoint(network: string, ip: Addr, aliases: seq<string>)

  datatype Row = Row(network: string, ip: Addr, ipText: string, hostnames: seq<string>)

  datatype Rendered = Body(text: Text) | Rejected

  /******* Validation *******/

  /** unicode.IsSpace, on code points. */
  predicate IsSpace(c: char) {
    var r := c as int;
    || 0x9 <= r <= 0xd || r == 0x20 || r == 0x85 || r == 0xa0
    || r == 0x1680 || 0x2000 <= r <= 0x200a || r == 0x2028 || r == 0x2029
    || r == 0x202f || r == 0x205f || r == 0x3000
  }

  /** unicode.IsControl, on code points. */
  predicate IsControl(c: char) {
    c as int < 0x20 || 0x7f <= c as int < 0xa0
  }

  predicate IsDelimiter(c: char) {
    IsSpace(c) || IsControl(c) || c == '#'
  }

  predicate ValidPart(value: string) {
    value != "" && forall i :: 0 <= i < |value| ==> !IsDelimiter(value[i])
  }

  predicate ValidEndpoint(e: Endpoint) {
    && !e.ip.NoAddr?
    && ValidPart(e.network)
    && e.aliases != []
    && forall i :: 0 <= i < |e.aliases| ==> ValidPart(e.aliases[i])
  }

  predicate AllValid(endpoints: seq<Endpoint>) {
    forall i :: 0 <= i < |endpoints| ==> ValidEndpoint(endpoints[i])
  }

  /** What netip.Addr.String guarantees of every address without a zone: digits, letters, dots and colons. */
  ghost predicate GoodPrinter(show: Addr -> string) {
    forall a: Addr :: !a.NoAddr? ==> AddressText(show(a))
  }

  predicate AddressText(text: string) {
    text != "" && forall i :: 0 <= i < |text| ==> AddressChar(text[i])
  }

  predicate AddressChar(c: char) {
    '0' <= c <= '9' || 'a' <= c <= 'f' || c == '.' || c == ':'
  }

  /** A character of the hosts format that ends a word or starts a comment. */
  predicate Breaks(c: char) {
    c == ' ' || c == '\t' || c == '#' || c == '\n' || c == '\r'
  }

  /** A word of the hosts format. */
  predicate Word(word: string) {
    word != "" && forall i :: 0 <= i < |word| ==> !Breaks(word[i])
  }

  /** A character that may stand in an accepted name: no control character, no blank of any script, no '#'. */
  predicate Printable(c: char) {
    var r := c as int;
    && 0x20 < r && r != 0x23 && !(0x7f <= r <= 0xa0) && r != 0x1680 && !(0x2000 <= r <= 0x200a)
    && r != 0x2028 && r != 0x2029 && r != 0x202f && r != 0x205f && r != 0x3000
  }

  /** A name is accepted exactly when it is not empty and all its characters are printable. */
  lemma ValidPartIff(name: string)
    ensures ValidPart(name) <==> name != "" && forall i :: 0 <= i < |name| ==> Printable(name[i])
  {
    forall c: char ensures IsDelimiter(c) <==> !Printable(c) {
    }
  }

  /******* Rows *******/

  function Qualified(alias: string, network: string): string {
    alias + "." + network
  }

  /** The hostname set of an endpoint, sorted: qualified names always, bare ones on the default network. */
  function Hostnames(aliases: seq<string>, network: string, bare: bool): (names: seq<string>)
    ensures StrictlySorted(names)
  {
    if aliases == [] then []
    else
      var alias := aliases[|aliases| - 1];
      var names := Hostnames(aliases[..|aliases| - 1], network, bare);
      AddName(if bare then AddName(names, alias) else names, Qualified(alias, network))
  }

  function RowOf(e: Endpoint, defaultNetwork: string, show: Addr -> string): Row {
    Row(e.network, e.ip, show(e.ip), Hostnames(e.aliases, e.network, e.network == defaultNetwork))
  }

  function RowsOf(endpoints: seq<Endpoint>, defaultNetwork: string, show: Addr -> string): seq<Row> {
    Map((e: Endpoint) => RowOf(e, defaultNetwork, show), endpoints)
  }

  /** Membership, without reference to order or repetition of aliases. */
  ghost predicate Named(aliases: seq<string>, network: string, bare: bool, name: string) {
    exists i :: 0 <= i < |aliases| && (name == Qualified(aliases[i], network) || (bare && name == aliases[i]))
  }

  lemma {:induction false} HostnamesAre(aliases: seq<string>, network: string, bare: bool)
    ensures forall name :: name in Hostnames(aliases, network, bare) <==> Named(aliases, network, bare, name)
  {
    hide StrictlySorted;
    if aliases != [] {
      var n := |aliases| - 1;
      HostnamesAre(aliases[..n], network, bare);
      forall name ensures Named(aliases, network, bare, name) <==>
                          Named(aliases[..n], network, bare, name) || name == Qualified(aliases[n], network)
                              || (bare && name == aliases[n])
      {
        NamedStep(aliases, network, bare, name);
      }
    }
  }

  lemma NamedStep(aliases: seq<string>, network: string, bare: bool, name: string)
    requires aliases != []
    ensures var n := |aliases| - 1;
            Named(aliases, network, bare, name) <==>
            Named(aliases[..n], network, bare, name) || name == Qualified(aliases[n], network)
                || (bare && name == aliases[n])
  {
    hide Qualified;
    var n := |aliases| - 1;
    if Named(aliases[..n], network, bare, name) {
      var i :| 0 <= i < n && (name == Qualified(aliases[..n][i], network) || (bare && name == aliases[..n][i]));
      assert aliases[..n][i] == aliases[i];
    }
    if Named(aliases, network, bare, name) {
      var i :| 0 <= i < |aliases| && (name == Qualified(aliases[i], network) || (bare && name == aliases[i]));
      assert i < n ==> aliases[..n][i] == aliases[i];
    }
  }

  /** The names of a row, spelled out. */
  lemma HostnamesSpelled(e: Endpoint, defaultNetwork: string, show: Addr -> string, name: string)
    ensures name in RowOf(e, defaultNetwork, show).hostnames <==>
            || (exists i :: 0 <= i < |e.aliases| && name == e.aliases[i] + "." + e.network)
            || (e.network == defaultNetwork && name in e.aliases)
  {
    hide Hostnames;
    HostnamesAre(e.aliases, e.network, e.network == defaultNetwork);
    if exists i :: 0 <= i < |e.aliases| && name == e.aliases[i] + "." + e.network {
      var i :| 0 <= i < |e.aliases| && name == e.aliases[i] + "." + e.network;
      assert name == Qualified(e.aliases[i], e.network);
    }
  }

  /** Every name without a dot comes from the default network. */
  lemma UndottedIsDefault(e: Endpoint, defaultNetwork: string, show: Addr -> string, name: string)
    requires name in RowOf(e, defaultNetwork, show).hostnames
    requires '.' !in name
    ensures e.network == defaultNetwork && name in e.aliases
  {
    var bare := e.network == defaultNetwork;
    HostnamesAre(e.aliases, e.network, bare);
    assert Named(e.aliases, e.network, bare, name);
    var i :| 0 <= i < |e.aliases| && (name == Qualified(e.aliases[i], e.network) || (bare && name == e.aliases[i]));
    assert Qualified(e.aliases[i], e.network)[|e.aliases[i]|] == '.';
  }

  /** A dotted alias can be published bare on another network, when it spells a qualified name. */
  lemma DottedAliasCanLookBare(show: Addr -> string)
    ensures var e := Endpoint("b", V4(1), ["a", "a.b"]);
            "a.b" in e.aliases && "a.b" in RowOf(e, "c", show).hostnames
  {
    var aliases := ["a", "a.b"];
    HostnamesAre(aliases, "b", false);
    assert Qualified(aliases[0], "b") == "a.b";
    assert Named(aliases, "b", false, "a.b");
  }

  lemma NamesAreWords(e: Endpoint, defaultNetwork: string, show: Addr -> string)
    requires ValidEndpoint(e)
    ensures var names := RowOf(e, defaultNetwork, show).hostnames;
            names != [] && forall i :: 0 <= i < |names| ==> Word(names[i])
  {
    hide StrictlySorted, Hostnames;
    var bare := e.network == defaultNetwork;
    var names := RowOf(e, defaultNetwork, show).hostnames;
    HostnamesAre(e.aliases, e.network, bare);
    assert Qualified(e.aliases[0], e.network) in names;
    forall i | 0 <= i < |names| ensures Word(names[i]) {
      assert names[i] in names;
      assert Named(e.aliases, e.network, bare, names[i]);
      var k :| 0 <= k < |e.aliases|
          && (names[i] == Qualified(e.aliases[k], e.network) || (bare && names[i] == e.aliases[k]));
      assert ValidPart(e.aliases[k]);
    }
  }

  /******* Printing *******/

  predicate GoodRow(row: Row) {
    && Word(row.ipText)
    && row.ipText[0] != '#'
    && row.hostnames != []
    && forall i :: 0 <= i < |row.hostnames| ==> Word(row.hostnames[i])
  }

  function First(row: Row): string {
    if row.hostnames == [] then "" else row.hostnames[0]
  }

  function CompareRows(a: Row, b: Row): int {
    Or(CompareText(First(a), First(b)), Or(CompareText(a.network, b.network), CompareAddr(a.ip, b.ip)))
  }

  function Blanks(n: nat): (s: string)
    ensures |s| == n && forall i :: 0 <= i < n ==> s[i] == ' '
  {
    seq(n, _ => ' ')
  }

  function Join(names: seq<string>): string {
    if names == [] then "" else if |names| == 1 then names[0] else names[0] + " " + Join(names[1..])
  }

  function PrintRow(row: Row, width: nat): string {
    row.ipText + Blanks(if |row.ipText| < width then width - |row.ipText| else 0) + " " + Join(row.hostnames) + "\n"
  }

  function Print(rows: seq<Row>, width: nat): string {
    if rows == [] then "" else Print(rows[..|rows| - 1], width) + PrintRow(rows[|rows| - 1], width)
  }

  ghost predicate IsWidth(rows: seq<Row>, width: nat) {
    && (forall i :: 0 <= i < |rows| ==> |rows[i].ipText| <= width)
    && (width == 0 || exists i :: 0 <= i < |rows| && |rows[i].ipText| == width)
  }

  function WidthOf(rows: seq<Row>): (width: nat)
    ensures IsWidth(rows, width)
  {
    if rows == [] then 0
    else
      var n := |rows| - 1;
      var width := WidthOf(rows[..n]);
      var wider := if |rows[n].ipText| > width then |rows[n].ipText| else width;
      WidthGrows(rows[..n], rows[n], width, wider);
      assert rows[..n] + [rows[n]] == rows;
      wider
  }

  /** What slices.SortFunc does to rows: it is a function of the slice, its result is a sorted arrangement, and
      a slice that is sorted already is left alone.  Rows that tie may change places otherwise. */
  ghost predicate GoodSorter(arrange: seq<Row> -> seq<Row>) {
    forall rows ::
      && multiset(arrange(rows)) == multiset(rows)
      && Sorted(CompareRows, arrange(rows))
      && (Sorted(CompareRows, rows) ==> arrange(rows) == rows)
  }

  /** The rendered body. */
  function TextOf(endpoints: seq<Endpoint>, defaultNetwork: string, show: Addr -> string,
                  arrange: seq<Row> -> seq<Row>): Text
  {
    var rows := RowsOf(endpoints, defaultNetwork, show);
    Print(arrange(rows), WidthOf(rows))
  }

  lemma TextRenders(endpoints: seq<Endpoint>, defaultNetwork: string, show: Addr -> string,
                    arrange: seq<Row> -> seq<Row>)
    requires GoodSorter(arrange)
    ensures Renders(endpoints, defaultNetwork, show, TextOf(endpoints, defaultNetwork, show, arrange))
  {
    hide Print, Sorted, IsWidth, RowsOf;
    var rows := RowsOf(endpoints, defaultNetwork, show);
    assert IsLayout(endpoints, defaultNetwork, show, arrange(rows), WidthOf(rows));
  }

  /** There are such sorters, for one the stable sort. */
  lemma StableSortIsGood()
    ensures IsPreorder(CompareRows) && GoodSorter(rows => Sort(CompareRows, rows))
  {
    hide CompareRows, Sorted, IsPreorder;
    RowsArePreordered();
    forall rows | Sorted(CompareRows, rows) ensures Sort(CompareRows, rows) == rows {
      SortKeepsSorted(CompareRows, rows);
    }
  }

  /** Every text that some sorted arrangement of the rows prints to. */
  ghost predicate Renders(endpoints: seq<Endpoint>, defaultNetwork: string, show: Addr -> string, text: Text) {
    exists rows, width :: IsLayout(endpoints, defaultNetwork, show, rows, width) && text == Print(rows, width)
  }

  ghost predicate IsLayout(endpoints: seq<Endpoint>, defaultNetwork: string, show: Addr -> string, rows: seq<Row>,
                           width: nat)
  {
    && multiset(rows) == multiset(RowsOf(endpoints, defaultNetwork, show))
    && Sorted(CompareRows, rows)
    && IsWidth(RowsOf(endpoints, defaultNetwork, show), width)
  }

  lemma AddrIsOrdered()
    ensures IsOrder(CompareAddr)
  {
  }

  lemma RowsArePreordered()
    ensures IsPreorder(CompareRows)
  {
    hide CompareText, CompareAddr, First;
    TextIsOrdered();
    AddrIsOrdered();
    forall a, b ensures CompareRows(a, b) <= 0 || CompareRows(b, a) <= 0 {
    }
    forall a, b, c | CompareRows(a, b) <= 0 && CompareRows(b, c) <= 0 ensures CompareRows(a, c) <= 0 {
      RowsTransitive(a, b, c);
    }
  }

  lemma RowsTransitive(a: Row, b: Row, c: Row)
    requires CompareRows(a, b) <= 0 && CompareRows(b, c) <= 0
    ensures CompareRows(a, c) <= 0
  {
    hide CompareText, CompareAddr, First;
    TextIsOrdered();
    AddrIsOrdered();
    assert CompareText(First(a), First(c)) <= 0;
    if CompareText(First(a), First(c)) == 0 {
      assert First(a) == First(b);
      if CompareText(a.network, c.network) == 0 {
        assert a.network == b.network;
      }
    }
  }

  /** renderEndpoints. */
  method RenderEndpoints(endpoints: seq<Endpoint>, defaultNetwork: string, show: Addr -> string,
                         arrange: seq<Row> -> seq<Row>)
    returns (r: Rendered)
    ensures r.Body? <==> ValidPart(defaultNetwork) && AllValid(endpoints)
    ensures r.Body? ==> r.text == TextOf(endpoints, defaultNetwork, show, arrange)
    ensures r.Body? && GoodSorter(arrange) ==> Renders(endpoints, defaultNetwork, show, r.text)
  {
    hide ValidPart, ValidEndpoint, StrictlySorted, Sorted, Hostnames, GoodSorter, Renders, IsWidth;
    if !ValidPart(defaultNetwork) {
      return Rejected;
    }
    for i := 0 to |endpoints|
      invariant forall k :: 0 <= k < i ==> ValidEndpoint(endpoints[k])
    {
      if !ValidEndpoint(endpoints[i]) {
        return Rejected;
      }
    }
    var rows, width := BuildRows(endpoints, defaultNetwork, show);
    WidthIsUnique(rows, rows, width, WidthOf(rows));
    var sorted := arrange(rows);
    var text := "";
    for i := 0 to |sorted|
      invariant text == Print(sorted[..i], width)
    {
      assert sorted[..i + 1][..i] == sorted[..i];
      text := text + PrintRow(sorted[i], width);
    }
    assert sorted[..|sorted|] == sorted;
    if GoodSorter(arrange) {
      TextRenders(endpoints, defaultNetwork, show, arrange);
    }
    return Body(text);
  }

  lemma WidthIsUnique(a: seq<Row>, b: seq<Row>, v: nat, w: nat)
    requires multiset(a) == multiset(b) && IsWidth(a, v) && IsWidth(b, w)
    ensures v == w
  {
    assert forall x :: x in multiset(a) <==> x in multiset(b);
    if v != 0 {
      var i :| 0 <= i < |a| && |a[i].ipText| == v;
      assert a[i] in multiset(b);
    }
    if w != 0 {
      var j :| 0 <= j < |b| && |b[j].ipText| == w;
      assert b[j] in multiset(a);
    }
  }

  method BuildRows(endpoints: seq<Endpoint>, defaultNetwork: string, show: Addr -> string)
    returns (rows: seq<Row>, width: nat)
    ensures rows == RowsOf(endpoints, defaultNetwork, show)
    ensures IsWidth(rows, width)
  {
    hide IsWidth, Hostnames, StrictlySorted;
    rows, width := [], 0;
    NoWidth();
    for i := 0 to |endpoints|
      invariant |rows| == i && forall k :: 0 <= k < i ==> rows[k] == RowOf(endpoints[k], defaultNetwork, show)
      invariant IsWidth(rows, width)
    {
      var e := endpoints[i];
      var names := CollectNames(e.aliases, e.network, e.network == defaultNetwork);
      var row := Row(e.network, e.ip, show(e.ip), names);
      var wider := if |row.ipText| > width then |row.ipText| else width;
      WidthGrows(rows, row, width, wider);
      rows, width := rows + [row], wider;
    }
  }

  lemma NoWidth()
    ensures IsWidth([], 0)
  {
  }

  lemma WidthGrows(rows: seq<Row>, row: Row, width: nat, wider: nat)
    requires IsWidth(rows, width)
    requires wider == if |row.ipText| > width then |row.ipText| else width
    ensures IsWidth(rows + [row], wider)
  {
    var longer := rows + [row];
    assert longer[|rows|] == row;
    assert forall i :: 0 <= i < |rows| ==> longer[i] == rows[i];
  }

  method CollectNames(aliases: seq<string>, network: string, bare: bool) returns (names: seq<string>)
    ensures names == Hostnames(aliases, network, bare)
  {
    names := [];
    for i := 0 to |aliases|
      invariant names == Hostnames(aliases[..i], network, bare)
    {
      var alias := aliases[i];
      assert aliases[..i + 1][..i] == aliases[..i];
      if bare {
        names := AddName(names, alias);
      }
      names := AddName(names, Qualified(alias, network));
    }
    assert aliases[..|aliases|] == aliases;
  }
}
