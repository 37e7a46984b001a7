/** What readers of the managed body may rely on: it parses back to the endpoints it was
    rendered from, its columns and rows are in order, and it never disturbs the markers. */
module RenderLaws {
  import opened Markers
  import opened Ordering
  import opened Render

  /******* Parsing a hosts body *******/

  datatype Parsed = Parsed(ipText: string, names: set<string>)

  predicate Blank(c: char) {
    c == ' ' || c == '\t'
  }

  function WordLength(s: string): (n: nat)
    ensures n <= |s|
  {
    if s == "" || Blank(s[0]) then 0 else 1 + WordLength(s[1..])
  }

  /** The words of a line, separated by blanks and tabs. */
  function Fields(s: string): seq<string>
    decreases |s|
  {
    if s == "" then []
    else if Blank(s[0]) then Fields(s[1..])
    else [s[..WordLength(s)]] + Fields(s[WordLength(s)..])
  }

  /** The line up to its comment. */
  function Uncommented(line: string): string {
    if line == "" || line[0] == '#' then "" else [line[0]] + Uncommented(line[1..])
  }

  /** The entry of a line: an address and its names; comments and blank lines have none. */
  function ParseLine(line: string): seq<Parsed> {
    var fields := Fields(Uncommented(line));
    if fields == [] then [] else [Parsed(fields[0], SetOf(fields[1..]))]
  }

  function ParseBody(text: Text): seq<Parsed>
    decreases |text|
  {
    if text == "" then []
    else ParseLine(text[..LineEnd(text, 0)]) + ParseBody(text[NextLine(text, 0)..])
  }

  lemma {:induction false} UncommentedIs(line: string)
    requires forall i :: 0 <= i < |line| ==> line[i] != '#'
    ensures Uncommented(line) == line
  {
    if line != "" {
      UncommentedIs(line[1..]);
    }
  }

  lemma {:induction false} FieldsOfBlanks(n: nat, s: string)
    ensures Fields(Blanks(n) + s) == Fields(s)
  {
    if n == 0 {
      assert Blanks(n) + s == s;
    } else {
      assert (Blanks(n) + s)[1..] == Blanks(n - 1) + s;
      FieldsOfBlanks(n - 1, s);
    }
  }

  lemma {:induction false} WordLengthOf(word: string, s: string)
    requires forall i :: 0 <= i < |word| ==> !Blank(word[i])
    requires s == "" || Blank(s[0])
    ensures WordLength(word + s) == |word|
  {
    if word == "" {
      assert word + s == s;
    } else {
      assert (word + s)[1..] == word[1..] + s;
      WordLengthOf(word[1..], s);
    }
  }

  lemma FieldsOfWord(word: string, s: string)
    requires Word(word)
    requires s == "" || Blank(s[0])
    ensures Fields(word + s) == [word] + Fields(s)
  {
    WordLengthOf(word, s);
    assert (word + s)[..|word|] == word && (word + s)[|word|..] == s;
  }

  lemma {:induction false} FieldsOfJoin(names: seq<string>)
    requires forall i :: 0 <= i < |names| ==> Word(names[i])
    ensures Fields(Join(names)) == names
  {
    if |names| == 1 {
      FieldsOfWord(names[0], "");
      assert names[0] + "" == names[0];
    } else if |names| > 1 {
      var rest := " " + Join(names[1..]);
      assert Join(names) == names[0] + rest;
      FieldsOfWord(names[0], rest);
      assert rest[1..] == Join(names[1..]);
      FieldsOfJoin(names[1..]);
    }
  }

  function ParsedRow(row: Row): Parsed {
    Parsed(row.ipText, SetOf(row.hostnames))
  }

  function Line(row: Row, width: nat): string {
    row.ipText + Blanks(if |row.ipText| < width then width - |row.ipText| else 0) + " " + Join(row.hostnames)
  }

  lemma LineParses(row: Row, width: nat)
    requires GoodRow(row)
    ensures ParseLine(Line(row, width)) == [ParsedRow(row)]
  {
    NoCommentInLine(row, width);
    UncommentedIs(Line(row, width));
    FieldsOfLine(row, width);
    assert ([row.ipText] + row.hostnames)[1..] == row.hostnames;
  }

  lemma FieldsOfLine(row: Row, width: nat)
    requires GoodRow(row)
    ensures Fields(Line(row, width)) == [row.ipText] + row.hostnames
  {
    var pad := if |row.ipText| < width then width - |row.ipText| else 0;
    var rest := Blanks(pad) + (" " + Join(row.hostnames));
    assert Line(row, width) == row.ipText + rest;
    FieldsOfWord(row.ipText, rest);
    FieldsOfBlanks(pad, " " + Join(row.hostnames));
    assert (" " + Join(row.hostnames))[1..] == Join(row.hostnames);
    FieldsOfJoin(row.hostnames);
  }

  lemma {:induction false} JoinHasNoBreak(names: seq<string>)
    requires forall i :: 0 <= i < |names| ==> Word(names[i])
    ensures forall k :: 0 <= k < |Join(names)| ==> Join(names)[k] != '\n' && Join(names)[k] != '#'
  {
    if |names| == 1 {
      assert Word(names[0]);
    } else if |names| > 1 {
      assert Word(names[0]);
      JoinHasNoBreak(names[1..]);
    }
  }

  lemma NoCommentInLine(row: Row, width: nat)
    requires GoodRow(row)
    ensures forall k :: 0 <= k < |Line(row, width)| ==> Line(row, width)[k] != '#'
  {
    hide Join;
    JoinHasNoBreak(row.hostnames);
    assert Word(row.ipText);
  }

  /** A printed row is one line, and that line does not start with '#'. */
  lemma PrintRowIsOneLine(row: Row, width: nat)
    requires GoodRow(row)
    ensures PrintRow(row, width) == Line(row, width) + "\n"
    ensures LineEnd(PrintRow(row, width), 0) == |Line(row, width)|
    ensures Line(row, width) != "" && Line(row, width)[0] != '#'
    ensures forall p :: StartsLine(PrintRow(row, width), p) ==> p == 0
  {
    JoinHasNoBreak(row.hostnames);
    var line := Line(row, width);
    NoBreakInLine(row, width);
    LineEndIs(PrintRow(row, width), 0, |line|);
  }

  lemma NoBreakInLine(row: Row, width: nat)
    requires GoodRow(row)
    requires forall k :: 0 <= k < |Join(row.hostnames)| ==> Join(row.hostnames)[k] != '\n'
    ensures forall k :: 0 <= k < |Line(row, width)| ==> Line(row, width)[k] != '\n'
  {
    hide Join;
    assert Word(row.ipText);
  }

  lemma ParseStep(text: Text)
    requires text != ""
    ensures ParseBody(text) == ParseLine(text[..LineEnd(text, 0)]) + ParseBody(text[NextLine(text, 0)..])
  {
  }

  lemma {:induction false} ParseConcat(a: Text, b: Text)
    requires Terminated(a)
    ensures ParseBody(a + b) == ParseBody(a) + ParseBody(b)
    decreases |a|
  {
    hide ParseBody, ParseLine, LineEnd;
    if a == "" {
      NothingParses();
      assert a + b == b;
    } else {
      var e := LineEnd(a, 0);
      assert e < |a|;
      LineEndIs(a + b, 0, e);
      var line, rest := a[..e], a[e + 1..];
      assert (a + b)[..e] == line && (a + b)[e + 1..] == rest + b;
      ParseStep(a);
      ParseStep(a + b);
      ParseConcat(rest, b);
    }
  }

  lemma ParseOneRow(row: Row, width: nat)
    requires GoodRow(row)
    ensures ParseBody(PrintRow(row, width)) == [ParsedRow(row)]
  {
    PrintRowIsOneLine(row, width);
    LineParses(row, width);
    var text := PrintRow(row, width);
    assert text[..|Line(row, width)|] == Line(row, width);
    assert text[|Line(row, width)| + 1..] == "";
  }

  ghost predicate GoodRows(rows: seq<Row>) {
    forall i :: 0 <= i < |rows| ==> GoodRow(rows[i])
  }

  /** Parsing undoes printing, row by row. */
  lemma {:induction false} ParseUndoesPrint(rows: seq<Row>, width: nat)
    requires GoodRows(rows)
    ensures ParseBody(Print(rows, width)) == Map(ParsedRow, rows)
    ensures Terminated(Print(rows, width))
  {
    hide GoodRow, PrintRow, ParseBody;
    if rows == [] {
      NothingParses();
    } else {
      var n := |rows| - 1;
      ParseUndoesPrint(rows[..n], width);
      ParseConcat(Print(rows[..n], width), PrintRow(rows[n], width));
      ParseOneRow(rows[n], width);
      RowTerminates(rows[n], width);
      assert Map(ParsedRow, rows) == Map(ParsedRow, rows[..n]) + [ParsedRow(rows[n])];
    }
  }

  lemma NothingParses()
    ensures ParseBody("") == []
  {
  }

  lemma RowTerminates(row: Row, width: nat)
    ensures PrintRow(row, width) != "" && Terminated(PrintRow(row, width))
  {
  }

  lemma RowsAreGood(endpoints: seq<Endpoint>, defaultNetwork: string, show: Addr -> string, rows: seq<Row>)
    requires AllValid(endpoints) && GoodPrinter(show)
    requires multiset(rows) == multiset(RowsOf(endpoints, defaultNetwork, show))
    ensures GoodRows(rows)
  {
    hide Hostnames, RowOf, ValidEndpoint, GoodRow;
    var all := RowsOf(endpoints, defaultNetwork, show);
    forall i | 0 <= i < |rows| ensures GoodRow(rows[i]) {
      assert rows[i] in multiset(all);
      var k :| 0 <= k < |all| && all[k] == rows[i];
      RowIsGood(endpoints[k], defaultNetwork, show);
    }
  }

  lemma RowIsGood(e: Endpoint, defaultNetwork: string, show: Addr -> string)
    requires ValidEndpoint(e) && GoodPrinter(show)
    ensures GoodRow(RowOf(e, defaultNetwork, show))
  {
    hide Hostnames;
    NamesAreWords(e, defaultNetwork, show);
  }

  /******* Round trip *******/

  /** The names an endpoint publishes, as a set. */
  function Published(e: Endpoint, defaultNetwork: string): set<string> {
    (set a | a in e.aliases :: a + "." + e.network) +
    (if e.network == defaultNetwork then SetOf(e.aliases) else {})
  }

  function Expected(e: Endpoint, defaultNetwork: string, show: Addr -> string): Parsed {
    Parsed(show(e.ip), Published(e, defaultNetwork))
  }

  lemma RowParsesAsExpected(e: Endpoint, defaultNetwork: string, show: Addr -> string)
    ensures ParsedRow(RowOf(e, defaultNetwork, show)) == Expected(e, defaultNetwork, show)
  {
    hide Hostnames, StrictlySorted;
    var bare := e.network == defaultNetwork;
    HostnamesAre(e.aliases, e.network, bare);
    var names := Hostnames(e.aliases, e.network, bare);
    forall x ensures x in names <==> x in Published(e, defaultNetwork) {
      assert x in names <==> Named(e.aliases, e.network, bare, x);
      if x in Published(e, defaultNetwork) && !(bare && x in e.aliases) {
        var a :| a in e.aliases && x == a + "." + e.network;
        assert x == Qualified(a, e.network);
      }
    }
  }

  lemma MapPermutes<A, B>(g: A -> B, s: seq<A>, t: seq<A>)
    requires multiset(s) == multiset(t)
    ensures multiset(Map(g, s)) == multiset(Map(g, t))
  {
    var id := (x: A) => x;
    assert Map(id, s) == s && Map(id, t) == t;
    MapFactors(id, g, s, t);
  }

  /** Parsing a rendered body yields, for each endpoint, exactly its address and its names. */
  lemma RenderRoundTrip(endpoints: seq<Endpoint>, defaultNetwork: string, show: Addr -> string, text: Text)
    requires AllValid(endpoints) && GoodPrinter(show)
    requires Renders(endpoints, defaultNetwork, show, text)
    ensures multiset(ParseBody(text)) == multiset(Map((e: Endpoint) => Expected(e, defaultNetwork, show), endpoints))
  {
    hide ParseBody, Print, GoodPrinter, AllValid, RowOf, Expected, ParsedRow, Sorted;
    var rows, width :| IsLayout(endpoints, defaultNetwork, show, rows, width) && text == Print(rows, width);
    RowsAreGood(endpoints, defaultNetwork, show, rows);
    ParseUndoesPrint(rows, width);
    var all := RowsOf(endpoints, defaultNetwork, show);
    MapPermutes(ParsedRow, rows, all);
    forall i | 0 <= i < |endpoints| ensures ParsedRow(all[i]) == Expected(endpoints[i], defaultNetwork, show) {
      RowParsesAsExpected(endpoints[i], defaultNetwork, show);
    }
    assert Map(ParsedRow, all) == Map((e: Endpoint) => Expected(e, defaultNetwork, show), endpoints);
  }

  /******* Layout *******/

  /** A printed row, cut at the common column: the address, blanks up to the column, then the names. */
  ghost predicate AlignedAt(row: Row, column: nat) {
    var line := PrintRow(row, column);
    && |row.ipText| <= column < |line|
    && line[..|row.ipText|] == row.ipText
    && (forall i :: |row.ipText| <= i <= column ==> line[i] == ' ')
    && line[column + 1..] == Join(row.hostnames) + "\n"
  }

  /** Names stand in their order, with one blank between any two of them. */
  lemma {:induction false} NamesAreSpaced(a: seq<string>, b: seq<string>)
    requires a != [] && b != []
    ensures Join(a + b) == Join(a) + " " + Join(b)
    ensures |a| == 1 ==> Join(a) == a[0]
  {
    if |a| == 1 {
      assert (a + b)[1..] == b;
    } else {
      NamesAreSpaced(a[1..], b);
      assert (a + b)[1..] == a[1..] + b;
      assert Join(a + b) == a[0] + " " + (Join(a[1..]) + " " + Join(b));
    }
  }

  /** The names of all rows start in the same column, one past the longest address. */
  lemma ColumnsAlign(endpoints: seq<Endpoint>, defaultNetwork: string, show: Addr -> string, rows: seq<Row>, width: nat)
    requires IsLayout(endpoints, defaultNetwork, show, rows, width)
    ensures forall i :: 0 <= i < |rows| ==> AlignedAt(rows[i], width)
  {
    hide PrintRow, Sorted, CompareRows, RowOf;
    var all := RowsOf(endpoints, defaultNetwork, show);
    forall i | 0 <= i < |rows| ensures AlignedAt(rows[i], width) {
      assert rows[i] in multiset(all);
      RowAligns(rows[i], width);
    }
  }

  lemma RowAligns(row: Row, width: nat)
    requires |row.ipText| <= width
    ensures AlignedAt(row, width)
  {
    hide Join;
    var line, pad := PrintRow(row, width), Blanks(width - |row.ipText|);
    assert line == row.ipText + (pad + " ") + (Join(row.hostnames) + "\n");
    assert forall i :: 0 <= i < |pad| + 1 ==> (pad + " ")[i] == ' ';
    assert forall i :: |row.ipText| <= i <= width ==> line[i] == (pad + " ")[i - |row.ipText|];
  }

  /** Rows are ordered by first name, then by network, then by address. */
  lemma RowOrder(rows: seq<Row>, i: nat, j: nat)
    requires Sorted(CompareRows, rows) && i < j < |rows|
    ensures var a, b := rows[i], rows[j];
            || Before(First(a), First(b))
            || (First(a) == First(b) && Before(a.network, b.network))
            || (First(a) == First(b) && a.network == b.network && a.ip.Bits() < b.ip.Bits())
            || (First(a) == First(b) && a.network == b.network && a.ip.Bits() == b.ip.Bits()
                && a.ip.Value() <= b.ip.Value())
  {
    hide CompareText, First, Before;
    TextIsOrdered();
    CompareTextIs(First(rows[i]), First(rows[j]));
    CompareTextIs(rows[i].network, rows[j].network);
    assert CompareRows(rows[i], rows[j]) <= 0;
  }

  /******* The body and the markers *******/

  lemma {:induction false} PrintIsUnmarked(rows: seq<Row>, width: nat, marker: Text)
    requires GoodRows(rows) && GoodMarker(marker)
    ensures Unmarked(Print(rows, width), marker)
    decreases rows
  {
    hide GoodRow, PrintRow, ParseBody, MarkedAt, GoodMarker;
    if rows == [] {
      EmptyIsUnmarked(marker);
    } else {
      var n := |rows| - 1;
      PrintIsUnmarked(rows[..n], width, marker);
      ParseUndoesPrint(rows[..n], width);
      MarksOfConcat(Print(rows[..n], width), PrintRow(rows[n], width), marker);
      RowIsUnmarked(rows[n], width, marker);
    }
  }

  lemma RowIsUnmarked(row: Row, width: nat, marker: Text)
    requires GoodRow(row) && GoodMarker(marker)
    ensures Unmarked(PrintRow(row, width), marker)
  {
    hide GoodRow, PrintRow, Line;
    PrintRowIsOneLine(row, width);
    var text := PrintRow(row, width);
    assert text[0..|Line(row, width)|] == Line(row, width);
    assert LineAt(text, 0) == "" || LineAt(text, 0)[0] == Line(row, width)[0];
  }

  /** Every rendered body may be spliced into the managed section. */
  lemma RenderedBodyIsGood(endpoints: seq<Endpoint>, defaultNetwork: string, show: Addr -> string, text: Text,
                           begin: Text, end: Text)
    requires AllValid(endpoints) && GoodPrinter(show) && GoodMarkers(begin, end)
    requires Renders(endpoints, defaultNetwork, show, text)
    ensures GoodBody(text, begin, end)
  {
    hide Print, GoodPrinter, AllValid, RowOf, Sorted, GoodMarker, Unmarked, Terminated;
    var rows, width :| IsLayout(endpoints, defaultNetwork, show, rows, width) && text == Print(rows, width);
    RowsAreGood(endpoints, defaultNetwork, show, rows);
    ParseUndoesPrint(rows, width);
    PrintIsUnmarked(rows, width, begin);
    PrintIsUnmarked(rows, width, end);
  }
}
