/** The fresh hosts file that Regenerate installs, hosts/store.go. */
module Baseline {
  import opened Markers
  import opened Ordering
  import opened Render
  import opened RenderLaws

  function Unlines(lines: seq<string>): Text {
    if lines == [] then "" else Unlines(lines[..|lines| - 1]) + (lines[|lines| - 1] + "\n")
  }

  const COMMENT := "# The following lines" + " are desirable for" + " IPv6 capable hosts"

  /** An address, a tab, and its names. */
  function HostLine(ip: string, names: seq<string>): string {
    ip + "\t" + Join(names)
  }

  /** The lines before the section. */
  function BaselineLines(hostname: string): seq<string> {
    [HostLine("127.0.0.1", ["localhost"]), HostLine("127.0.1.1", [hostname]), "", COMMENT] + IPv6Lines() + [""]
  }

  function IPv6Lines(): seq<string> {
    [ HostLine("::1", ["ip6-localhost", "ip6-loopback"]),
      HostLine("fe00::0", ["ip6-localnet"]),
      HostLine("ff00::0", ["ip6-mcastprefix"]),
      HostLine("ff02::1", ["ip6-allnodes"]),
      HostLine("ff02::2", ["ip6-allrouters"]),
      HostLine("ff02::3", ["ip6-allhosts"]) ]
  }

  function FreshHostsFile(hostname: string, begin: Text, end: Text): Text {
    Unlines(BaselineLines(hostname)) + begin + "\n" + end + "\n"
  }

  /** The marker lines NewStore derives from a section name. */
  ghost predicate FromSection(begin: Text, end: Text, name: Text) {
    && begin == "# BEGIN " + name
    && end == "# END " + name
    && forall i :: 0 <= i < |name| ==> name[i] != '\n' && name[i] != '\r'
  }

  /** Every section name the configuration accepts gives distinct, well-formed marker lines. */
  lemma SectionNameGivesMarkers(begin: Text, end: Text, name: Text)
    requires FromSection(begin, end, name)
    ensures GoodMarkers(begin, end)
  {
    assert begin[2] == 'B' && end[2] == 'E';
  }

  predicate NoBreak(line: string) {
    forall i :: 0 <= i < |line| ==> line[i] != '\n'
  }

  /** A line that cannot be a marker line of any section. */
  predicate Harmless(line: string) {
    NoBreak(line) && (|line| < 3 || line[0] != '#' || line[2] == 'T')
  }

  lemma HarmlessLineIsUnmarked(line: string, marker: Text)
    requires Harmless(line) && |marker| > 2 && marker[0] == '#' && marker[2] != 'T'
    ensures Unmarked(line + "\n", marker)
  {
    var text := line + "\n";
    LineEndIs(text, 0, |line|);
    assert text[0..|line|] == line;
    forall p ensures !MarkedAt(text, marker, p) {
      if StartsLine(text, p) {
        assert p == 0;
        assert LineAt(text, 0) == DropReturn(line);
      }
    }
  }

  lemma {:induction false} UnlinesIsUnmarked(lines: seq<string>, marker: Text)
    requires forall i :: 0 <= i < |lines| ==> Harmless(lines[i])
    requires |marker| > 2 && marker[0] == '#' && marker[2] != 'T'
    ensures Terminated(Unlines(lines)) && Unmarked(Unlines(lines), marker)
  {
    hide Harmless, MarkedAt;
    if lines == [] {
      EmptyIsUnmarked(marker);
    } else {
      var n := |lines| - 1;
      UnlinesIsUnmarked(lines[..n], marker);
      HarmlessLineIsUnmarked(lines[n], marker);
      MarksOfConcat(Unlines(lines[..n]), lines[n] + "\n", marker);
    }
  }

  lemma CommentIsHarmless()
    ensures Harmless(COMMENT)
  {
    assert NoBreak("# The following lines") && NoBreak(" are desirable for") && NoBreak(" IPv6 capable hosts");
    assert COMMENT[2] == 'T';
  }

  predicate Words(names: seq<string>) {
    names != [] && forall i :: 0 <= i < |names| ==> Word(names[i])
  }

  lemma HostLineIsHarmless(ip: string, names: seq<string>)
    requires Word(ip) && Words(names)
    ensures Harmless(HostLine(ip, names))
  {
    hide Join;
    JoinHasNoBreak(names);
  }

  lemma AddressesAreWords()
    ensures Word("127.0.0.1") && Word("127.0.1.1") && Word("::1") && Word("fe00::0") && Word("ff00::0")
    ensures Word("ff02::1") && Word("ff02::2") && Word("ff02::3")
  {
  }

  lemma NamesAreWordsToo()
    ensures Words(["localhost"]) && Words(["ip6-localhost", "ip6-loopback"]) && Words(["ip6-localnet"])
    ensures Words(["ip6-mcastprefix"]) && Words(["ip6-allnodes"]) && Words(["ip6-allrouters"])
    ensures Words(["ip6-allhosts"])
  {
  }

  lemma ValidPartIsWord(name: string)
    requires ValidPart(name)
    ensures Words([name])
  {
  }

  lemma BaselineIsHarmless(hostname: string)
    requires ValidPart(hostname)
    ensures forall i :: 0 <= i < |BaselineLines(hostname)| ==> Harmless(BaselineLines(hostname)[i])
  {
    hide Harmless, HostLine, ValidPart, Word, Words;
    AddressesAreWords();
    NamesAreWordsToo();
    ValidPartIsWord(hostname);
    CommentIsHarmless();
    NoLineIsHarmless();
    HostLineIsHarmless("127.0.0.1", ["localhost"]);
    HostLineIsHarmless("127.0.1.1", [hostname]);
    HostLineIsHarmless("::1", ["ip6-localhost", "ip6-loopback"]);
    HostLineIsHarmless("fe00::0", ["ip6-localnet"]);
    HostLineIsHarmless("ff00::0", ["ip6-mcastprefix"]);
    HostLineIsHarmless("ff02::1", ["ip6-allnodes"]);
    HostLineIsHarmless("ff02::2", ["ip6-allrouters"]);
    HostLineIsHarmless("ff02::3", ["ip6-allhosts"]);
  }

  lemma NoLineIsHarmless()
    ensures Harmless("")
  {
  }

  /******* What the baseline says *******/

  lemma HostLineParses(ip: string, names: seq<string>)
    requires Word(ip) && Words(names)
    ensures ParseLine(HostLine(ip, names)) == [Parsed(ip, SetOf(names))]
  {
    hide Join, Word;
    var rest := "\t" + Join(names);
    assert HostLine(ip, names) == ip + rest;
    HostLineHasNoComment(ip, names);
    UncommentedIs(HostLine(ip, names));
    FieldsOfWord(ip, rest);
    assert rest[1..] == Join(names);
    FieldsOfJoin(names);
    assert ([ip] + names)[1..] == names;
  }

  lemma HostLineHasNoComment(ip: string, names: seq<string>)
    requires Word(ip) && Words(names)
    ensures forall k :: 0 <= k < |HostLine(ip, names)| ==> HostLine(ip, names)[k] != '#'
  {
    hide Join;
    JoinHasNoBreak(names);
  }

  lemma CommentParses(line: string)
    requires line == "" || line[0] == '#'
    ensures ParseLine(line) == []
  {
  }

  /** The entries of the lines, one after the other. */
  function ParseLines(lines: seq<string>): seq<Parsed> {
    if lines == [] then [] else ParseLines(lines[..|lines| - 1]) + ParseLine(lines[|lines| - 1])
  }

  lemma {:induction false} UnlinesParses(lines: seq<string>)
    requires forall i :: 0 <= i < |lines| ==> NoBreak(lines[i])
    ensures ParseBody(Unlines(lines)) == ParseLines(lines) && Terminated(Unlines(lines))
  {
    hide ParseLine, ParseBody;
    if lines == [] {
      NothingParses();
    } else {
      var n := |lines| - 1;
      UnlinesParses(lines[..n]);
      ParseConcat(Unlines(lines[..n]), lines[n] + "\n");
      OneLineParses(lines[n]);
    }
  }

  lemma OneLineParses(line: string)
    requires NoBreak(line)
    ensures ParseBody(line + "\n") == ParseLine(line)
  {
    hide ParseLine;
    var text := line + "\n";
    LineEndIs(text, 0, |line|);
    assert text[..|line|] == line && text[|line| + 1..] == "";
  }

  lemma {:induction false} ParseLinesConcat(a: seq<string>, b: seq<string>)
    ensures ParseLines(a + b) == ParseLines(a) + ParseLines(b)
  {
    hide ParseLine;
    if b == [] {
      assert a + b == a;
    } else {
      var n := |b| - 1;
      assert (a + b)[..|a| + n] == a + b[..n] && (a + b)[|a| + n] == b[n];
      ParseLinesConcat(a, b[..n]);
    }
  }

  lemma ParseLinesOne(line: string)
    ensures ParseLines([line]) == ParseLine(line)
  {
    hide ParseLine;
    assert [line][..0] == [];
  }

  /** The addresses and names a regenerated hosts file declares, and nothing else. */
  function BaselineEntries(hostname: string): seq<Parsed> {
    [ Parsed("127.0.0.1", {"localhost"}), Parsed("127.0.1.1", {hostname}) ] +
    [ Parsed("::1", {"ip6-localhost", "ip6-loopback"}), Parsed("fe00::0", {"ip6-localnet"}),
      Parsed("ff00::0", {"ip6-mcastprefix"}), Parsed("ff02::1", {"ip6-allnodes"}),
      Parsed("ff02::2", {"ip6-allrouters"}), Parsed("ff02::3", {"ip6-allhosts"}) ]
  }

  lemma BaselineParses(hostname: string, begin: Text, end: Text)
    requires ValidPart(hostname) && GoodMarkers(begin, end)
    ensures ParseBody(FreshHostsFile(hostname, begin, end)) == BaselineEntries(hostname)
  {
    hide ValidPart, ParseBody, ParseLines, BaselineLines, BaselineEntries, Harmless, GoodMarkers;
    var lines := BaselineLines(hostname) + [begin, end];
    BaselineIsHarmless(hostname);
    MarkersBreakNothing(hostname, begin, end);
    UnlinesParses(lines);
    UnlinesTwoMore(BaselineLines(hostname), begin, end);
    LinesParse(hostname);
    ParseLinesConcat(BaselineLines(hostname), [begin, end]);
    MarkersParse(begin, end);
  }

  lemma MarkersBreakNothing(hostname: string, begin: Text, end: Text)
    requires GoodMarkers(begin, end)
    requires forall i :: 0 <= i < |BaselineLines(hostname)| ==> Harmless(BaselineLines(hostname)[i])
    ensures var lines := BaselineLines(hostname) + [begin, end];
            forall i :: 0 <= i < |lines| ==> NoBreak(lines[i])
  {
    hide BaselineLines;
  }

  lemma UnlinesTwoMore(lines: seq<string>, begin: Text, end: Text)
    ensures Unlines(lines + [begin, end]) == Unlines(lines) + begin + "\n" + end + "\n"
  {
    var one := lines + [begin];
    assert (lines + [begin, end])[..|lines| + 1] == one && one[..|lines|] == lines;
    assert Unlines(one) == Unlines(lines) + (begin + "\n");
  }

  lemma MarkersParse(begin: Text, end: Text)
    requires GoodMarkers(begin, end)
    ensures ParseLines([begin, end]) == []
  {
    hide ParseLine, ParseLines;
    CommentParses(begin);
    CommentParses(end);
    ParseLinesConcat([begin], [end]);
    assert [begin] + [end] == [begin, end];
    ParseLinesOne(begin);
    ParseLinesOne(end);
  }

  lemma LinesParse(hostname: string)
    requires ValidPart(hostname)
    ensures ParseLines(BaselineLines(hostname)) == BaselineEntries(hostname)
  {
    hide ValidPart, ParseLines, ParseLine, IPv6Lines;
    var first := [HostLine("127.0.0.1", ["localhost"]), HostLine("127.0.1.1", [hostname]), "", COMMENT];
    FirstLinesParse(hostname);
    IPv6LinesParse();
    ParseLinesConcat(first, IPv6Lines());
    ParseLinesConcat(first + IPv6Lines(), [""]);
    ParseLinesOne("");
    CommentParses("");
  }

  lemma FirstLinesParse(hostname: string)
    requires ValidPart(hostname)
    ensures ParseLines([HostLine("127.0.0.1", ["localhost"]), HostLine("127.0.1.1", [hostname]), "", COMMENT]) ==
            [Parsed("127.0.0.1", {"localhost"}), Parsed("127.0.1.1", {hostname})]
  {
    hide ValidPart, ParseLine, HostLine, Word, Words, SetOf;
    AddressesAreWords();
    NamesAreWordsToo();
    ValidPartIsWord(hostname);
    var a, b := HostLine("127.0.0.1", ["localhost"]), HostLine("127.0.1.1", [hostname]);
    HostLineParses("127.0.0.1", ["localhost"]);
    HostLineParses("127.0.1.1", [hostname]);
    CommentParses("");
    CommentIsComment();
    CommentParses(COMMENT);
    FourLines(a, b, "", COMMENT);
    assert SetOf(["localhost"]) == {"localhost"} && SetOf([hostname]) == {hostname};
  }

  lemma CommentIsComment()
    ensures COMMENT != "" && COMMENT[0] == '#'
  {
  }

  lemma FourLines(a: string, b: string, c: string, d: string)
    ensures ParseLines([a, b, c, d]) == ParseLine(a) + ParseLine(b) + ParseLine(c) + ParseLine(d)
  {
    hide ParseLine, ParseLines;
    assert [a, b, c, d] == [a] + [b] + [c] + [d];
    ParseLinesConcat([a] + [b] + [c], [d]);
    ParseLinesConcat([a] + [b], [c]);
    ParseLinesConcat([a], [b]);
    ParseLinesOne(a);
    ParseLinesOne(b);
    ParseLinesOne(c);
    ParseLinesOne(d);
  }

  lemma ThreeLines(a: string, b: string, c: string)
    ensures ParseLines([a, b, c]) == ParseLine(a) + ParseLine(b) + ParseLine(c)
  {
    hide ParseLine, ParseLines;
    assert [a, b, c] == [a] + [b] + [c];
    ParseLinesConcat([a] + [b], [c]);
    ParseLinesConcat([a], [b]);
    ParseLinesOne(a);
    ParseLinesOne(b);
    ParseLinesOne(c);
  }

  lemma IPv6LinesParse()
    ensures ParseLines(IPv6Lines()) ==
            [ Parsed("::1", {"ip6-localhost", "ip6-loopback"}), Parsed("fe00::0", {"ip6-localnet"}),
              Parsed("ff00::0", {"ip6-mcastprefix"}), Parsed("ff02::1", {"ip6-allnodes"}),
              Parsed("ff02::2", {"ip6-allrouters"}), Parsed("ff02::3", {"ip6-allhosts"}) ]
  {
    hide ParseLine, ParseLines, HostLine;
    var a := [HostLine("::1", ["ip6-localhost", "ip6-loopback"]), HostLine("fe00::0", ["ip6-localnet"]),
              HostLine("ff00::0", ["ip6-mcastprefix"])];
    var b := [HostLine("ff02::1", ["ip6-allnodes"]), HostLine("ff02::2", ["ip6-allrouters"]),
              HostLine("ff02::3", ["ip6-allhosts"])];
    assert IPv6Lines() == a + b;
    ParseLinesConcat(a, b);
    LocalIPv6Parses();
    GroupIPv6Parses();
  }

  lemma LocalIPv6Parses()
    ensures ParseLines([HostLine("::1", ["ip6-localhost", "ip6-loopback"]), HostLine("fe00::0", ["ip6-localnet"]),
                        HostLine("ff00::0", ["ip6-mcastprefix"])]) ==
            [ Parsed("::1", {"ip6-localhost", "ip6-loopback"}), Parsed("fe00::0", {"ip6-localnet"}),
              Parsed("ff00::0", {"ip6-mcastprefix"}) ]
  {
    hide ParseLine, ParseLines, HostLine, Word, Words, SetOf;
    AddressesAreWords();
    NamesAreWordsToo();
    HostLineParses("::1", ["ip6-localhost", "ip6-loopback"]);
    HostLineParses("fe00::0", ["ip6-localnet"]);
    HostLineParses("ff00::0", ["ip6-mcastprefix"]);
    ThreeLines(HostLine("::1", ["ip6-localhost", "ip6-loopback"]), HostLine("fe00::0", ["ip6-localnet"]),
               HostLine("ff00::0", ["ip6-mcastprefix"]));
    assert SetOf(["ip6-localhost", "ip6-loopback"]) == {"ip6-localhost", "ip6-loopback"};
    assert SetOf(["ip6-localnet"]) == {"ip6-localnet"} && SetOf(["ip6-mcastprefix"]) == {"ip6-mcastprefix"};
  }

  lemma GroupIPv6Parses()
    ensures ParseLines([HostLine("ff02::1", ["ip6-allnodes"]), HostLine("ff02::2", ["ip6-allrouters"]),
                        HostLine("ff02::3", ["ip6-allhosts"])]) ==
            [ Parsed("ff02::1", {"ip6-allnodes"}), Parsed("ff02::2", {"ip6-allrouters"}),
              Parsed("ff02::3", {"ip6-allhosts"}) ]
  {
    hide ParseLine, ParseLines, HostLine, Word, Words, SetOf;
    AddressesAreWords();
    NamesAreWordsToo();
    HostLineParses("ff02::1", ["ip6-allnodes"]);
    HostLineParses("ff02::2", ["ip6-allrouters"]);
    HostLineParses("ff02::3", ["ip6-allhosts"]);
    ThreeLines(HostLine("ff02::1", ["ip6-allnodes"]), HostLine("ff02::2", ["ip6-allrouters"]),
               HostLine("ff02::3", ["ip6-allhosts"]));
    assert SetOf(["ip6-allnodes"]) == {"ip6-allnodes"} && SetOf(["ip6-allrouters"]) == {"ip6-allrouters"};
    assert SetOf(["ip6-allhosts"]) == {"ip6-allhosts"};
  }

  /** The baseline always passes the marker check, for every valid host name and every section name. */
  lemma BaselineIsValid(hostname: string, begin: Text, end: Text, name: Text)
    requires ValidPart(hostname) && FromSection(begin, end, name)
    ensures HasSection(FreshHostsFile(hostname, begin, end), begin, end)
  {
    hide Harmless, Unmarked, HasSection, ValidPart;
    var lines := Unlines(BaselineLines(hostname));
    SectionNameGivesMarkers(begin, end, name);
    BaselineIsHarmless(hostname);
    assert begin[0] == '#' && begin[2] == 'B' && end[0] == '#' && end[2] == 'E';
    UnlinesIsUnmarked(BaselineLines(hostname), begin);
    UnlinesIsUnmarked(BaselineLines(hostname), end);
    AppendIsValid(lines, begin, end);
    assert AppendEmptySection(lines, begin, end) == FreshHostsFile(hostname, begin, end);
  }
}
