/** The marker scanner of hosts/markers.go and the algebra of the managed section.

    A hosts file is a text of characters.  Lines are described by position, without
    reference to the scanner: `StartsLine` says where lines begin, `LineAt` what a line
    holds once a trailing carriage return is dropped, `MarkedAt` which lines are markers.
 */
module Markers {

  type Text = string

  datatype Section = Section(beginStart: nat, beginEnd: nat, endStart: nat, endEnd: nat)

  datatype MarkerFault = DuplicateBegin | DuplicateEnd | EndWithoutBegin | BeginWithoutEnd | EndBeforeBegin

  datatype Scan = NoMarkers | ValidMarkers(section: Section) | Corrupt(fault: MarkerFault)

  /** What the configuration guarantees of the two marker lines: they start with '#',
      differ, and hold no line break or carriage return. */
  predicate GoodMarkers(begin: Text, end: Text) {
    && begin != end
    && GoodMarker(begin)
    && GoodMarker(end)
  }

  predicate GoodMarker(marker: Text) {
    && 0 < |marker|
    && marker[0] == '#'
    && forall i :: 0 <= i < |marker| ==> marker[i] != '\n' && marker[i] != '\r'
  }

  /******* Lines *******/

  ghost predicate StartsLine(data: Text, p: int) {
    0 <= p < |data| && (p == 0 || data[p - 1] == '\n')
  }

  function LineEnd(data: Text, p: nat): (e: nat)
    requires p <= |data|
    ensures p <= e <= |data|
    ensures e < |data| ==> data[e] == '\n'
    ensures forall k :: p <= k < e ==> data[k] != '\n'
    decreases |data| - p
  {
    if p == |data| || data[p] == '\n' then p else LineEnd(data, p + 1)
  }

  function NextLine(data: Text, p: nat): nat
    requires p <= |data|
  {
    var e := LineEnd(data, p);
    if e < |data| then e + 1 else e
  }

  function DropReturn(line: Text): Text {
    if 0 < |line| && line[|line| - 1] == '\r' then line[..|line| - 1] else line
  }

  function LineAt(data: Text, p: nat): Text
    requires p <= |data|
  {
    DropReturn(data[p..LineEnd(data, p)])
  }

  ghost predicate MarkedAt(data: Text, marker: Text, p: int) {
    StartsLine(data, p) && LineAt(data, p) == marker
  }

  /** The marker stands at p, with or without a carriage return, and the line ends there. */
  ghost predicate Spelled(data: Text, marker: Text, p: int, e: int) {
    && 0 <= p <= e <= |data|
    && (data[p..e] == marker || data[p..e] == marker + "\r")
    && (e == |data| || data[e] == '\n')
  }

  /** A marker line spells the marker, a carriage return tolerated, and nothing else does. */
  lemma MarkedIffSpelled(data: Text, marker: Text, p: int)
    requires GoodMarker(marker)
    ensures MarkedAt(data, marker, p) <==> StartsLine(data, p) && exists e :: Spelled(data, marker, p, e)
  {
    hide LineEnd;
    if MarkedAt(data, marker, p) {
      var e := LineEnd(data, p);
      var line := data[p..e];
      assert line == marker || line == marker + "\r";
      assert Spelled(data, marker, p, e);
    }
    if StartsLine(data, p) && exists e :: Spelled(data, marker, p, e) {
      var e :| Spelled(data, marker, p, e);
      assert forall k :: p <= k < e ==> data[k] == data[p..e][k - p];
      LineEndIs(data, p, e);
    }
  }

  /** After whole lines, a marker with CRLF is found like one with LF. */
  lemma ReturnIsTolerated(before: Text, marker: Text, after: Text)
    requires GoodMarker(marker) && Terminated(before)
    ensures MarkedAt(before + (marker + "\r\n" + after), marker, |before|)
    ensures MarkedAt(before + (marker + "\n" + after), marker, |before|)
  {
    var p := |before|;
    var crlf, lf := before + (marker + "\r\n" + after), before + (marker + "\n" + after);
    assert crlf[p..p + |marker| + 1] == marker + "\r" && crlf[p + |marker| + 1] == '\n';
    assert Spelled(crlf, marker, p, p + |marker| + 1);
    assert lf[p..p + |marker|] == marker && lf[p + |marker|] == '\n';
    assert Spelled(lf, marker, p, p + |marker|);
    assert StartsLine(crlf, p) && StartsLine(lf, p);
    MarkedIffSpelled(crlf, marker, p);
    MarkedIffSpelled(lf, marker, p);
  }

  ghost predicate Unmarked(data: Text, marker: Text) {
    forall p :: !MarkedAt(data, marker, p)
  }

  lemma EmptyIsUnmarked(marker: Text)
    ensures Unmarked("", marker)
  {
  }

  ghost predicate OnlyMarkedAt(data: Text, marker: Text, p: int) {
    MarkedAt(data, marker, p) && forall q :: MarkedAt(data, marker, q) ==> q == p
  }

  ghost predicate MarkedTwice(data: Text, marker: Text) {
    exists p, q :: p < q && MarkedAt(data, marker, p) && MarkedAt(data, marker, q)
  }

  /******* The managed section *******/

  /** One BEGIN line, one END line after it, and the exact extents of both. */
  ghost predicate IsSection(data: Text, begin: Text, end: Text, s: Section) {
    && OnlyMarkedAt(data, begin, s.beginStart)
    && OnlyMarkedAt(data, end, s.endStart)
    && s.beginStart < s.endStart
    && s.beginEnd == NextLine(data, s.beginStart)
    && s.endEnd == NextLine(data, s.endStart)
  }

  ghost predicate HasSection(data: Text, begin: Text, end: Text) {
    exists s :: IsSection(data, begin, end, s)
  }

  ghost function SectionOf(data: Text, begin: Text, end: Text): (s: Section)
    requires HasSection(data, begin, end)
    ensures IsSection(data, begin, end, s)
  {
    var s :| IsSection(data, begin, end, s); s
  }

  /** When a scan may report each fault. */
  ghost predicate Explains(data: Text, begin: Text, end: Text, fault: MarkerFault) {
    match fault
    case DuplicateBegin => MarkedTwice(data, begin)
    case DuplicateEnd => MarkedTwice(data, end)
    case EndWithoutBegin => Unmarked(data, begin) && exists q :: OnlyMarkedAt(data, end, q)
    case BeginWithoutEnd => (begin == end || Unmarked(data, end)) && exists p :: OnlyMarkedAt(data, begin, p)
    case EndBeforeBegin => exists p, q :: q < p && OnlyMarkedAt(data, begin, p) && OnlyMarkedAt(data, end, q)
  }

  lemma SectionIsUnique(data: Text, begin: Text, end: Text, s: Section)
    requires IsSection(data, begin, end, s)
    ensures HasSection(data, begin, end) && SectionOf(data, begin, end) == s
  {
    assert HasSection(data, begin, end);
    var t := SectionOf(data, begin, end);
    assert t.beginStart == s.beginStart && t.endStart == s.endStart;
  }

  lemma NoLineStartsInside(data: Text, p: nat, q: int)
    requires p < |data| && p < q < NextLine(data, p)
    ensures !StartsLine(data, q)
  {
    hide LineEnd;
    assert data[q - 1] != '\n';
  }

  lemma NextLineStarts(data: Text, p: nat)
    requires p < |data|
    ensures p < NextLine(data, p) <= |data|
    ensures NextLine(data, p) == |data| || StartsLine(data, NextLine(data, p))
  {
    hide LineEnd;
  }

  /** Scanning one more line extends what is known about marker lines by that line alone. */
  lemma ScanLine(data: Text, marker: Text, p: nat)
    requires StartsLine(data, p)
    ensures forall q :: q < NextLine(data, p) && MarkedAt(data, marker, q) ==>
              q < p || (q == p && LineAt(data, p) == marker)
  {
    hide LineAt, LineEnd;
    forall q | p < q < NextLine(data, p) ensures !StartsLine(data, q) {
      NoLineStartsInside(data, p, q);
    }
  }

  /** locateMarkers: one pass over the lines, stopping at the first repeated marker. */
  method LocateMarkers(data: Text, begin: Text, end: Text) returns (scan: Scan)
    ensures scan.ValidMarkers? <==> HasSection(data, begin, end)
    ensures scan.ValidMarkers? ==> IsSection(data, begin, end, scan.section)
    ensures scan.NoMarkers? <==> Unmarked(data, begin) && Unmarked(data, end)
    ensures scan.Corrupt? ==> Explains(data, begin, end, scan.fault)
  {
    hide LineAt, NextLine;
    var section := Section(0, 0, 0, 0);
    var beginFound, endFound := false, false;
    var lineStart: nat := 0;
    while lineStart < |data|
      invariant lineStart <= |data|
      invariant lineStart < |data| ==> StartsLine(data, lineStart)
      invariant !beginFound ==> forall p :: p < lineStart ==> !MarkedAt(data, begin, p)
      invariant beginFound ==>
                  MarkedAt(data, begin, section.beginStart) && section.beginEnd == NextLine(data, section.beginStart)
      invariant beginFound ==> section.beginStart < lineStart
      invariant beginFound ==> forall p :: p < lineStart && MarkedAt(data, begin, p) ==> p == section.beginStart
      invariant !endFound && begin != end ==> forall p :: p < lineStart ==> !MarkedAt(data, end, p)
      invariant endFound ==>
                  begin != end && MarkedAt(data, end, section.endStart)
                      && section.endEnd == NextLine(data, section.endStart)
      invariant endFound ==> section.endStart < lineStart
      invariant endFound ==> forall p :: p < lineStart && MarkedAt(data, end, p) ==> p == section.endStart
    {
      var lineNext := NextLine(data, lineStart);
      var line := LineAt(data, lineStart);
      NextLineStarts(data, lineStart);
      ScanLine(data, begin, lineStart);
      ScanLine(data, end, lineStart);
      if line == begin {
        if beginFound {
          assert MarkedAt(data, begin, lineStart);
          return Corrupt(DuplicateBegin);
        }
        beginFound := true;
        section := section.(beginStart := lineStart, beginEnd := lineNext);
      } else if line == end {
        if endFound {
          assert MarkedAt(data, end, lineStart);
          return Corrupt(DuplicateEnd);
        }
        endFound := true;
        section := section.(endStart := lineStart, endEnd := lineNext);
      }
      lineStart := lineNext;
    }
    if !beginFound && !endFound {
      return NoMarkers;
    }
    assert beginFound ==> OnlyMarkedAt(data, begin, section.beginStart);
    assert endFound ==> OnlyMarkedAt(data, end, section.endStart);
    if !beginFound {
      return Corrupt(EndWithoutBegin);
    }
    if !endFound {
      return Corrupt(BeginWithoutEnd);
    }
    if section.endStart < section.beginStart {
      return Corrupt(EndBeforeBegin);
    }
    assert IsSection(data, begin, end, section);
    return ValidMarkers(section);
  }

  /******* Concatenation of whole lines *******/

  predicate Terminated(data: Text) {
    |data| == 0 || data[|data| - 1] == '\n'
  }

  lemma {:induction false} LineEndIs(data: Text, p: nat, e: nat)
    requires p <= e <= |data|
    requires e < |data| ==> data[e] == '\n'
    requires forall k :: p <= k < e ==> data[k] != '\n'
    ensures LineEnd(data, p) == e
    decreases e - p
  {
    if p < e {
      LineEndIs(data, p + 1, e);
    }
  }

  /** After whole lines, the lines of a concatenation are those of its two parts. */
  lemma LinesOfConcat(a: Text, b: Text, p: nat)
    requires Terminated(a)
    requires p < |a + b|
    ensures p < |a| ==> NextLine(a + b, p) == NextLine(a, p) && LineAt(a + b, p) == LineAt(a, p)
    ensures p >= |a| ==> NextLine(a + b, p) == |a| + NextLine(b, p - |a|) && LineAt(a + b, p) == LineAt(b, p - |a|)
    ensures StartsLine(a + b, p) <==> if p < |a| then StartsLine(a, p) else StartsLine(b, p - |a|)
  {
    hide NextLine, LineAt;
    if p < |a| {
      FirstLines(a, b, p);
    } else {
      LaterLines(a, b, p - |a|);
    }
  }

  /** A line of the first part. */
  lemma FirstLines(a: Text, b: Text, p: nat)
    requires Terminated(a) && p < |a|
    ensures NextLine(a + b, p) == NextLine(a, p) && LineAt(a + b, p) == LineAt(a, p)
  {
    hide LineEnd, DropReturn;
    var e := LineEnd(a, p);
    assert e != |a|;
    LineEndIs(a + b, p, e);
    assert (a + b)[p..e] == a[p..e];
  }

  /** A line of the second part. */
  lemma LaterLines(a: Text, b: Text, p: nat)
    requires p < |b|
    ensures NextLine(a + b, |a| + p) == |a| + NextLine(b, p) && LineAt(a + b, |a| + p) == LineAt(b, p)
  {
    hide LineEnd, DropReturn;
    var e := LineEnd(b, p);
    LineEndIs(a + b, |a| + p, |a| + e);
    assert (a + b)[|a| + p..|a| + e] == b[p..e];
  }

  lemma MarksOfConcat(a: Text, b: Text, marker: Text)
    requires Terminated(a)
    ensures forall p :: MarkedAt(a + b, marker, p) <==>
                        if p < |a| then MarkedAt(a, marker, p) else MarkedAt(b, marker, p - |a|)
  {
    forall p
      ensures MarkedAt(a + b, marker, p) <==> if p < |a| then MarkedAt(a, marker, p) else MarkedAt(b, marker, p - |a|)
    {
      if 0 <= p < |a + b| {
        LinesOfConcat(a, b, p);
      }
    }
  }

  lemma MarksOfThree(a: Text, b: Text, c: Text, marker: Text)
    requires Terminated(a) && Terminated(b)
    ensures forall p :: MarkedAt(a + b + c, marker, p) <==>
                        if p < |a| then MarkedAt(a, marker, p)
                        else if p < |a| + |b| then MarkedAt(b, marker, p - |a|)
                        else MarkedAt(c, marker, p - |a| - |b|)
  {
    assert a + b + c == a + (b + c);
    MarksOfConcat(a, b + c, marker);
    MarksOfConcat(b, c, marker);
    forall p
      ensures MarkedAt(a + b + c, marker, p) <==>
              if p < |a| then MarkedAt(a, marker, p)
              else if p < |a| + |b| then MarkedAt(b, marker, p - |a|)
              else MarkedAt(c, marker, p - |a| - |b|)
    {
      assert MarkedAt(a + (b + c), marker, p) <==>
          if p < |a| then MarkedAt(a, marker, p) else MarkedAt(b + c, marker, p - |a|);
      assert MarkedAt(b + c, marker, p - |a|) <==>
          if p - |a| < |b| then MarkedAt(b, marker, p - |a|) else MarkedAt(c, marker, p - |a| - |b|);
    }
  }

  /******* Splicing *******/

  /** A body the section can hold: whole lines, none of them a marker. */
  ghost predicate GoodBody(body: Text, begin: Text, end: Text) {
    Terminated(body) && Unmarked(body, begin) && Unmarked(body, end)
  }

  ghost predicate Fits(data: Text, s: Section) {
    s.beginEnd <= s.endStart <= |data|
  }

  function Splice(data: Text, s: Section, body: Text): Text
    requires s.beginEnd <= s.endStart <= |data|
  {
    data[..s.beginEnd] + body + data[s.endStart..]
  }

  /** replaceManagedSection: three appends into a fresh buffer. */
  method ReplaceManagedSection(data: Text, s: Section, body: Text) returns (replaced: Text)
    requires Fits(data, s)
    ensures replaced == Splice(data, s, body)
    ensures |replaced| == s.beginEnd + |body| + |data| - s.endStart
  {
    replaced := [];
    replaced := replaced + data[..s.beginEnd];
    replaced := replaced + body;
    replaced := replaced + data[s.endStart..];
  }

  function Relocated(s: Section, bodyLength: nat): Section
    requires s.endStart <= s.endEnd
  {
    var endStart := s.beginEnd + bodyLength;
    Section(s.beginStart, s.beginEnd, endStart, endStart + (s.endEnd - s.endStart))
  }

  /** A section cuts the file into whole lines: through BEGIN, the body, END onward. */
  lemma SectionCuts(data: Text, begin: Text, end: Text, s: Section)
    requires IsSection(data, begin, end, s)
    ensures s.beginStart < s.beginEnd <= s.endStart < s.endEnd <= |data|
    ensures Terminated(data[..s.beginEnd]) && Terminated(data[s.beginEnd..s.endStart])
    ensures Fits(data, s)
  {
    if s.endStart < s.beginEnd {
      NoLineStartsInside(data, s.beginStart, s.endStart);
    }
    assert data[s.endStart - 1] == '\n';
    assert LineEnd(data, s.beginStart) <= s.endStart - 1;
  }

  /** A marker line of the file lies before the body, in it, or after it. */
  lemma MarksAroundBody(data: Text, s: Section, body: Text, marker: Text)
    requires Fits(data, s)
    requires Terminated(data[..s.beginEnd]) && Terminated(data[s.beginEnd..s.endStart]) && Terminated(body)
    requires Unmarked(body, marker)
    ensures forall p :: p < s.beginEnd ==> (MarkedAt(Splice(data, s, body), marker, p) <==> MarkedAt(data, marker, p))
    ensures forall p :: s.beginEnd <= p < s.beginEnd + |body| ==> !MarkedAt(Splice(data, s, body), marker, p)
    ensures forall p :: s.beginEnd + |body| <= p ==>
                          (MarkedAt(Splice(data, s, body), marker, p) <==>
                              MarkedAt(data, marker, p - |body| - s.beginEnd + s.endStart))
  {
    hide MarkedAt;
    var a, m, c := data[..s.beginEnd], data[s.beginEnd..s.endStart], data[s.endStart..];
    assert data == a + m + c;
    MarksOfThree(a, m, c, marker);
    MarksOfThree(a, body, c, marker);
  }

  lemma SpliceKeepsMark(data: Text, s: Section, body: Text, marker: Text, p: nat)
    requires Fits(data, s)
    requires Terminated(data[..s.beginEnd]) && Terminated(data[s.beginEnd..s.endStart]) && Terminated(body)
    requires Unmarked(body, marker)
    requires OnlyMarkedAt(data, marker, p) && (p < s.beginEnd || s.endStart <= p)
    ensures OnlyMarkedAt(Splice(data, s, body), marker,
                         if p < s.beginEnd then p else p - s.endStart + s.beginEnd + |body|)
  {
    hide MarkedAt, Splice;
    MarksAroundBody(data, s, body, marker);
    var q := if p < s.beginEnd then p else p - s.endStart + s.beginEnd + |body|;
    assert p == if p < s.beginEnd then q else q - |body| - s.beginEnd + s.endStart;
  }

  /** Writing a good body keeps the section where it was, holding exactly that body. */
  lemma SpliceRelocates(data: Text, begin: Text, end: Text, s: Section, body: Text)
    requires IsSection(data, begin, end, s)
    requires GoodBody(body, begin, end)
    ensures s.endStart <= s.endEnd && Fits(data, s)
    ensures IsSection(Splice(data, s, body), begin, end, Relocated(s, |body|))
    ensures Splice(data, s, body)[s.beginEnd..s.beginEnd + |body|] == body
  {
    hide OnlyMarkedAt, NextLine, Unmarked, Splice, Terminated;
    SectionCuts(data, begin, end, s);
    SpliceKeepsMark(data, s, body, begin, s.beginStart);
    SpliceKeepsMark(data, s, body, end, s.endStart);
    SpliceExtents(data, s, body);
  }

  lemma SpliceExtents(data: Text, s: Section, body: Text)
    requires s.beginStart < s.beginEnd <= s.endStart < |data|
    requires Terminated(data[..s.beginEnd]) && Terminated(data[s.beginEnd..s.endStart]) && Terminated(body)
    ensures |Splice(data, s, body)| > s.beginEnd + |body|
    ensures NextLine(Splice(data, s, body), s.beginStart) == NextLine(data, s.beginStart)
    ensures NextLine(Splice(data, s, body), s.beginEnd + |body|) ==
            s.beginEnd + |body| + NextLine(data, s.endStart) - s.endStart
    ensures Splice(data, s, body)[s.beginEnd..s.beginEnd + |body|] == body
  {
    hide NextLine;
    var a, m, c := data[..s.beginEnd], data[s.beginEnd..s.endStart], data[s.endStart..];
    assert data == a + m + c;
    SpliceLineExtents(a, m, body, c, s.beginStart);
  }

  /** Replacing whole lines in the middle moves no line break before or after them. */
  lemma SpliceLineExtents(a: Text, m: Text, body: Text, c: Text, p: nat)
    requires Terminated(a) && Terminated(m) && Terminated(body)
    requires p < |a| && |c| > 0
    ensures NextLine(a + body + c, p) == NextLine(a + m + c, p)
    ensures NextLine(a + body + c, |a| + |body|) - |body| == NextLine(a + m + c, |a| + |m|) - |m|
  {
    hide NextLine;
    assert a + m + c == a + (m + c) && a + body + c == a + (body + c);
    SameLineAfter(a, m + c, body + c, p);
    SameLineBefore(a + m, a + body, c);
  }

  lemma SameLineAfter(a: Text, b: Text, c: Text, p: nat)
    requires Terminated(a) && p < |a|
    ensures NextLine(a + b, p) == NextLine(a + c, p)
  {
    hide NextLine, LineAt, StartsLine;
    LinesOfConcat(a, b, p);
    LinesOfConcat(a, c, p);
  }

  lemma SameLineBefore(a: Text, b: Text, c: Text)
    requires Terminated(a) && Terminated(b) && |c| > 0
    ensures NextLine(a + c, |a|) - |a| == NextLine(b + c, |b|) - |b|
  {
    hide NextLine, LineAt, StartsLine;
    LinesOfConcat(a, c, |a|);
    LinesOfConcat(b, c, |b|);
  }

  /** Splicing twice is splicing once, with the last body. */
  lemma SpliceTwice(data: Text, s: Section, first: Text, second: Text)
    requires Fits(data, s) && s.endStart <= s.endEnd
    ensures Fits(Splice(data, s, first), Relocated(s, |first|))
    ensures Splice(Splice(data, s, first), Relocated(s, |first|), second) == Splice(data, s, second)
  {
    var once := Splice(data, s, first);
    assert once[..s.beginEnd] == data[..s.beginEnd];
    assert once[s.beginEnd + |first|..] == data[s.endStart..];
  }

  /******* Appending an empty section *******/

  function WithFinalNewline(data: Text): Text {
    if Terminated(data) then data else data + "\n"
  }

  function AppendEmptySection(data: Text, begin: Text, end: Text): Text {
    WithFinalNewline(data) + begin + "\n" + end + "\n"
  }

  lemma FinalNewlineKeepsMarks(data: Text, marker: Text)
    requires Unmarked(data, marker)
    ensures Unmarked(WithFinalNewline(data), marker)
  {
    var out := WithFinalNewline(data);
    if !Terminated(data) {
      forall p ensures !MarkedAt(out, marker, p) {
        if StartsLine(out, p) {
          assert p < |data|;
          assert StartsLine(data, p) && !MarkedAt(data, marker, p);
          var e := LineEnd(data, p);
          LineEndIs(out, p, e);
          assert out[p..e] == data[p..e];
        }
      }
    }
  }

  /** A marker line on its own is one line, holding that marker and nothing else. */
  lemma MarkerLine(marker: Text)
    requires GoodMarker(marker)
    ensures MarkedAt(marker + "\n", marker, 0)
    ensures forall other, p :: MarkedAt(marker + "\n", other, p) ==> p == 0 && other == marker
    ensures NextLine(marker + "\n", 0) == |marker| + 1
  {
    var line := marker + "\n";
    LineEndIs(line, 0, |marker|);
    assert line[0..|marker|] == marker;
    assert forall i :: 0 <= i < |marker| ==> line[i] == marker[i];
  }

  /** Initialising marker-free data is never rejected, and adds an empty section at its end. */
  lemma AppendIsValid(data: Text, begin: Text, end: Text)
    requires GoodMarkers(begin, end)
    requires Unmarked(data, begin) && Unmarked(data, end)
    ensures HasSection(AppendEmptySection(data, begin, end), begin, end)
    ensures var out := AppendEmptySection(data, begin, end);
            var s := SectionOf(out, begin, end);
            && s.beginEnd == s.endStart && s.endEnd == |out| && data <= out[..s.beginStart]
            && out[..s.beginStart] == (if data == "" || data[|data| - 1] == '\n' then data else data + "\n")
            && out[s.beginStart..s.beginEnd] == begin + "\n" && out[s.endStart..] == end + "\n"
  {
    hide MarkedAt, NextLine;
    var a, b, c := WithFinalNewline(data), begin + "\n", end + "\n";
    var out := AppendEmptySection(data, begin, end);
    assert out == a + b + c;
    FinalNewlineKeepsMarks(data, begin);
    FinalNewlineKeepsMarks(data, end);
    MarkerLine(begin);
    MarkerLine(end);
    AppendExtents(a, b, c);
    AppendMarks(a, begin, end);
    SectionIsUnique(out, begin, end, Section(|a|, |a| + |b|, |a| + |b|, |out|));
  }

  lemma AppendMarks(a: Text, begin: Text, end: Text)
    requires GoodMarkers(begin, end)
    requires Terminated(a) && Unmarked(a, begin) && Unmarked(a, end)
    ensures var out := a + (begin + "\n") + (end + "\n");
            OnlyMarkedAt(out, begin, |a|) && OnlyMarkedAt(out, end, |a| + |begin| + 1)
  {
    hide MarkedAt;
    var b, c := begin + "\n", end + "\n";
    MarkerLine(begin);
    MarkerLine(end);
    MarksOfThree(a, b, c, begin);
    MarksOfThree(a, b, c, end);
    assert MarkedAt(b, begin, |a| - |a|);
    assert MarkedAt(c, end, |a| + |b| - |a| - |b|);
  }

  lemma AppendExtents(a: Text, b: Text, c: Text)
    requires Terminated(a) && Terminated(b) && |b| > 0 && |c| > 0
    requires NextLine(b, 0) == |b| && NextLine(c, 0) == |c|
    ensures NextLine(a + b + c, |a|) == |a| + |b|
    ensures NextLine(a + b + c, |a| + |b|) == |a + b + c|
  {
    hide NextLine, LineAt, StartsLine;
    assert a + b + c == a + (b + c);
    LinesOfConcat(a, b + c, |a|);
    LinesOfConcat(b, c, 0);
    LinesOfConcat(a + b, c, |a + b|);
  }
}
