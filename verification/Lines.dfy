/** The two line formats of the bridge: `"<tag> <rest>"`, and lists joined with newlines. */
module Lines {
  import opened Base
  import opened Errors

  // ---------------------------------------------------------------- tagged lines

  datatype Tagged = Tagged(tag: string, rest: string, delimited: bool)

  /** Where the first space is, or the length when there is none. */
  function FirstSpace(line: string): (i: nat)
    ensures i <= |line|
    ensures i < |line| ==> line[i] == ' '
    ensures ' ' !in line[..i]
  {
    if line == [] || line[0] == ' ' then 0
    else
      assert line[..1 + FirstSpace(line[1..])] == [line[0]] + line[1..][..FirstSpace(line[1..])];
      1 + FirstSpace(line[1..])
  }

  function SplitTagged(line: string): Tagged
  {
    var space := FirstSpace(line);
    if space == |line| then Tagged(line, "", false)
    else Tagged(line[..space], line[space + 1..], true)
  }

  lemma {:induction false} FirstSpaceIs(line: string, i: nat)
    requires i < |line| && line[i] == ' ' && ' ' !in line[..i]
    ensures FirstSpace(line) == i
  {
    if i > 0 {
      assert line[..i][0] == line[0];
      assert line[1..][..i - 1] == line[..i][1..];
      FirstSpaceIs(line[1..], i - 1);
    }
  }

  /** The native line for a space-free tag splits back into tag and payload, whatever the payload
      contains; and every delimited line is such a line. */
  lemma TaggedRoundTrip(tag: string, rest: string)
    requires ' ' !in tag
    ensures SplitTagged(tag + " " + rest) == Tagged(tag, rest, true)
  {
    var line := tag + " " + rest;
    assert line[..|tag|] == tag;
    FirstSpaceIs(line, |tag|);
    assert line[|tag| + 1..] == rest;
  }

  lemma {:induction false} SplitIsExact(line: string)
    ensures var t := SplitTagged(line);
      && (t.delimited <==> ' ' in line)
      && ' ' !in t.tag
      && line == if t.delimited then t.tag + " " + t.rest else t.tag
  {
    var i := FirstSpace(line);
    if i == |line| {
      assert line[..i] == line;
    } else {
      assert line == line[..i] + [line[i]] + line[i + 1..];
    }
  }

  /** `"<connection> <remote id>"`, as a listener's callback receives it. */
  function ConnectionLine(connection: nat, remoteId: string): string
  {
    Decimal(connection) + " " + remoteId
  }

  predicate AllDigits(s: string)
  {
    s != [] && forall i :: 0 <= i < |s| ==> '0' <= s[i] <= '9'
  }

  /** `None` for a line without a space, or whose number is not one. */
  function ParseConnectionLine(line: string): Option<(nat, string)>
  {
    var t := SplitTagged(line);
    if t.delimited && AllDigits(t.tag) then Some((Number(t.tag), t.rest)) else None
  }

  /** A listener's line gives back the handle and the peer, whatever the peer's name contains. */
  lemma ConnectionLineRoundTrip(connection: nat, remoteId: string)
    ensures ParseConnectionLine(ConnectionLine(connection, remoteId)) == Some((connection, remoteId))
  {
    NumberOfDecimal(connection);
    TaggedRoundTrip(Decimal(connection), remoteId);
  }

  // ---------------------------------------------------------------- newline-joined lists

  /** The pieces between newlines; there is always one more than there are newlines. */
  function Segments(s: string): (r: seq<string>)
    ensures r != []
  {
    if s == [] then [""]
    else if s[0] == '\n' then [""] + Segments(s[1..])
    else
      var rest := Segments(s[1..]);
      [[s[0]] + rest[0]] + rest[1..]
  }

  function NonEmpty(segments: seq<string>): seq<string>
  {
    if segments == [] then []
    else (if segments[0] == "" then [] else [segments[0]]) + NonEmpty(segments[1..])
  }

  /** Empty segments are dropped. */
  function SplitJoined(joined: string): seq<string>
  {
    NonEmpty(Segments(joined))
  }

  /** `join("\n")` */
  function Join(lines: seq<string>): string
  {
    if lines == [] then ""
    else if |lines| == 1 then lines[0]
    else lines[0] + "\n" + Join(lines[1..])
  }

  predicate OneLine(s: string)
  {
    s != "" && '\n' !in s
  }

  predicate OneLineEach(lines: seq<string>)
  {
    forall i :: 0 <= i < |lines| ==> OneLine(lines[i])
  }

  lemma {:induction false} SegmentsAppend(a: string, b: string)
    ensures Segments(a + "\n" + b) == Segments(a) + Segments(b)
  {
    var s := a + "\n" + b;
    if a == [] {
      assert s == "\n" + b && s[1..] == b;
    } else {
      assert s[1..] == a[1..] + "\n" + b;
      SegmentsAppend(a[1..], b);
    }
  }

  lemma {:induction false} NonEmptyAppend(a: seq<string>, b: seq<string>)
    ensures NonEmpty(a + b) == NonEmpty(a) + NonEmpty(b)
  {
    if a == [] {
      assert a + b == b;
    } else {
      var kept := if a[0] == "" then [] else [a[0]];
      NonEmptyAppend(a[1..], b);
      assert (a + b)[0] == a[0] && (a + b)[1..] == a[1..] + b;
      assert NonEmpty(a + b) == kept + (NonEmpty(a[1..]) + NonEmpty(b));
    }
  }

  /** A separator splits a list into two lists, wherever it stands. */
  lemma SplitAtSeparator(a: string, b: string)
    ensures SplitJoined(a + "\n" + b) == SplitJoined(a) + SplitJoined(b)
  {
    SegmentsAppend(a, b);
    NonEmptyAppend(Segments(a), Segments(b));
  }

  /** A stray separator at either end changes nothing. */
  lemma StraySeparatorIsHarmless(s: string)
    ensures SplitJoined("\n" + s) == SplitJoined(s)
    ensures SplitJoined(s + "\n") == SplitJoined(s)
  {
    SplitAtSeparator("", s);
    assert "" + "\n" + s == "\n" + s;
    SplitAtSeparator(s, "");
    assert s + "\n" + "" == s + "\n";
  }

  lemma {:induction false} OneSegment(s: string)
    requires '\n' !in s
    ensures Segments(s) == [s]
  {
    if s != [] {
      OneSegment(s[1..]);
      assert [s[0]] + s[1..] == s;
    }
  }

  lemma {:induction false} JoinSplits(lines: seq<string>)
    requires OneLineEach(lines)
    ensures SplitJoined(Join(lines)) == lines
  {
    if lines != [] {
      OneSegment(lines[0]);
      assert NonEmpty([lines[0]]) == [lines[0]];
      if |lines| > 1 {
        SplitAtSeparator(lines[0], Join(lines[1..]));
        JoinSplits(lines[1..]);
        assert [lines[0]] + lines[1..] == lines;
      }
    }
  }

  lemma {:induction false} SegmentsHaveNoNewline(s: string)
    ensures forall i :: 0 <= i < |Segments(s)| ==> '\n' !in Segments(s)[i]
  {
    if s != [] {
      SegmentsHaveNoNewline(s[1..]);
    }
  }

  lemma {:induction false} NonEmptyIs(segments: seq<string>)
    ensures forall i :: 0 <= i < |NonEmpty(segments)| ==> NonEmpty(segments)[i] != "" && NonEmpty(segments)[i] in segments
  {
    if segments != [] {
      NonEmptyIs(segments[1..]);
    }
  }

  lemma SplitGivesLines(s: string)
    ensures OneLineEach(SplitJoined(s))
  {
    SegmentsHaveNoNewline(s);
    NonEmptyIs(Segments(s));
  }

  /** Splitting gives the joined list back exactly when each element is a line of its own. */
  lemma JoinedListRoundTrip(lines: seq<string>)
    ensures SplitJoined(Join(lines)) == lines <==> OneLineEach(lines)
  {
    SplitGivesLines(Join(lines));
    if OneLineEach(lines) {
      JoinSplits(lines);
    }
  }
}
