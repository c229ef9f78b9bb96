/**
 * The frame handling of streamToElement: every chunk read from the response
 * body is split on blank lines, each `data: ` line is decoded, and a decoded
 * frame either grows the response text by a token or records the token usage.
 * `JSON.parse` with the field accesses that follow it is a parameter,
 * `decode`, mapping a frame's data to what the code makes of it.
 */
module Stream {
  import opened Wrappers
  import opened Text

  /** The usage object a service reports at the end of a stream. */
  datatype Usage = Usage(promptTokens: int, completionTokens: int, totalTokens: int)

  /** What the code makes of a frame's data: a usage report (`json.usage` is
      set), a completion delta (`json.choices[0]?.delta?.content`, the empty
      string when absent), or nothing usable (`JSON.parse` failed or `choices`
      is missing; both throw and are ignored). */
  datatype Frame = UsageFrame(usage: Usage) | DeltaFrame(content: string) | Unusable

  /** The events a stream yields, in order. */
  datatype Event = TextDelta(token: string) | UsageFinal(usage: Usage)

  const DataPrefix: string := "data: "
  const DoneMarker: string := "[DONE]"

  /** The event one line yields, if any: only `data: ` lines count, the
      `[DONE]` marker (up to surrounding whitespace) is skipped, and so are
      empty deltas and frames that cannot be used. */
  function EventOf(line: string, decode: string -> Frame): (e: Option<Event>)
    ensures e.Some? ==> StartsWith(line, DataPrefix)
    ensures e.Some? ==> Trim(line[|DataPrefix|..]) != DoneMarker
    ensures e.Some? && e.value.TextDelta? ==> e.value.token != []
  {
    if !StartsWith(line, DataPrefix) then None
    else
      var data := line[|DataPrefix|..];
      if Trim(data) == DoneMarker then None
      else
        match decode(data)
        case UsageFrame(u) => Some(UsageFinal(u))
        case DeltaFrame(t) => if t != [] then Some(TextDelta(t)) else None
        case Unusable => None
  }

  /** Every event comes from its line's frame: a text delta is the content the
      frame decodes to, a usage report the usage it decodes to. */
  lemma EventFromFrame(line: string, decode: string -> Frame)
    ensures var e := EventOf(line, decode);
      && (e.Some? && e.value.TextDelta? ==> decode(line[|DataPrefix|..]) == DeltaFrame(e.value.token))
      && (e.Some? && e.value.UsageFinal? ==> decode(line[|DataPrefix|..]) == UsageFrame(e.value.usage))
  {
  }

  /** The classifier the read loop applies to every line, for a given decoder.
      What follows is stated for any classifier. */
  function Classify(decode: string -> Frame): string -> Option<Event> {
    line => EventOf(line, decode)
  }

  lemma ClassifyApplies(decode: string -> Frame, line: string)
    ensures Classify(decode)(line) == EventOf(line, decode)
  {
  }

  // ---------------------------------------------------------------------
  // The event sequence of a list of lines, and what it adds up to
  // ---------------------------------------------------------------------

  function Events(lines: seq<string>, ev: string -> Option<Event>): (es: seq<Event>)
    ensures |es| <= |lines|
    decreases |lines|
  {
    if lines == [] then []
    else
      var last := lines[|lines| - 1];
      Events(lines[..|lines| - 1], ev) + (match ev(last) case Some(e) => [e] case None => [])
  }

  /** The tokens of the text deltas, concatenated in order. */
  function TextOf(es: seq<Event>): string
    decreases |es|
  {
    if es == [] then []
    else
      var last := es[|es| - 1];
      TextOf(es[..|es| - 1]) + (if last.TextDelta? then last.token else [])
  }

  /** The usage of the last usage report, or `init` when there is none. */
  function LastUsage(es: seq<Event>, init: Option<Usage>): Option<Usage>
    decreases |es|
  {
    if es == [] then init
    else if es[|es| - 1].UsageFinal? then Some(es[|es| - 1].usage)
    else LastUsage(es[..|es| - 1], init)
  }

  lemma {:induction false} EventsAppend(a: seq<string>, b: seq<string>, ev: string -> Option<Event>)
    ensures Events(a + b, ev) == Events(a, ev) + Events(b, ev)
    decreases |b|
  {
    if b != [] {
      var b' := b[..|b| - 1];
      assert (a + b)[..|a + b| - 1] == a + b';
      assert (a + b)[|a + b| - 1] == b[|b| - 1];
      EventsAppend(a, b', ev);
    } else {
      assert a + b == a;
    }
  }

  lemma {:induction false} TextOfAppend(x: seq<Event>, y: seq<Event>)
    ensures TextOf(x + y) == TextOf(x) + TextOf(y)
    decreases |y|
  {
    if y != [] {
      assert (x + y)[..|x + y| - 1] == x + y[..|y| - 1];
      TextOfAppend(x, y[..|y| - 1]);
    } else {
      assert x + y == x;
    }
  }

  lemma {:induction false} LastUsageAppend(x: seq<Event>, y: seq<Event>, init: Option<Usage>)
    ensures LastUsage(x + y, init) == LastUsage(y, LastUsage(x, init))
    decreases |y|
  {
    if y != [] {
      assert (x + y)[..|x + y| - 1] == x + y[..|y| - 1];
      LastUsageAppend(x, y[..|y| - 1], init);
    } else {
      assert x + y == x;
    }
  }

  /** Without a usage report the initial value survives. */
  lemma {:induction false} LastUsageWithoutReport(es: seq<Event>, init: Option<Usage>)
    requires forall i | 0 <= i < |es| :: !es[i].UsageFinal?
    ensures LastUsage(es, init) == init
    decreases |es|
  {
    if es != [] {
      var front := es[..|es| - 1];
      assert forall i | 0 <= i < |front| :: front[i] == es[i];
      LastUsageWithoutReport(front, init);
    }
  }

  /** The last usage report wins: the result is the usage of a report after
      which no other report follows. */
  lemma {:induction false} LastUsageIsLastReport(es: seq<Event>, init: Option<Usage>)
    requires exists i | 0 <= i < |es| :: es[i].UsageFinal?
    ensures exists i | 0 <= i < |es| ::
              && es[i].UsageFinal? && LastUsage(es, init) == Some(es[i].usage)
              && (forall j | i < j < |es| :: !es[j].UsageFinal?)
    decreases |es|
  {
    var n := |es| - 1;
    if es[n].UsageFinal? {
      assert LastUsage(es, init) == Some(es[n].usage);
    } else {
      var front := es[..n];
      var k :| 0 <= k < |es| && es[k].UsageFinal?;
      assert k < n && front[k] == es[k];
      LastUsageIsLastReport(front, init);
      var i :| && 0 <= i < |front| && front[i].UsageFinal? && LastUsage(front, init) == Some(front[i].usage)
               && (forall j | i < j < |front| :: !front[j].UsageFinal?);
      assert es[i] == front[i];
      assert forall j | i < j < |es| :: !es[j].UsageFinal? by {
        forall j | i < j < |es| ensures !es[j].UsageFinal? {
          if j < n { assert es[j] == front[j]; }
        }
      }
    }
  }

  // ---------------------------------------------------------------------
  // The accumulator the read loop keeps
  // ---------------------------------------------------------------------

  /** `fullResponse` and `currentCallData.usage` while a stream is read. */
  datatype Progress = Progress(text: string, usage: Option<Usage>)

  /** What one line does to the accumulator. */
  function Apply(p: Progress, e: Option<Event>): Progress {
    match e
    case None => p
    case Some(TextDelta(t)) => p.(text := p.text + t)
    case Some(UsageFinal(u)) => p.(usage := Some(u))
  }

  /** The accumulator after the lines, taken in order. */
  function Feed(p: Progress, lines: seq<string>, ev: string -> Option<Event>): Progress
    decreases |lines|
  {
    if lines == [] then p
    else Apply(Feed(p, lines[..|lines| - 1], ev), ev(lines[|lines| - 1]))
  }

  /** Feeding lines is the same as taking their events: the text grows by the
      tokens, in order, and the usage is the last one reported. */
  lemma {:induction false} FeedIsEvents(p: Progress, lines: seq<string>, ev: string -> Option<Event>)
    ensures var es := Events(lines, ev);
      Feed(p, lines, ev) == Progress(p.text + TextOf(es), LastUsage(es, p.usage))
    decreases |lines|
  {
    if lines != [] {
      var front := lines[..|lines| - 1];
      var es := Events(front, ev);
      FeedIsEvents(p, front, ev);
      match ev(lines[|lines| - 1])
      case None =>
        assert Events(lines, ev) == es + [] == es;
      case Some(x) =>
        assert Events(lines, ev) == es + [x];
        assert (es + [x])[..|es|] == es;
    }
  }

  /** Feeding two lists of lines one after the other is feeding their concatenation. */
  lemma {:induction false} FeedAppend(p: Progress, a: seq<string>, b: seq<string>, ev: string -> Option<Event>)
    ensures Feed(Feed(p, a, ev), b, ev) == Feed(p, a + b, ev)
    decreases |b|
  {
    if b != [] {
      var b' := b[..|b| - 1];
      assert (a + b)[..|a + b| - 1] == a + b';
      assert (a + b)[|a + b| - 1] == b[|b| - 1];
      FeedAppend(p, a, b', ev);
    } else {
      assert a + b == a;
    }
  }

  // ---------------------------------------------------------------------
  // Chunks
  // ---------------------------------------------------------------------

  /** The lines of a sequence of chunks: each chunk split on its own, with no
      buffering of a line cut at a chunk's end. */
  function Lines(chunks: seq<string>): (lines: seq<string>)
    ensures |lines| >= |chunks|
    decreases |chunks|
  {
    if chunks == [] then []
    else Lines(chunks[..|chunks| - 1]) + Split(chunks[|chunks| - 1])
  }

  /** The accumulator after reading the chunks one by one. */
  function FeedChunks(p: Progress, chunks: seq<string>, ev: string -> Option<Event>): Progress
    decreases |chunks|
  {
    if chunks == [] then p
    else Feed(FeedChunks(p, chunks[..|chunks| - 1], ev), Split(chunks[|chunks| - 1]), ev)
  }

  /** Reading one more chunk feeds its lines to what the earlier chunks left. */
  lemma FeedChunksStep(p: Progress, chunks: seq<string>, c: string, ev: string -> Option<Event>)
    ensures FeedChunks(p, chunks + [c], ev) == Feed(FeedChunks(p, chunks, ev), Split(c), ev)
  {
    assert (chunks + [c])[..|chunks|] == chunks;
  }

  lemma FeedOne(p: Progress, line: string, ev: string -> Option<Event>)
    ensures Feed(p, [line], ev) == Apply(p, ev(line))
  {
    assert [line][..0] == [];
  }

  /** Reading chunk by chunk is feeding all their lines at once, so the
      response is the tokens of all of the chunks' events. */
  lemma {:induction false} ChunksAreLines(p: Progress, chunks: seq<string>, ev: string -> Option<Event>)
    ensures FeedChunks(p, chunks, ev) == Feed(p, Lines(chunks), ev)
    decreases |chunks|
  {
    if chunks != [] {
      var front := chunks[..|chunks| - 1];
      ChunksAreLines(p, front, ev);
      FeedAppend(p, Lines(front), Split(chunks[|chunks| - 1]), ev);
    }
  }

  // ---------------------------------------------------------------------
  // Examples
  // ---------------------------------------------------------------------

  /** A `data: ` line starts with the prefix, and what follows the prefix is
      exactly the frame's data. */
  lemma DataLine(f: string)
    ensures StartsWith(DataPrefix + f, DataPrefix) && (DataPrefix + f)[|DataPrefix|..] == f
  {
    assert (DataPrefix + f)[..|DataPrefix|] == DataPrefix;
  }

  /** The `[DONE]` line yields nothing, whatever the decoder. */
  lemma DoneYieldsNothing(decode: string -> Frame)
    ensures EventOf(DataPrefix + DoneMarker, decode) == None
  {
    DataLine(DoneMarker);
    TrimOfTrimmed(DoneMarker);
  }

  /** A frame the code cannot use, or a delta without content, yields
      nothing: it adds no text and records no usage. */
  lemma UnusableLineYieldsNothing(f: string, decode: string -> Frame)
    requires decode(f) == Unusable || decode(f) == DeltaFrame("")
    ensures EventOf(DataPrefix + f, decode) == None
  {
    DataLine(f);
  }

  lemma DeltaLine(f: string, t: string, decode: string -> Frame)
    requires Trim(f) != DoneMarker && decode(f) == DeltaFrame(t) && t != []
    ensures EventOf(DataPrefix + f, decode) == Some(TextDelta(t))
  {
    DataLine(f);
  }

  lemma UsageLine(f: string, u: Usage, decode: string -> Frame)
    requires Trim(f) != DoneMarker && decode(f) == UsageFrame(u)
    ensures EventOf(DataPrefix + f, decode) == Some(UsageFinal(u))
  {
    DataLine(f);
  }

  /** Two text deltas, a usage report and the `[DONE]` marker, each framed as
      a `data: ` line and followed by a blank line, in one chunk: the events
      are the two deltas and the report, the response is "Hello" and the
      usage is the reported one. */
  lemma StreamingExample(f1: string, f2: string, f3: string, decode: string -> Frame)
    requires NoSep(f1) && NoSep(f2) && NoSep(f3)
    requires !EndsWithLineFeed(f1) && !EndsWithLineFeed(f2) && !EndsWithLineFeed(f3)
    requires Trim(f1) != DoneMarker && Trim(f2) != DoneMarker && Trim(f3) != DoneMarker
    requires decode(f1) == DeltaFrame("Hel") && decode(f2) == DeltaFrame("lo")
    requires decode(f3) == UsageFrame(Usage(5, 2, 7))
    ensures var chunk := Join([DataPrefix + f1, DataPrefix + f2, DataPrefix + f3, DataPrefix + DoneMarker, ""]);
      && Events(Split(chunk), Classify(decode)) == [TextDelta("Hel"), TextDelta("lo"), UsageFinal(Usage(5, 2, 7))]
      && Feed(Progress("", None), Split(chunk), Classify(decode)) == Progress("Hello", Some(Usage(5, 2, 7)))
  {
    var lines := [DataPrefix + f1, DataPrefix + f2, DataPrefix + f3, DataPrefix + DoneMarker, ""];
    ExampleSplit(f1, f2, f3);
    ExampleEvents(f1, f2, f3, decode);
    FeedIsEvents(Progress("", None), lines, Classify(decode));
    ExampleTotals();
  }

  lemma ExampleEvents(f1: string, f2: string, f3: string, decode: string -> Frame)
    requires Trim(f1) != DoneMarker && Trim(f2) != DoneMarker && Trim(f3) != DoneMarker
    requires decode(f1) == DeltaFrame("Hel") && decode(f2) == DeltaFrame("lo")
    requires decode(f3) == UsageFrame(Usage(5, 2, 7))
    ensures var lines := [DataPrefix + f1, DataPrefix + f2, DataPrefix + f3, DataPrefix + DoneMarker, ""];
      Events(lines, Classify(decode)) == [TextDelta("Hel"), TextDelta("lo"), UsageFinal(Usage(5, 2, 7))]
  {
    var lines := [DataPrefix + f1, DataPrefix + f2, DataPrefix + f3, DataPrefix + DoneMarker, ""];
    DeltaLine(f1, "Hel", decode);
    DeltaLine(f2, "lo", decode);
    UsageLine(f3, Usage(5, 2, 7), decode);
    DoneYieldsNothing(decode);
    ClassifyApplies(decode, lines[0]);
    ClassifyApplies(decode, lines[1]);
    ClassifyApplies(decode, lines[2]);
    ClassifyApplies(decode, lines[3]);
    ClassifyApplies(decode, lines[4]);
    EventsOfExample(lines, Classify(decode), [TextDelta("Hel"), TextDelta("lo"), UsageFinal(Usage(5, 2, 7))]);
  }

  lemma ExampleSplit(f1: string, f2: string, f3: string)
    requires NoSep(f1) && NoSep(f2) && NoSep(f3)
    requires !EndsWithLineFeed(f1) && !EndsWithLineFeed(f2) && !EndsWithLineFeed(f3)
    ensures var lines := [DataPrefix + f1, DataPrefix + f2, DataPrefix + f3, DataPrefix + DoneMarker, ""];
      Split(Join(lines)) == lines
  {
    DataLineNoSep(f1);
    DataLineNoSep(f2);
    DataLineNoSep(f3);
    DataLineNoSep(DoneMarker);
    SplitJoin([DataPrefix + f1, DataPrefix + f2, DataPrefix + f3, DataPrefix + DoneMarker, ""]);
  }

  lemma ExampleTotals()
    ensures var es := [TextDelta("Hel"), TextDelta("lo"), UsageFinal(Usage(5, 2, 7))];
      "" + TextOf(es) == "Hello" && LastUsage(es, None) == Some(Usage(5, 2, 7))
  {
    var es := [TextDelta("Hel"), TextDelta("lo"), UsageFinal(Usage(5, 2, 7))];
    assert es[..2] == [TextDelta("Hel"), TextDelta("lo")];
    assert es[..2][..1] == [TextDelta("Hel")];
    assert es[..2][..1][..0] == [];
    assert TextOf(es[..2][..1]) == "Hel";
    assert TextOf(es[..2]) == "Hel" + "lo";
  }

  lemma DataLineNoSep(f: string)
    requires NoSep(f) && !EndsWithLineFeed(f)
    ensures NoSep(DataPrefix + f) && !EndsWithLineFeed(DataPrefix + f)
  {
    DataPrefixNoSep();
    ConcatNoSep(DataPrefix, f);
  }

  lemma DataPrefixNoSep()
    ensures NoSep(DataPrefix)
  {
    forall j | 0 <= j < |DataPrefix| ensures !SepAt(DataPrefix, j) {
      assert DataPrefix[j] != '\n';
    }
  }

  /** Text after a piece that holds no separator and does not end with a
      line feed gains no separator from it. */
  lemma ConcatNoSep(a: string, f: string)
    requires NoSep(a) && a != [] && a[|a| - 1] != '\n' && NoSep(f)
    ensures NoSep(a + f)
    ensures !EndsWithLineFeed(f) ==> !EndsWithLineFeed(a + f)
  {
    var s := a + f;
    forall j | 0 <= j < |s| ensures !SepAt(s, j) {
      if j >= |a| {
        assert s[j] == f[j - |a|];
        if j + 1 < |s| {
          assert s[j + 1] == f[j + 1 - |a|];
          assert !SepAt(f, j - |a|);
        }
      } else if j + 1 < |a| {
        assert s[j + 1] == a[j + 1];
        assert !SepAt(a, j);
      }
    }
    if f != [] {
      assert s[|s| - 1] == f[|f| - 1];
    }
  }

  lemma EventsOfExample(lines: seq<string>, ev: string -> Option<Event>, es: seq<Event>)
    requires |lines| == 5 && |es| == 3
    requires ev(lines[0]) == Some(es[0]) && ev(lines[1]) == Some(es[1])
    requires ev(lines[2]) == Some(es[2]) && ev(lines[3]) == None && ev(lines[4]) == None
    ensures Events(lines, ev) == es
  {
    assert lines[..1][..0] == [];
    assert lines[..2][..1] == lines[..1];
    assert lines[..3][..2] == lines[..2];
    assert lines[..4][..3] == lines[..3];
    assert lines[..5][..4] == lines[..4];
    assert Events(lines[..1], ev) == [es[0]];
    assert Events(lines[..2], ev) == [es[0], es[1]];
    assert Events(lines[..3], ev) == es;
    assert Events(lines[..4], ev) == es;
    assert lines[..5] == lines;
  }

  /** A frame cut between two chunks is lost: each half is a line of its own
      and neither starts with the `data: ` prefix. */
  lemma FrameSplitAcrossChunksIsLost(f: string, decode: string -> Frame)
    requires NoSep(f) && Trim(f) != DoneMarker && decode(f) == DeltaFrame("Hi")
    ensures FeedChunks(Progress("", None), [DataPrefix + f], Classify(decode)).text == "Hi"
    ensures FeedChunks(Progress("", None), ["da", "ta: " + f], Classify(decode)).text == ""
  {
    var p0, ev := Progress("", None), Classify(decode);
    WholeFrameKept(f, decode);
    FirstHalfYieldsNothing(f, decode);
    FeedChunksStep(p0, ["da"], "ta: " + f, ev);
    SecondHalfYieldsNothing(f, decode, FeedChunks(p0, ["da"], ev));
    assert ["da"] + ["ta: " + f] == ["da", "ta: " + f];
  }

  lemma FirstHalfYieldsNothing(f: string, decode: string -> Frame)
    requires NoSep(f)
    ensures FeedChunks(Progress("", None), ["da"], Classify(decode)).text == ""
  {
    var p0, ev := Progress("", None), Classify(decode);
    HalfFramesYieldNothing(f, decode);
    ClassifyApplies(decode, "da");
    FeedChunksStep(p0, [], "da", ev);
    FeedOne(p0, "da", ev);
    assert [] + ["da"] == ["da"];
  }

  lemma SecondHalfYieldsNothing(f: string, decode: string -> Frame, q: Progress)
    requires NoSep(f) && q.text == ""
    ensures Feed(q, Split("ta: " + f), Classify(decode)).text == ""
  {
    HalfFramesYieldNothing(f, decode);
    ClassifyApplies(decode, "ta: " + f);
    FeedOne(q, "ta: " + f, Classify(decode));
  }

  lemma WholeFrameKept(f: string, decode: string -> Frame)
    requires NoSep(f) && Trim(f) != DoneMarker && decode(f) == DeltaFrame("Hi")
    ensures FeedChunks(Progress("", None), [DataPrefix + f], Classify(decode)).text == "Hi"
  {
    var whole, p0, ev := DataPrefix + f, Progress("", None), Classify(decode);
    DataPrefixNoSep();
    ConcatNoSep(DataPrefix, f);
    SplitWithoutSeparator(whole);
    DeltaLine(f, "Hi", decode);
    ClassifyApplies(decode, whole);
    FeedChunksStep(p0, [], whole, ev);
    FeedOne(p0, whole, ev);
    assert [] + [whole] == [whole];
  }

  /** Neither half of the frame cut after "da" is a `data: ` line, and each is a line of its own. */
  lemma HalfFramesYieldNothing(f: string, decode: string -> Frame)
    requires NoSep(f)
    ensures Split("da") == ["da"] && EventOf("da", decode) == None
    ensures Split("ta: " + f) == ["ta: " + f] && EventOf("ta: " + f, decode) == None
  {
    assert NoSep("da") && NoSep("ta: ") by {
      forall j | 0 <= j < 4 ensures !SepAt("ta: ", j) {
        assert "ta: "[j] != '\n';
      }
    }
    ConcatNoSep("ta: ", f);
    SplitWithoutSeparator("da");
    SplitWithoutSeparator("ta: " + f);
    assert ("ta: " + f)[0] != DataPrefix[0];
  }
}
