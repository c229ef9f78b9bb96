/**
 * What runs of events do: the network events of a request, delivered one
 * after another, and the user events that abort them.
 */
module Runs {
  import opened Wrappers
  import opened Text
  import opened Lock
  import opened Stream
  import opened Session

  // ---------------------------------------------------------------------
  // Network events alone
  // ---------------------------------------------------------------------

  lemma {:induction false} DeliverAllAppend(s: State, a: seq<Delivery>, b: seq<Delivery>,
                                           decode: string -> Frame, decodeUri: string -> Option<string>)
    ensures DeliverAll(s, a + b, decode, decodeUri) == DeliverAll(DeliverAll(s, a, decode, decodeUri), b, decode, decodeUri)
    decreases |a|
  {
    if a == [] {
      assert a + b == b;
    } else {
      assert (a + b)[0] == a[0] && (a + b)[1..] == a[1..] + b;
      DeliverAllAppend(Deliver(s, a[0], decode, decodeUri), a[1..], b, decode, decodeUri);
    }
  }

  /** Network events keep the invariant. */
  lemma DeliverKeepsInv(s: State, d: Delivery, decode: string -> Frame, decodeUri: string -> Option<string>)
    requires Inv(s)
    ensures Inv(Deliver(s, d, decode, decodeUri))
  {
  }

  lemma {:induction false} DeliverAllKeepsInv(s: State, ds: seq<Delivery>, decode: string -> Frame,
                                             decodeUri: string -> Option<string>)
    requires Inv(s)
    ensures Inv(DeliverAll(s, ds, decode, decodeUri))
    decreases |ds|
  {
    if ds != [] {
      DeliverKeepsInv(s, ds[0], decode, decodeUri);
      DeliverAllKeepsInv(Deliver(s, ds[0], decode, decodeUri), ds[1..], decode, decodeUri);
    }
  }

  /** The stream only ever writes to the suggestion element, the current call
      and the log: the document, the lock, the locked view, the timer and the
      generation stay as they are. */
  lemma {:induction false} StreamLeavesDocument(s: State, ds: seq<Delivery>, decode: string -> Frame,
                                               decodeUri: string -> Option<string>)
    ensures var t := DeliverAll(s, ds, decode, decodeUri);
      && t.area == s.area && t.locked == s.locked && t.view == s.view
      && t.timerArmed == s.timerArmed && t.generation == s.generation
    decreases |ds|
  {
    if ds != [] {
      StreamLeavesDocument(Deliver(s, ds[0], decode, decodeUri), ds[1..], decode, decodeUri);
    }
  }

  /** Events of any other generation, the generation of an aborted request,
      change nothing. */
  lemma {:induction false} StaleDeliveriesChangeNothing(s: State, ds: seq<Delivery>, decode: string -> Frame,
                                                       decodeUri: string -> Option<string>)
    requires forall i | 0 <= i < |ds| :: ds[i].gen != s.generation
    ensures DeliverAll(s, ds, decode, decodeUri) == s
    decreases |ds|
  {
    if ds != [] {
      assert Deliver(s, ds[0], decode, decodeUri) == s;
      StaleDeliveriesChangeNothing(s, ds[1..], decode, decodeUri);
    }
  }

  /** With no request current, network events change nothing: once a request
      has ended, failed or been aborted, nothing it delivers later counts. */
  lemma {:induction false} IdleIgnoresDeliveries(s: State, ds: seq<Delivery>, decode: string -> Frame,
                                                decodeUri: string -> Option<string>)
    requires s.call.Idle?
    ensures DeliverAll(s, ds, decode, decodeUri) == s
    decreases |ds|
  {
    if ds != [] {
      assert Deliver(s, ds[0], decode, decodeUri) == s;
      IdleIgnoresDeliveries(s, ds[1..], decode, decodeUri);
    }
  }

  /** Between two user events at most one call is logged, at the front of the
      log, and the rest of the log stays as it was. */
  lemma {:induction false} AtMostOneLogEntry(s: State, ds: seq<Delivery>, decode: string -> Frame,
                                            decodeUri: string -> Option<string>)
    ensures var t := DeliverAll(s, ds, decode, decodeUri);
      t.log == s.log || (|t.log| == |s.log| + 1 && t.log[1..] == s.log && t.call.Idle?)
    decreases |ds|
  {
    if ds != [] {
      var u := Deliver(s, ds[0], decode, decodeUri);
      if u.log == s.log {
        AtMostOneLogEntry(u, ds[1..], decode, decodeUri);
      } else {
        assert u.log == [LogEntry(s.call.data, s.call.response)] + s.log && u.call.Idle?;
        IdleIgnoresDeliveries(u, ds[1..], decode, decodeUri);
      }
    }
  }

  /** A response that is not ok, has no body or carries a system-prompt
      header that cannot be decoded shows the error text in place of the
      element's text and ends the call: that request is never logged. */
  lemma RejectedResponseIsNeverLogged(s: State, ok: bool, hasBody: bool, header: Option<string>,
                                      ds: seq<Delivery>, decode: string -> Frame,
                                      decodeUri: string -> Option<string>)
    requires Inv(s) && s.call.Awaiting?
    requires !ok || !hasBody || SystemPrompt(header, decodeUri).None?
    ensures var t := AfterResponse(s, s.generation, ok, hasBody, header, decodeUri);
      && t.suggestion == Some(s.suggestion.value.(text := ErrorText))
      && DeliverAll(t, ds, decode, decodeUri).log == s.log
  {
    IdleIgnoresDeliveries(AfterResponse(s, s.generation, ok, hasBody, header, decodeUri), ds, decode, decodeUri);
  }

  /** A failure of the fetch or of a read, other than an abort, shows the
      error text and ends the call: that request is never logged. */
  lemma FailedRequestIsNeverLogged(s: State, ds: seq<Delivery>, decode: string -> Frame,
                                   decodeUri: string -> Option<string>)
    requires Inv(s) && !s.call.Idle?
    ensures var t := AfterFailure(s, s.generation);
      && t.suggestion == Some(s.suggestion.value.(text := ErrorText))
      && DeliverAll(t, ds, decode, decodeUri).log == s.log
  {
    IdleIgnoresDeliveries(AfterFailure(s, s.generation), ds, decode, decodeUri);
  }

  // ---------------------------------------------------------------------
  // Reading a body chunk by chunk
  // ---------------------------------------------------------------------

  /** The chunk events of a body, in order, under one generation. */
  function ChunkDeliveries(gen: nat, chunks: seq<string>): (ds: seq<Delivery>)
    ensures |ds| == |chunks|
    ensures forall i | 0 <= i < |ds| :: ds[i] == Chunk(gen, chunks[i])
    decreases |chunks|
  {
    if chunks == [] then []
    else ChunkDeliveries(gen, chunks[..|chunks| - 1]) + [Chunk(gen, chunks[|chunks| - 1])]
  }

  /** Absorbing a grown accumulator after another is absorbing it at once. */
  lemma AbsorbTwice(s: State, p: Progress, q: Progress, x: string, y: string)
    requires s.call.Reading?
    requires p.text == s.call.response + x && q.text == p.text + y
    ensures Absorb(Absorb(s, p), q) == Absorb(s, q)
  {
    if q.text == s.call.response {
      assert |x| + |y| == 0;
    }
  }

  /** Feeding lines only appends to the response. */
  lemma FeedGrows(p: Progress, lines: seq<string>, ev: string -> Option<Event>)
    ensures Feed(p, lines, ev).text == p.text + TextOf(Events(lines, ev))
  {
    FeedIsEvents(p, lines, ev);
  }

  /** The chunks of the current body, delivered in order, leave the state the
      read loop's accumulator over all of them describes. */
  lemma {:induction false} ReadingChunks(s: State, chunks: seq<string>, decode: string -> Frame,
                                        decodeUri: string -> Option<string>)
    requires s.call.Reading?
    ensures var p := Progress(s.call.response, s.call.data.usage);
      DeliverAll(s, ChunkDeliveries(s.generation, chunks), decode, decodeUri)
        == Absorb(s, FeedChunks(p, chunks, Classify(decode)))
    decreases |chunks|
  {
    var p := Progress(s.call.response, s.call.data.usage);
    var ev := Classify(decode);
    if chunks == [] {
      assert Absorb(s, p) == s;
    } else {
      var front := chunks[..|chunks| - 1];
      var c := chunks[|chunks| - 1];
      var g := s.generation;
      ReadingChunks(s, front, decode, decodeUri);
      DeliverAllAppend(s, ChunkDeliveries(g, front), [Chunk(g, c)], decode, decodeUri);
      var q := FeedChunks(p, front, ev);
      var u := Absorb(s, q);
      assert DeliverAll(s, ChunkDeliveries(g, chunks), decode, decodeUri) == AfterChunk(u, g, c, decode);
      assert Progress(u.call.response, u.call.data.usage) == q;
      var r := Feed(q, Split(c), ev);
      assert FeedChunks(p, chunks, ev) == r;
      ChunksAreLines(p, front, ev);
      FeedGrows(p, Lines(front), ev);
      FeedGrows(q, Split(c), ev);
      AbsorbTwice(s, q, r, TextOf(Events(Lines(front), ev)), TextOf(Events(Split(c), ev)));
    }
  }

  /** The state after the chunks: the response grew by the tokens of all
      the events of all of the chunks' lines, in order, the usage is the last
      one reported (or the one before), and the element shows the response
      once it has grown. */
  lemma ReadingAccumulates(s: State, chunks: seq<string>, decode: string -> Frame,
                           decodeUri: string -> Option<string>)
    requires s.call.Reading?
    ensures var es := Events(Lines(chunks), Classify(decode));
      var t := DeliverAll(s, ChunkDeliveries(s.generation, chunks), decode, decodeUri);
      && t.call == Reading(s.call.data.(usage := LastUsage(es, s.call.data.usage)), s.call.response + TextOf(es))
      && (TextOf(es) != [] ==> t.suggestion == Show(s.suggestion, t.call.response))
      && t.log == s.log
  {
    var p := Progress(s.call.response, s.call.data.usage);
    ReadingChunks(s, chunks, decode, decodeUri);
    ChunksAreLines(p, chunks, Classify(decode));
    FeedIsEvents(p, Lines(chunks), Classify(decode));
  }

  // ---------------------------------------------------------------------
  // A request from start to end
  // ---------------------------------------------------------------------

  /** A successful exchange under generation `g`: an ok response with a body
      and the system-prompt header `header`, the chunks of its body and the
      end of the stream. */
  function Exchange(g: nat, header: Option<string>, chunks: seq<string>): (ds: seq<Delivery>)
    ensures |ds| == |chunks| + 2
    ensures forall i | 0 <= i < |ds| :: ds[i].gen == g
  {
    [Response(g, true, true, header)] + ChunkDeliveries(g, chunks) + [End(g)]
  }

  /** A successful exchange for the current request, whose system-prompt
      header is absent, empty or decodable, logs one entry: its call data with
      the system prompt ("N/A", or the header URL-decoded), the last usage
      reported and, as output, the tokens of every event of the body in
      order. The call is then over. */
  lemma ExchangeIsLogged(u: State, header: Option<string>, chunks: seq<string>,
                         decode: string -> Frame, decodeUri: string -> Option<string>)
    requires u.call.Awaiting? && u.call.data.usage.None?
    requires SystemPrompt(header, decodeUri).Some?
    ensures var es := Events(Lines(chunks), Classify(decode));
      var t := DeliverAll(u, Exchange(u.generation, header, chunks), decode, decodeUri);
      && t.log == [LogEntry(u.call.data.(systemPrompt := SystemPrompt(header, decodeUri),
                                         usage := LastUsage(es, None)),
                            TextOf(es))] + u.log
      && t.call.Idle?
  {
    var g := u.generation;
    var prompt := SystemPrompt(header, decodeUri);
    var resp := [Response(g, true, true, header)];
    var cs := ChunkDeliveries(g, chunks);
    var r := AfterResponse(u, g, true, true, header, decodeUri);
    assert DeliverAll(u, resp, decode, decodeUri) == r;
    assert r.call == Reading(u.call.data.(systemPrompt := prompt), "");
    DeliverAllAppend(u, resp + cs, [End(g)], decode, decodeUri);
    DeliverAllAppend(u, resp, cs, decode, decodeUri);
    ReadingAccumulates(r, chunks, decode, decodeUri);
    StreamLeavesDocument(r, cs, decode, decodeUri);
    var v := DeliverAll(r, cs, decode, decodeUri);
    var es := Events(Lines(chunks), Classify(decode));
    assert [] + TextOf(es) == TextOf(es);
    assert v.call == Reading(u.call.data.(systemPrompt := prompt, usage := LastUsage(es, None)),
                             TextOf(es));
    assert v.generation == g && v.log == u.log;
    assert Exchange(g, header, chunks) == resp + cs + [End(g)];
    assert DeliverAll(v, [End(g)], decode, decodeUri) == AfterEnd(v, g);
  }

  /** After a timer that sends a continuation, a successful exchange logs the
      continuation's payload and model, the system prompt the response
      carried and what the body delivered. */
  lemma FiredRequestIsLogged(s: State, now: int, large: bool, header: Option<string>, chunks: seq<string>,
                             decode: string -> Frame, decodeUri: string -> Option<string>)
    requires !Suppressed(s.area.value, s.locked)
    requires SystemPrompt(header, decodeUri).Some?
    ensures var es := Events(Lines(chunks), Classify(decode));
      var t := DeliverAll(AfterFire(s, now, large), Exchange(s.generation, header, chunks), decode, decodeUri);
      && t.log == [LogEntry(CallData(now, ContinuationInput(s), ModelName(large), SystemPrompt(header, decodeUri),
                                     LastUsage(es, None)), TextOf(es))] + s.log
      && t.call.Idle?
  {
    FireSteps(s, now, large);
    ExchangeIsLogged(AfterFire(s, now, large), header, chunks, decode, decodeUri);
  }

  // ---------------------------------------------------------------------
  // User events abort
  // ---------------------------------------------------------------------

  /** A continuation sent by the timer and superseded by an edit is never
      heard from again, not even once the next timer has sent another. */
  lemma EditOrphansRequest(s: State, now: int, large: bool, value: string, cursor: nat,
                           now': int, large': bool, ds: seq<Delivery>,
                           decode: string -> Frame, decodeUri: string -> Option<string>)
    requires FireRequest(s, large).Some?
    requires forall i | 0 <= i < |ds| :: ds[i].gen == FireRequest(s, large).value.generation
    ensures var t := AfterFire(AfterEdit(AfterFire(s, now, large), value, cursor), now', large');
      DeliverAll(t, ds, decode, decodeUri) == t
  {
    var t := AfterFire(AfterEdit(AfterFire(s, now, large), value, cursor), now', large');
    StaleDeliveriesChangeNothing(t, ds, decode, decodeUri);
  }

  /** A quick action aborts the current request as well: its events change
      nothing, even while the quick action's own request is current. */
  lemma QuickActionOrphansRequest(s: State, action: string, now: int, large: bool, ds: seq<Delivery>,
                                  decode: string -> Frame, decodeUri: string -> Option<string>)
    requires Trim(s.area.value) != []
    requires forall i | 0 <= i < |ds| :: ds[i].gen == s.generation
    ensures var t := AfterQuickAction(s, action, now, large);
      t.call.Awaiting? && DeliverAll(t, ds, decode, decodeUri) == t
  {
    StaleDeliveriesChangeNothing(AfterQuickAction(s, action, now, large), ds, decode, decodeUri);
  }

  /** Accepting aborts the current request: nothing it delivers afterwards
      changes the state. */
  lemma AcceptOrphansRequest(s: State, ds: seq<Delivery>, decode: string -> Frame,
                             decodeUri: string -> Option<string>)
    requires s.suggestion.Some? && Acceptable(s.suggestion.value.text)
    requires forall i | 0 <= i < |ds| :: ds[i].gen <= s.generation
    ensures var t := AfterAccept(s);
      t.generation > s.generation && DeliverAll(t, ds, decode, decodeUri) == t
  {
    StaleDeliveriesChangeNothing(AfterAccept(s), ds, decode, decodeUri);
  }

  // ---------------------------------------------------------------------
  // The timer as written
  // ---------------------------------------------------------------------

  /** As written, a timer that should send a continuation leaves the loading
      marker in a fresh `append` element and no request current, so no
      network event ever replaces the marker. */
  lemma {:induction false} FireAsWrittenStalls(s: State, ds: seq<Delivery>, decode: string -> Frame,
                                              decodeUri: string -> Option<string>)
    requires Inv(s) && s.timerArmed && !Suppressed(s.area.value, s.locked)
    ensures var t := AfterFireAsWritten(s);
      && t.suggestion == Some(Suggestion(Append, LoadingMarker)) && t.call.Idle?
      && DeliverAll(t, ds, decode, decodeUri) == t
  {
    IdleIgnoresDeliveries(AfterFireAsWritten(s), ds, decode, decodeUri);
  }

  /** Typing "Hi" into the empty page and letting the timer fire: as written
      the element shows "..." and nothing is sent; the corrected timer sends
      the lock "" with the active text "Hi" under generation 1. */
  lemma FireAsWrittenExample()
    ensures var s := AfterEdit(Initial, "Hi", 2);
      && Inv(s) && s.timerArmed && !Suppressed(s.area.value, s.locked)
      && AfterFireAsWritten(s).suggestion == Some(Suggestion(Append, LoadingMarker))
      && AfterFireAsWritten(s).call.Idle?
      && FireRequest(s, false) == Some(Request(1, Continuation("", "Hi"), "gpt-4o-mini"))
  {
    var s := AfterEdit(Initial, "Hi", 2);
    assert s.locked == [];
    assert Drop("Hi", 0) == "Hi";
    assert Trimmed("Hi");
    TrimOfTrimmed("Hi");
  }

  // ---------------------------------------------------------------------
  // What accept can lock
  // ---------------------------------------------------------------------

  /** Accept takes whatever the element shows: right after the timer fires,
      the loading marker itself is appended to a non-empty lock. */
  lemma LoadingMarkerCanBeLocked(s: State, now: int, large: bool)
    requires s.locked != [] && Trimmed(s.locked) && !Suppressed(s.area.value, s.locked)
    ensures AfterAccept(AfterFire(s, now, large)).locked == s.locked + Separator + LoadingMarker
  {
    TrimOfTrimmed(LoadingMarker);
    AcceptAppendTrimmed(s.locked, LoadingMarker);
  }

  /** A failed continuation leaves the error text in the element, and accept
      appends it to the lock like any suggestion. */
  lemma ErrorTextCanBeLocked(s: State, gen: nat)
    requires Inv(s) && !s.call.Idle? && gen == s.generation
    requires s.locked != [] && s.suggestion.value.tag == Append
    ensures AfterAccept(AfterFailure(s, gen)).locked == s.locked + Separator + ErrorText
  {
    TrimOfTrimmed(ErrorText);
    AcceptAppendTrimmed(s.locked, ErrorText);
  }

  /** Accepting while a quick action is pending replaces the whole document
      by its placeholder text. */
  lemma PlaceholderCanBeLocked(s: State, action: string, now: int, large: bool)
    requires Trim(s.area.value) != []
    ensures var t := AfterAccept(AfterQuickAction(s, action, now, large));
      t.locked == RewritingText(action) && t.area.value == RewritingText(action) + Separator
  {
    var t := RewritingText(action);
    assert t[0] == 'R' && t[|t| - 1] == '.';
    TrimOfTrimmed(t);
    AcceptRewriteReplaces(Trim(s.area.value), t);
  }
}
