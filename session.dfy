/**
 * The assistant's session: the state script.js keeps in module-level
 * variables and in the page (the text area's value and cursor, the lock, the
 * locked view, the one active suggestion element, the debounce timer, the
 * abort controller, the current call and the call log).
 *
 * Each event is a function from the state before to the state after; the
 * class `Session` holds the same state in fields and runs each event in place,
 * proved against its function.
 *
 * The abort controller is a generation counter: a request carries the
 * generation it was issued under, and every operation that aborts the
 * controller moves to a new generation. An aborted fetch or read rejects with
 * an AbortError, which the handlers ignore; here every stream event names its
 * generation, and an event of another generation changes nothing.
 */
module Session {
  import opened Wrappers
  import opened Text
  import opened Lock
  import opened Stream

  /** What a request carries besides the model name: the lock and the active
      text of a continuation, or the whole document and the action of a quick
      action. */
  datatype Input =
    | Continuation(lockedText: string, activeText: string)
    | QuickAction(fullText: string, action: string)

  /** A request to the completion service, issued under a generation. */
  datatype Request = Request(generation: nat, input: Input, model: string)

  /** `currentCallData`: what the log entry of the current request will hold. */
  datatype CallData = CallData(timestamp: int, input: Input, model: string,
                               systemPrompt: Option<string>, usage: Option<Usage>)

  /** An entry of `apiCallLog`: the call data and the response text. */
  datatype LogEntry = LogEntry(call: CallData, output: string)

  /** The active suggestion element: its `actionType` and its text. */
  datatype Suggestion = Suggestion(tag: Tag, text: string)

  /** The text area: its value and the cursor position. */
  datatype Area = Area(value: string, cursor: nat)

  /** The current request: none, waiting for the response, or reading the
      body, with the call data and `fullResponse` so far. */
  datatype Call =
    | Idle
    | Awaiting(data: CallData)
    | Reading(data: CallData, response: string)

  /** The whole session state at one moment. */
  datatype State = State(
    area: Area, locked: string, view: seq<string>, suggestion: Option<Suggestion>,
    timerArmed: bool, generation: nat, call: Call, log: seq<LogEntry>)

  const LoadingMarker: string := "..."
  const ErrorText: string := "Error connecting to the assistant."
  const NoSystemPrompt: string := "N/A"

  /** The page as loaded: empty text area and lock, nothing shown, nothing logged. */
  const Initial: State := State(Area("", 0), "", [], None, false, 0, Idle, [])

  /** The model switch: the large model when checked. */
  function ModelName(large: bool): (m: string)
    ensures m == "gpt-4o" || m == "gpt-4o-mini"
    ensures large <==> m == "gpt-4o"
  {
    if large then "gpt-4o" else "gpt-4o-mini"
  }

  /** The placeholder of a quick-action suggestion: it quotes the action. */
  function RewritingText(action: string): (t: string)
    ensures |t| == |action| + 21
    ensures t[17..17 + |action|] == action
  {
    var t := "Rewriting to be \"" + action + "\"...";
    assert t[17..17 + |action|] == action;
    t
  }

  /** The system prompt of a response: "N/A" when the header is absent or
      empty, otherwise the header URL-decoded; `None` when the header cannot
      be decoded (a URIError, which fails the request). */
  function SystemPrompt(header: Option<string>, decodeUri: string -> Option<string>): (r: Option<string>)
    ensures header.None? || header == Some("") ==> r == Some(NoSystemPrompt)
    ensures header.Some? && header.value != "" ==> r == decodeUri(header.value)
  {
    match header
    case None => Some(NoSystemPrompt)
    case Some(h) => if h == "" then Some(NoSystemPrompt) else decodeUri(h)
  }

  /** The lock is trimmed and no longer than the document, the cursor lies in
      the document, a pending timer means no request is current, a current
      request has a suggestion element, and once its body yields text the
      element shows that text. */
  predicate Inv(s: State) {
    && Trimmed(s.locked)
    && |s.locked| <= |s.area.value|
    && s.area.cursor <= |s.area.value|
    && (s.timerArmed ==> s.call.Idle?)
    && (!s.call.Idle? ==> s.suggestion.Some?)
    && (s.call.Reading? && s.call.response != [] ==> s.suggestion.value.text == s.call.response)
  }

  // ---------------------------------------------------------------------
  // User events
  // ---------------------------------------------------------------------

  /** handleUserInput: move the lock boundary by the edit rule, abort the
      current request and restart the debounce timer. The suggestion element
      stays as it is. */
  function AfterEdit(s: State, value: string, cursor: nat): State {
    s.(area := Area(value, cursor), locked := EditedLock(value, s.locked, cursor),
       timerArmed := true, generation := s.generation + 1, call := Idle)
  }

  /** The payload of a continuation: the lock and the active text. */
  function ContinuationInput(s: State): Input {
    Continuation(s.locked, ActiveText(s.area.value, s.locked))
  }

  /** triggerAI: render the lock; when the active text is empty and the lock
      is not, the suggestion is gone and nothing is sent; otherwise a fresh
      `append` suggestion shows the loading marker and a continuation request
      becomes current. */
  function AfterFire(s: State, now: int, large: bool): State {
    var view := Paragraphs(s.locked);
    if Suppressed(s.area.value, s.locked) then
      s.(view := view, suggestion := None, timerArmed := false)
    else
      s.(view := view, suggestion := Some(Suggestion(Append, LoadingMarker)), timerArmed := false,
         call := Awaiting(CallData(now, ContinuationInput(s), ModelName(large), None, None)))
  }

  /** The request triggerAI sends, under the current generation. */
  function FireRequest(s: State, large: bool): Option<Request> {
    if Suppressed(s.area.value, s.locked) then None
    else Some(Request(s.generation, ContinuationInput(s), ModelName(large)))
  }

  /** triggerAI as written: the payload names an identifier that is never
      declared, so building it throws before the request is sent; the page is
      left with the loading marker and no request. */
  function AfterFireAsWritten(s: State): State {
    var view := Paragraphs(s.locked);
    if Suppressed(s.area.value, s.locked) then
      s.(view := view, suggestion := None, timerArmed := false)
    else
      s.(view := view, suggestion := Some(Suggestion(Append, LoadingMarker)), timerArmed := false)
  }

  /** acceptAISuggestion: nothing unless a suggestion with some non-whitespace
      text is shown; otherwise abort, merge the suggestion by its tag, set the
      document to the merged text and a separator with the cursor at its end,
      lock the merged text trimmed, render the lock and remove the suggestion. */
  function AfterAccept(s: State): State {
    match s.suggestion
    case None => s
    case Some(sg) =>
      if !Acceptable(sg.text) then s
      else
        var m := MergedText(sg.tag, s.locked, sg.text);
        var lock := AcceptedLock(sg.tag, s.locked, sg.text);
        s.(area := Area(m + Separator, |m| + 2), locked := lock, view := Paragraphs(lock),
           suggestion := None, timerArmed := false, generation := s.generation + 1, call := Idle)
  }

  /** handleQuickActionClick: nothing when the document is blank (the user is
      alerted instead); otherwise abort, lock the whole document trimmed,
      render it, show a `rewrite` suggestion naming the action and make a
      quick-action request current under the new generation. */
  function AfterQuickAction(s: State, action: string, now: int, large: bool): State {
    var lock := Trim(s.area.value);
    if lock == [] then s
    else
      s.(locked := lock, view := Paragraphs(lock),
         suggestion := Some(Suggestion(Rewrite, RewritingText(action))),
         timerArmed := false, generation := s.generation + 1,
         call := Awaiting(CallData(now, QuickAction(s.area.value, action), ModelName(large), None, None)))
  }

  /** The request a quick action sends. */
  function QuickActionRequest(s: State, action: string, large: bool): Option<Request> {
    if Trim(s.area.value) == [] then None
    else Some(Request(s.generation + 1, QuickAction(s.area.value, action), ModelName(large)))
  }

  // ---------------------------------------------------------------------
  // Stream events
  // ---------------------------------------------------------------------

  /** The suggestion element showing `text` instead. */
  function Show(sg: Option<Suggestion>, text: string): Option<Suggestion> {
    match sg
    case None => None
    case Some(x) => Some(x.(text := text))
  }

  /** A request fails: the element shows the error text; nothing is logged. */
  function Failed(s: State): State {
    s.(suggestion := Show(s.suggestion, ErrorText), call := Idle)
  }

  /** The response of generation `gen` arrives. A response that is not ok, has
      no body or carries a system-prompt header that cannot be decoded fails
      the request; otherwise the system prompt is recorded and the body is
      read. */
  function AfterResponse(s: State, gen: nat, ok: bool, hasBody: bool, header: Option<string>,
                         decodeUri: string -> Option<string>): State {
    if gen != s.generation || !s.call.Awaiting? then s
    else
      var prompt := SystemPrompt(header, decodeUri);
      if ok && hasBody && prompt.Some? then
        s.(call := Reading(s.call.data.(systemPrompt := prompt), ""))
      else Failed(s)
  }

  /** The state once the accumulator of the current body reads `q`: the
      response and the usage, shown in the element when the text grew. */
  function Absorb(s: State, q: Progress): State
    requires s.call.Reading?
  {
    s.(call := Reading(s.call.data.(usage := q.usage), q.text),
       suggestion := if q.text == s.call.response then s.suggestion else Show(s.suggestion, q.text))
  }

  /** A read of the body of generation `gen` delivers a chunk: its lines, in
      order, grow the response and record any usage reported. */
  function AfterChunk(s: State, gen: nat, chunk: string, decode: string -> Frame): State {
    if gen != s.generation || !s.call.Reading? then s
    else Absorb(s, Feed(Progress(s.call.response, s.call.data.usage), Split(chunk), Classify(decode)))
  }

  /** The body of generation `gen` ends: the call is logged, newest first,
      with the response as its output, and the call data is cleared. */
  function AfterEnd(s: State, gen: nat): State {
    if gen != s.generation || !s.call.Reading? then s
    else s.(log := [LogEntry(s.call.data, s.call.response)] + s.log, call := Idle)
  }

  /** The fetch or a read of generation `gen` fails for a reason other than an
      abort. */
  function AfterFailure(s: State, gen: nat): State {
    if gen != s.generation || s.call.Idle? then s else Failed(s)
  }

  /** One event of a request's network activity, naming its generation. */
  datatype Delivery =
    | Response(gen: nat, ok: bool, hasBody: bool, header: Option<string>)
    | Chunk(gen: nat, chunk: string)
    | End(gen: nat)
    | Failure(gen: nat)

  function Deliver(s: State, d: Delivery, decode: string -> Frame,
                   decodeUri: string -> Option<string>): State {
    match d
    case Response(g, ok, hasBody, header) => AfterResponse(s, g, ok, hasBody, header, decodeUri)
    case Chunk(g, chunk) => AfterChunk(s, g, chunk, decode)
    case End(g) => AfterEnd(s, g)
    case Failure(g) => AfterFailure(s, g)
  }

  function DeliverAll(s: State, ds: seq<Delivery>, decode: string -> Frame,
                      decodeUri: string -> Option<string>): State
    decreases |ds|
  {
    if ds == [] then s else DeliverAll(Deliver(s, ds[0], decode, decodeUri), ds[1..], decode, decodeUri)
  }

  class Session {
    var area: Area
    /** `lockedTextState`. */
    var locked: string
    /** The paragraphs the locked view shows, as last rendered. */
    var view: seq<string>
    var suggestion: Option<Suggestion>
    /** Whether a debounce timer is pending. */
    var timerArmed: bool
    /** The abort controller's generation. */
    var generation: nat
    var call: Call
    /** `apiCallLog`, newest entry first. */
    var log: seq<LogEntry>

    function Snap(): State
      reads this
    {
      State(area, locked, view, suggestion, timerArmed, generation, call, log)
    }

    predicate Valid()
      reads this
    {
      Inv(Snap())
    }

    constructor ()
      ensures Valid() && Snap() == Initial
    {
      area, locked, view, suggestion := Area("", 0), "", [], None;
      timerArmed, generation, call, log := false, 0, Idle, [];
    }

    method OnEdit(value: string, cursor: nat)
      requires Valid() && cursor <= |value|
      modifies this
      ensures Valid() && Snap() == AfterEdit(old(Snap()), value, cursor)
    {
      EditKeepsInv(Snap(), value, cursor);
      locked := EditedLock(value, locked, cursor);
      area := Area(value, cursor);
      generation := generation + 1;
      call := Idle;
      timerArmed := true;
    }

    method OnDebounceFire(now: int, large: bool) returns (req: Option<Request>)
      requires Valid() && timerArmed
      modifies this
      ensures Valid() && Snap() == AfterFire(old(Snap()), now, large)
      ensures req == FireRequest(old(Snap()), large)
    {
      ghost var s := Snap();
      FireKeepsInv(s, now, large);
      var rendered := Paragraphs(locked);
      var active := ActiveText(area.value, locked);
      timerArmed := false;
      view := rendered;
      suggestion := None;
      if active == [] && locked != [] {
        FireSteps(s, now, large);
        assert Snap() == s.(view := rendered, suggestion := None, timerArmed := false);
        return None;
      }
      var input := Continuation(locked, active);
      var model := ModelName(large);
      suggestion := Some(Suggestion(Append, LoadingMarker));
      call := Awaiting(CallData(now, input, model, None, None));
      req := Some(Request(generation, input, model));
      FireSteps(s, now, large);
      assert Snap() == s.(view := rendered, suggestion := Some(Suggestion(Append, LoadingMarker)),
                          timerArmed := false, call := Awaiting(CallData(now, input, model, None, None)));
    }

    method OnAccept()
      requires Valid()
      modifies this
      ensures Valid() && Snap() == AfterAccept(old(Snap()))
    {
      ghost var s := Snap();
      AcceptKeepsInv(s);
      if suggestion.None? || !Acceptable(suggestion.value.text) {
        AcceptIgnored(s);
        return;
      }
      var sg := suggestion.value;
      var merged := MergedText(sg.tag, locked, sg.text);
      var value := merged + Separator;
      var lock := Trim(merged);
      var rendered := Paragraphs(lock);
      AcceptMerges(s, merged);
      generation := generation + 1;
      call := Idle;
      timerArmed := false;
      area := Area(value, |value|);
      locked := lock;
      view := rendered;
      suggestion := None;
      assert Snap() == s.(area := Area(value, |value|), locked := lock, view := rendered, suggestion := None,
                          timerArmed := false, generation := s.generation + 1, call := Idle);
    }

    method OnQuickAction(action: string, now: int, large: bool) returns (req: Option<Request>)
      requires Valid()
      modifies this
      ensures Valid() && Snap() == AfterQuickAction(old(Snap()), action, now, large)
      ensures req == QuickActionRequest(old(Snap()), action, large)
    {
      ghost var s := Snap();
      QuickActionKeepsInv(s, action, now, large);
      QuickActionSteps(s, action, now, large);
      var fullText := area.value;
      if Trim(fullText) == [] {
        return None;
      }
      generation := generation + 1;
      timerArmed := false;
      var lock := Trim(fullText);
      var rendered := Paragraphs(lock);
      var placeholder := Suggestion(Rewrite, RewritingText(action));
      var input := QuickAction(fullText, action);
      var model := ModelName(large);
      locked := lock;
      view := rendered;
      suggestion := Some(placeholder);
      call := Awaiting(CallData(now, input, model, None, None));
      req := Some(Request(generation, input, model));
      assert Snap() == s.(locked := lock, view := rendered, suggestion := Some(placeholder),
                          timerArmed := false, generation := s.generation + 1,
                          call := Awaiting(CallData(now, input, model, None, None)));
    }

    method OnResponse(gen: nat, ok: bool, hasBody: bool, header: Option<string>,
                      decodeUri: string -> Option<string>)
      requires Valid()
      modifies this
      ensures Valid() && Snap() == AfterResponse(old(Snap()), gen, ok, hasBody, header, decodeUri)
    {
      if gen != generation || !call.Awaiting? {
        return;
      }
      var prompt := SystemPrompt(header, decodeUri);
      if ok && hasBody && prompt.Some? {
        call := Reading(call.data.(systemPrompt := prompt), "");
      } else {
        suggestion := Some(suggestion.value.(text := ErrorText));
        call := Idle;
      }
    }

    method OnChunk(gen: nat, chunk: string, decode: string -> Frame)
      requires Valid()
      modifies this
      ensures Valid() && Snap() == AfterChunk(old(Snap()), gen, chunk, decode)
    {
      if gen != generation || !call.Reading? {
        return;
      }
      var lines := Split(chunk);
      var start := Progress(call.response, call.data.usage);
      var i := 0;
      while i < |lines|
        invariant 0 <= i <= |lines|
        invariant call.Reading? && suggestion.Some?
        invariant Progress(call.response, call.data.usage) == Feed(start, lines[..i], Classify(decode))
        invariant Snap() == Absorb(old(Snap()), Feed(start, lines[..i], Classify(decode)))
      {
        ClassifyApplies(decode, lines[i]);
        assert lines[..i + 1][..i] == lines[..i];
        match EventOf(lines[i], decode) {
          case Some(TextDelta(t)) =>
            var response := call.response + t;
            call := Reading(call.data, response);
            suggestion := Some(suggestion.value.(text := response));
          case Some(UsageFinal(u)) =>
            call := Reading(call.data.(usage := Some(u)), call.response);
          case None =>
        }
        i := i + 1;
      }
      assert lines[..i] == lines;
    }

    method OnStreamEnd(gen: nat)
      requires Valid()
      modifies this
      ensures Valid() && Snap() == AfterEnd(old(Snap()), gen)
    {
      if gen != generation || !call.Reading? {
        return;
      }
      log := [LogEntry(call.data, call.response)] + log;
      call := Idle;
    }

    method OnFailure(gen: nat)
      requires Valid()
      modifies this
      ensures Valid() && Snap() == AfterFailure(old(Snap()), gen)
    {
      if gen != generation || call.Idle? {
        return;
      }
      suggestion := Some(suggestion.value.(text := ErrorText));
      call := Idle;
    }
  }

  // ---------------------------------------------------------------------
  // The invariant
  // ---------------------------------------------------------------------

  lemma EditKeepsInv(s: State, value: string, cursor: nat)
    requires Inv(s) && cursor <= |value|
    ensures Inv(AfterEdit(s, value, cursor))
  {
  }

  /** The two outcomes of the timer, as updates of the state. */
  lemma FireSteps(s: State, now: int, large: bool)
    ensures Suppressed(s.area.value, s.locked) ==>
      && AfterFire(s, now, large) == s.(view := Paragraphs(s.locked), suggestion := None, timerArmed := false)
      && FireRequest(s, large) == None
    ensures !Suppressed(s.area.value, s.locked) ==>
      var input := Continuation(s.locked, ActiveText(s.area.value, s.locked));
      && AfterFire(s, now, large) == s.(view := Paragraphs(s.locked), suggestion := Some(Suggestion(Append, LoadingMarker)),
           timerArmed := false, call := Awaiting(CallData(now, input, ModelName(large), None, None)))
      && FireRequest(s, large) == Some(Request(s.generation, input, ModelName(large)))
  {
  }

  lemma FireKeepsInv(s: State, now: int, large: bool)
    requires Inv(s) && s.timerArmed
    ensures Inv(AfterFire(s, now, large))
  {
  }

  /** An accept without an acceptable suggestion changes nothing. */
  lemma AcceptIgnored(s: State)
    requires s.suggestion.None? || !Acceptable(s.suggestion.value.text)
    ensures AfterAccept(s) == s
  {
  }

  /** An accept of an acceptable suggestion, as an update of the state. */
  lemma AcceptMerges(s: State, m: string)
    requires s.suggestion.Some? && Acceptable(s.suggestion.value.text)
    requires m == MergedText(s.suggestion.value.tag, s.locked, s.suggestion.value.text)
    ensures AfterAccept(s) == s.(area := Area(m + Separator, |m + Separator|), locked := Trim(m),
        view := Paragraphs(Trim(m)), suggestion := None, timerArmed := false,
        generation := s.generation + 1, call := Idle)
  {
  }

  lemma AcceptKeepsInv(s: State)
    requires Inv(s)
    ensures Inv(AfterAccept(s))
  {
    if s.suggestion.Some? {
      AcceptedLockShape(s.suggestion.value.tag, s.locked, s.suggestion.value.text);
    }
  }

  /** The two outcomes of a quick action, as updates of the state. */
  lemma QuickActionSteps(s: State, action: string, now: int, large: bool)
    ensures Trim(s.area.value) == [] ==>
      AfterQuickAction(s, action, now, large) == s && QuickActionRequest(s, action, large) == None
    ensures Trim(s.area.value) != [] ==>
      var input := QuickAction(s.area.value, action);
      && AfterQuickAction(s, action, now, large) == s.(locked := Trim(s.area.value),
           view := Paragraphs(Trim(s.area.value)), suggestion := Some(Suggestion(Rewrite, RewritingText(action))),
           timerArmed := false, generation := s.generation + 1,
           call := Awaiting(CallData(now, input, ModelName(large), None, None)))
      && QuickActionRequest(s, action, large) == Some(Request(s.generation + 1, input, ModelName(large)))
  {
  }

  lemma QuickActionKeepsInv(s: State, action: string, now: int, large: bool)
    requires Inv(s)
    ensures Inv(AfterQuickAction(s, action, now, large))
  {
  }

  // ---------------------------------------------------------------------
  // What each user event achieves
  // ---------------------------------------------------------------------

  /** The timer sends a continuation exactly when the lock is empty or some
      non-whitespace text follows it. A continuation is sent under the current
      generation, carries the lock and the text after it, becomes the current
      call and is announced by an `append` suggestion showing the loading
      marker; otherwise the suggestion is gone and the call stays as it was.
      Either way the document, the lock, the generation and the log stay, the
      view shows the lock's paragraphs and no timer is pending. */
  lemma FireOutcome(s: State, now: int, large: bool)
    ensures var t := AfterFire(s, now, large);
      && (FireRequest(s, large).Some? <==> s.locked == [] || !AllSpace(Drop(s.area.value, |s.locked|)))
      && t.area == s.area && t.locked == s.locked && t.generation == s.generation && t.log == s.log
      && t.view == Paragraphs(s.locked) && !t.timerArmed
    ensures var t := AfterFire(s, now, large);
      FireRequest(s, large).Some? ==>
        var r := FireRequest(s, large).value;
        && r.generation == t.generation
        && r.input == Continuation(s.locked, ActiveText(s.area.value, s.locked))
        && t.call.Awaiting? && t.call.data.input == r.input && t.call.data.model == r.model
        && t.suggestion == Some(Suggestion(Append, LoadingMarker))
    ensures var t := AfterFire(s, now, large);
      FireRequest(s, large).None? ==> t.suggestion.None? && t.call == s.call
  {
    SuppressedIff(s.area.value, s.locked);
  }

  /** Accepting an acceptable suggestion leaves the document ending in the
      suggestion's text and a separator, with the cursor at its end; after an
      append the old lock still starts the document. The new lock is trimmed
      and not empty and the view shows its paragraphs; the suggestion, the
      timer and the current call are gone under a newer generation, and the
      log is untouched. */
  lemma AcceptOutcome(s: State)
    requires s.suggestion.Some? && Acceptable(s.suggestion.value.text)
    ensures var t := AfterAccept(s); var text := s.suggestion.value.text;
      && |t.area.value| >= |text| + 2
      && t.area.value[|t.area.value| - 2..] == Separator
      && t.area.value[|t.area.value| - 2 - |text|..|t.area.value| - 2] == text
      && t.area.cursor == |t.area.value|
      && (s.suggestion.value.tag == Append ==> s.locked <= t.area.value)
    ensures var t := AfterAccept(s);
      && Trimmed(t.locked) && t.locked != [] && t.view == Paragraphs(t.locked)
      && t.suggestion.None? && !t.timerArmed && t.call.Idle?
      && t.generation > s.generation && t.log == s.log
  {
    var sg := s.suggestion.value;
    var m := MergedText(sg.tag, s.locked, sg.text);
    AcceptMerges(s, m);
    AcceptedLockShape(sg.tag, s.locked, sg.text);
    var v := m + Separator;
    assert v[|v| - 2..] == Separator;
    assert v[|v| - 2 - |sg.text|..|v| - 2] == sg.text;
  }

  /** A quick action on a blank document changes nothing and sends nothing.
      Otherwise the document is left as it is, its trimmed text becomes the
      (non-empty) lock, a `rewrite` suggestion is shown, and the request that
      becomes current carries the whole document and the action under the
      newer generation the state moves to; the log is untouched. */
  lemma QuickActionOutcome(s: State, action: string, now: int, large: bool)
    ensures AllSpace(s.area.value) ==>
      AfterQuickAction(s, action, now, large) == s && QuickActionRequest(s, action, large).None?
    ensures var t := AfterQuickAction(s, action, now, large);
      !AllSpace(s.area.value) ==>
        && t.area == s.area && t.locked == Trim(s.area.value) && Trimmed(t.locked) && t.locked != []
        && t.view == Paragraphs(t.locked) && t.generation > s.generation && t.log == s.log
        && t.suggestion == Some(Suggestion(Rewrite, RewritingText(action))) && !t.timerArmed
    ensures var t := AfterQuickAction(s, action, now, large);
      !AllSpace(s.area.value) ==>
        var r := QuickActionRequest(s, action, large);
        && r.Some? && r.value.generation == t.generation
        && r.value.input == QuickAction(s.area.value, action)
        && t.call.Awaiting? && t.call.data.input == r.value.input && t.call.data.model == r.value.model
  {
    QuickActionSteps(s, action, now, large);
  }
}
