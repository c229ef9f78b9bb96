/**
 * The pure rules of the locked/active partition of the document, the
 * expression-only parts of script.js: where an edit moves the lock boundary
 * (handleUserInput), what the active text is and when no request is made
 * (triggerAI), how an accepted suggestion merges into the lock
 * (acceptAISuggestion), and which paragraphs the locked view shows
 * (renderLockedContent).
 */
module Lock {
  import opened Text

  /** How an accepted suggestion merges into the lock: `append` (continuation
      flow) grows it, `rewrite` (quick-action flow) replaces it. */
  datatype Tag = Append | Rewrite

  // ---------------------------------------------------------------------
  // Edits and the lock boundary (script.js:99-105)
  // ---------------------------------------------------------------------

  /** The index just after the last separator in `before`, or 0 when there is none. */
  function ParagraphStart(before: string): (p: nat)
    ensures p <= |before|
    ensures p == 0 || (p >= 2 && SepAt(before, p - 2))
    ensures forall j :: p - 2 < j < |before| ==> !SepAt(before, j)
  {
    var i := LastIndexOfSep(before);
    if i == -1 then 0 else i + 2
  }

  /** The lock after an edit at or before its end: the document up to the
      start of the paragraph holding the cursor, trimmed. */
  function TruncatedLock(doc: string, cursor: nat): (r: string)
    ensures Trimmed(r) && |r| <= cursor
    ensures NoSep(Prefix(doc, cursor)) ==> r == []
  {
    var before := Prefix(doc, cursor);
    var p := ParagraphStart(before);
    assert NoSep(before) ==> p == 0;
    assert doc[..p] == before[..p];
    Trim(doc[..p])
  }

  /** handleUserInput's rule: the lock survives an edit made after its end, or
      one that leaves the document equal to it; otherwise it is cut back. An
      edit never lengthens the lock. */
  function EditedLock(doc: string, lock: string, cursor: nat): (r: string)
    ensures cursor > |lock| || doc == lock ==> r == lock
    ensures cursor <= |lock| && doc != lock ==> Trimmed(r) && |r| <= cursor
    ensures |r| <= |lock|
  {
    if cursor <= |lock| && doc != lock then TruncatedLock(doc, cursor) else lock
  }

  /** An independent description of the truncated lock: if `p` is 0 or just
      after a separator, and no separator lies wholly between `p - 1` and the
      cursor, the lock is the document up to `p`, trimmed. */
  lemma TruncationAtParagraphStart(doc: string, cursor: nat, p: nat)
    requires cursor <= |doc| && p <= cursor
    requires p == 0 || (p >= 2 && SepAt(doc, p - 2))
    requires forall j :: p - 2 < j && j + 1 < cursor ==> !SepAt(doc, j)
    ensures TruncatedLock(doc, cursor) == Trim(doc[..p])
  {
    var before := doc[..cursor];
    var q := ParagraphStart(before);
    if q < p {
      assert SepAt(before, p - 2);
    } else if q > p {
      assert SepAt(doc, q - 2);
    }
  }

  /** With no separator before the cursor, an edit inside the lock empties it. */
  lemma EditWithoutSeparatorEmptiesLock(doc: string, lock: string, cursor: nat)
    requires cursor <= |lock| && doc != lock
    requires cursor <= |doc|
    requires forall j :: 0 <= j && j + 1 < cursor ==> !SepAt(doc, j)
    ensures EditedLock(doc, lock, cursor) == ""
  {
    TruncationAtParagraphStart(doc, cursor, 0);
  }

  /** When the document does not start with whitespace, the truncated lock is
      a prefix of the document, followed only by whitespace up to the start of
      the cursor's paragraph: the lock stays paragraph-aligned. */
  lemma TruncatedLockIsAlignedPrefix(doc: string, cursor: nat)
    requires doc == [] || !IsSpace(doc[0])
    ensures var p := ParagraphStart(Prefix(doc, cursor));
      var r := TruncatedLock(doc, cursor);
      |r| <= p && r == doc[..|r|] && AllSpace(doc[|r|..p])
  {
    var p := ParagraphStart(Prefix(doc, cursor));
    var d := doc[..p];
    assert TruncatedLock(doc, cursor) == Trim(d);
    assert d == [] || d[0] == doc[0];
    TrimOfNonSpaceStart(d);
  }

  /** Applying the edit rule again to its own result, with the same document
      and cursor, changes nothing. */
  lemma EditIdempotent(doc: string, lock: string, cursor: nat)
    ensures EditedLock(doc, EditedLock(doc, lock, cursor), cursor) == EditedLock(doc, lock, cursor)
  {
  }

  /** An edit after the first paragraph's separator, with no further
      separator up to the cursor, cuts the lock back to that first paragraph. */
  lemma EditAfterFirstParagraph(first: string, rest: string, lock: string, cursor: nat)
    requires first != [] && Trimmed(first)
    requires |first| + 2 <= cursor <= |lock|
    requires cursor <= |first| + 2 + |rest|
    requires first + Separator + rest != lock
    requires forall j :: |first| < j && j + 1 < cursor ==> !SepAt(first + Separator + rest, j)
    ensures EditedLock(first + Separator + rest, lock, cursor) == first
  {
    var doc := first + Separator + rest;
    TruncationAtParagraphStart(doc, cursor, |first| + 2);
    assert doc[..|first| + 2] == first + Separator;
    SeparatorIsSpace();
    TrimBeforeSpace(first, Separator);
  }

  /** The example of a lock of two paragraphs, edited inside the second:
      the lock falls back to the first paragraph. */
  lemma EditInsideSecondParagraph()
    ensures EditedLock("Para one.\n\nPara Xtwo.", "Para one.\n\nPara two.", 17) == "Para one."
  {
    var doc := "Para one.\n\nPara Xtwo.";
    assert doc == "Para one." + Separator + "Para Xtwo.";
    forall j | 9 < j && j + 1 < 17 ensures !SepAt(doc, j) {
      assert doc[j + 1] != '\n';
    }
    EditAfterFirstParagraph("Para one.", "Para Xtwo.", "Para one.\n\nPara two.", 17);
  }

  // ---------------------------------------------------------------------
  // Active text and request suppression (script.js:113-121)
  // ---------------------------------------------------------------------

  /** The active text: the document past the lock's length, trimmed. */
  function ActiveText(doc: string, lock: string): string {
    Trim(Drop(doc, |lock|))
  }

  /** The active text is trimmed, lies past the lock, and is empty exactly
      when the document holds only whitespace past the lock's length. */
  lemma ActiveTextShape(doc: string, lock: string)
    ensures Trimmed(ActiveText(doc, lock))
    ensures |lock| + |ActiveText(doc, lock)| <= |doc| || ActiveText(doc, lock) == []
    ensures ActiveText(doc, lock) == [] <==> AllSpace(Drop(doc, |lock|))
  {
  }

  /** When the lock is a prefix of the document, the active text is the rest, trimmed. */
  lemma ActiveTextAfterLock(lock: string, rest: string)
    ensures ActiveText(lock + rest, lock) == Trim(rest)
  {
    assert Drop(lock + rest, |lock|) == rest;
  }

  /** The edit rule looks only at where the cursor ends up, not at where the
      edit happened: replacing the whole document "abc" (equal to the lock) by
      "xyzw" leaves the cursor past the lock's length, so the lock "abc" stays
      although the document no longer starts with it, and the active text is
      then "w". */
  lemma PasteOverLockKeepsIt()
    ensures !("abc" <= "xyzw")
    ensures EditedLock("xyzw", "abc", 4) == "abc"
    ensures ActiveText("xyzw", "abc") == "w"
  {
    assert "abc"[0] != "xyzw"[0];
    assert Drop("xyzw", 3) == "w";
    assert !IsSpace('w');
    TrimOfTrimmed("w");
  }

  /** triggerAI makes no request exactly when the active text is empty and the
      lock is not: an empty document with an empty lock still sends one. */
  predicate Suppressed(doc: string, lock: string) {
    ActiveText(doc, lock) == [] && lock != []
  }

  lemma SuppressedIff(doc: string, lock: string)
    ensures Suppressed(doc, lock) <==> lock != [] && AllSpace(Drop(doc, |lock|))
    ensures lock == [] ==> !Suppressed(doc, lock)
  {
  }

  // ---------------------------------------------------------------------
  // Accepting a suggestion (script.js:72, 81-89)
  // ---------------------------------------------------------------------

  /** Accept does nothing unless the suggestion has some non-whitespace text. */
  predicate Acceptable(text: string) {
    Trim(text) != []
  }

  /** `newFullText`: a rewrite replaces, an append adds a paragraph after the
      lock (or stands alone when the lock is empty). */
  function MergedText(tag: Tag, lock: string, text: string): (m: string)
  {
    match tag
    case Rewrite => text
    case Append => (if lock != [] then lock + Separator else []) + text
  }

  /** The lock after an accept: the merged text, trimmed. */
  function AcceptedLock(tag: Tag, lock: string, text: string): (r: string)
  {
    Trim(MergedText(tag, lock, text))
  }

  /** The lock an accept produces is trimmed, and it is not empty when the
      accepted text was acceptable. */
  lemma AcceptedLockShape(tag: Tag, lock: string, text: string)
    ensures Trimmed(AcceptedLock(tag, lock, text))
    ensures Acceptable(text) ==> AcceptedLock(tag, lock, text) != []
  {
    var m := MergedText(tag, lock, text);
    assert text == m[|m| - |text|..];
  }

  /** A rewrite replaces the lock: the old lock has no influence on the new one. */
  lemma AcceptRewriteReplaces(lock: string, text: string)
    ensures AcceptedLock(Rewrite, lock, text) == Trim(text)
  {
  }

  /** An append grows a trimmed, non-empty lock: the old lock stays in front,
      then a separator, then the suggestion without its trailing whitespace. */
  lemma AcceptAppendGrows(lock: string, text: string)
    requires lock != [] && Trimmed(lock) && Acceptable(text)
    ensures AcceptedLock(Append, lock, text) == lock + Separator + TrimEnd(text)
  {
    var head := lock + Separator;
    assert MergedText(Append, lock, text) == head + text;
    TrimEndEmptyIffAllSpace(text);
    assert head[0] == lock[0];
    TrimAfterHead(head, text);
  }

  /** Appending to an empty lock locks the suggestion alone, trimmed. */
  lemma AcceptAppendToEmpty(text: string)
    ensures AcceptedLock(Append, [], text) == Trim(text)
  {
    assert MergedText(Append, [], text) == text;
  }

  /** Appending trimmed text to a trimmed lock joins the two with one separator. */
  lemma AcceptAppendTrimmed(lock: string, text: string)
    requires lock != [] && Trimmed(lock) && text != [] && Trimmed(text)
    ensures AcceptedLock(Append, lock, text) == lock + Separator + text
  {
    TrimOfTrimmed(text);
    AcceptAppendGrows(lock, text);
    TrimEndOfNonSpace(text);
  }

  /** Accepting the appended suggestion "B." after the lock "A." locks "A.\n\nB.". */
  lemma AcceptAppendExample()
    ensures AcceptedLock(Append, "A.", "B.") == "A." + Separator + "B."
  {
    assert Trimmed("A.") && Trimmed("B.");
    AcceptAppendTrimmed("A.", "B.");
  }

  /** Accepting the rewrite "X." of the lock "A. B. C." locks "X." alone. */
  lemma AcceptRewriteExample()
    ensures AcceptedLock(Rewrite, "A. B. C.", "X.") == "X."
  {
    TrimOfTrimmed("X.");
  }

  /** After an accept the document is the merged text and a separator; when
      the merged text does not start with whitespace, nothing is active then. */
  lemma AcceptLeavesNothingActive(m: string)
    requires m == [] || !IsSpace(m[0])
    ensures ActiveText(m + Separator, Trim(m)) == []
  {
    TrimOfNonSpaceStart(m);
    SeparatorIsSpace();
    SpaceAfterTrimEnd(m, Separator);
  }

  /** When the merged text starts with whitespace the trimmed lock is shorter
      than the text it stands for, so the active text takes the lock's last
      characters: here " Hi" leaves "i" active. */
  lemma LeadingSpaceShiftsActiveText()
    ensures Trim(" Hi") == "Hi"
    ensures ActiveText(" Hi" + Separator, Trim(" Hi")) == "i"
  {
    TrimLeadingSpaceExample();
    assert Drop(" Hi" + Separator, 2) == "i" + Separator;
    SeparatorIsSpace();
    TrimBeforeSpace("i", Separator);
  }

  lemma TrimLeadingSpaceExample()
    ensures Trim(" Hi") == "Hi"
  {
    assert " Hi"[1..] == "Hi";
    TrimStartOfNonSpace("Hi");
    TrimEndOfNonSpace("Hi");
  }

  // ---------------------------------------------------------------------
  // The locked view (script.js:220-222)
  // ---------------------------------------------------------------------

  /** The pieces that are not blank (`p.trim()` is empty exactly when `p` is all whitespace), in order. */
  function NonBlank(parts: seq<string>): (ps: seq<string>)
    ensures |ps| <= |parts|
    ensures forall p :: p in ps <==> p in parts && !AllSpace(p)
    decreases |parts|
  {
    if parts == [] then []
    else
      var rest := NonBlank(parts[1..]);
      assert forall p :: p in parts <==> p == parts[0] || p in parts[1..];
      (if !AllSpace(parts[0]) then [parts[0]] else []) + rest
  }

  lemma {:induction false} NonBlankAppend(x: seq<string>, y: seq<string>)
    ensures NonBlank(x + y) == NonBlank(x) + NonBlank(y)
    decreases |x|
  {
    if x != [] {
      assert (x + y)[1..] == x[1..] + y;
      NonBlankAppend(x[1..], y);
    } else {
      assert x + y == y;
    }
  }

  /** The paragraphs renderLockedContent shows: the lock split on separators,
      blank pieces dropped. */
  function Paragraphs(lock: string): (ps: seq<string>)
  {
    NonBlank(Split(lock))
  }

  /** Every rendered paragraph has some text and no separator inside it. */
  lemma ParagraphsShape(lock: string)
    ensures forall k | 0 <= k < |Paragraphs(lock)| ::
      !AllSpace(Paragraphs(lock)[k]) && NoSep(Paragraphs(lock)[k])
  {
    var parts := Split(lock);
    var ps := NonBlank(parts);
    assert forall k | 0 <= k < |ps| :: ps[k] in parts;
  }

  /** A lock without separators shows as one paragraph, unless it is blank. */
  lemma SingleParagraph(lock: string)
    requires NoSep(lock)
    ensures Paragraphs(lock) == if !AllSpace(lock) then [lock] else []
  {
    assert Split(lock) == [lock];
    assert NonBlank([lock]) == (if !AllSpace(lock) then [lock] else []) + NonBlank([]);
  }

  /** An append accept keeps the paragraphs already shown, in front of the
      new ones: the locked view only grows. */
  lemma AcceptAppendKeepsParagraphs(lock: string, text: string)
    requires lock != [] && Trimmed(lock) && Acceptable(text)
    ensures Paragraphs(AcceptedLock(Append, lock, text)) == Paragraphs(lock) + Paragraphs(TrimEnd(text))
  {
    AcceptAppendGrows(lock, text);
    assert !EndsWithLineFeed(lock);
    SplitAround(lock, TrimEnd(text));
    NonBlankAppend(Split(lock), Split(TrimEnd(text)));
  }
}
