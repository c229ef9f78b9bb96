/**
 * The JavaScript string operations the assistant's state machine is written
 * with, over `string` (= `seq<char>`): `trim`, `startsWith`, `substring` with
 * its clamping, `lastIndexOf("\n\n")`, and `split("\n\n")` together with its
 * inverse, joining with "\n\n".
 *
 * Lengths and offsets count characters (Unicode scalar values); JavaScript
 * counts UTF-16 code units, so the two differ on text outside the Basic
 * Multilingual Plane.
 */
module Text {

  /** The paragraph separator: two consecutive line feeds. */
  const Separator: string := "\n\n"

  /** The code points `String.prototype.trim` removes: ECMAScript WhiteSpace
      (TAB, VT, FF, SPACE, NO-BREAK SPACE, ZERO WIDTH NO-BREAK SPACE and the
      other space separators of Unicode category Zs) and LineTerminator (LF,
      CR, LINE SEPARATOR, PARAGRAPH SEPARATOR). */
  const Spaces: set<char> := {
    '\t', '\U{B}', '\U{C}', ' ', '\U{A0}', '\U{FEFF}',
    '\n', '\r', '\U{2028}', '\U{2029}',
    '\U{1680}', '\U{2000}', '\U{2001}', '\U{2002}', '\U{2003}', '\U{2004}', '\U{2005}',
    '\U{2006}', '\U{2007}', '\U{2008}', '\U{2009}', '\U{200A}', '\U{202F}', '\U{205F}',
    '\U{3000}'
  }

  predicate IsSpace(c: char) {
    c in Spaces
  }

  predicate AllSpace(s: string) {
    forall i | 0 <= i < |s| :: IsSpace(s[i])
  }

  /** Neither starts nor ends with whitespace: the shape of every result of `trim`. */
  predicate Trimmed(s: string) {
    s == [] || (!IsSpace(s[0]) && !IsSpace(s[|s| - 1]))
  }

  /** `s` without its leading whitespace. */
  function TrimStart(s: string): (r: string)
    ensures |r| <= |s|
    decreases |s|
  {
    if s != [] && IsSpace(s[0]) then TrimStart(s[1..]) else s
  }

  /** `trimStart` leaves a suffix of `s` that does not start with whitespace. */
  lemma {:induction false} TrimStartShape(s: string)
    ensures TrimStart(s) == s[|s| - |TrimStart(s)|..]
    ensures TrimStart(s) == [] || !IsSpace(TrimStart(s)[0])
    decreases |s|
  {
    if s != [] && IsSpace(s[0]) {
      TrimStartShape(s[1..]);
    }
  }

  /** What `trimStart` removes is whitespace, so its result is the longest such suffix. */
  lemma {:induction false} TrimStartRemovesSpace(s: string)
    ensures AllSpace(s[..|s| - |TrimStart(s)|])
    decreases |s|
  {
    if s != [] && IsSpace(s[0]) {
      TrimStartRemovesSpace(s[1..]);
      var n := |s| - |TrimStart(s)|;
      assert forall i | 1 <= i < n :: s[i] == s[1..][..n - 1][i - 1];
    }
  }

  /** `s` without its trailing whitespace. */
  function TrimEnd(s: string): (r: string)
    ensures |r| <= |s|
    decreases |s|
  {
    if s != [] && IsSpace(s[|s| - 1]) then TrimEnd(s[..|s| - 1]) else s
  }

  /** `trimEnd` leaves a prefix of `s` that does not end with whitespace. */
  lemma {:induction false} TrimEndShape(s: string)
    ensures TrimEnd(s) == s[..|TrimEnd(s)|]
    ensures TrimEnd(s) == [] || !IsSpace(TrimEnd(s)[|TrimEnd(s)| - 1])
    decreases |s|
  {
    if s != [] && IsSpace(s[|s| - 1]) {
      TrimEndShape(s[..|s| - 1]);
    }
  }

  /** What `trimEnd` removes is whitespace, so its result is the longest such prefix. */
  lemma {:induction false} TrimEndRemovesSpace(s: string)
    ensures AllSpace(s[|TrimEnd(s)|..])
    decreases |s|
  {
    if s != [] && IsSpace(s[|s| - 1]) {
      TrimEndRemovesSpace(s[..|s| - 1]);
      var n := |TrimEnd(s)|;
      assert forall i | n <= i < |s| - 1 :: s[i] == s[..|s| - 1][n..][i - n];
    }
  }

  lemma AllSpaceConcat(a: string, b: string)
    requires AllSpace(a) && AllSpace(b)
    ensures AllSpace(a + b)
  {
  }

  /** Both trims together remove everything exactly when everything is whitespace. */
  lemma BothTrimsEmptyIff(s: string)
    ensures TrimEnd(TrimStart(s)) == [] <==> AllSpace(s)
  {
    var t := TrimStart(s);
    var r := TrimEnd(t);
    var k := |s| - |t|;
    TrimStartShape(s);
    TrimStartRemovesSpace(s);
    TrimEndShape(t);
    TrimEndRemovesSpace(t);
    assert s == s[..k] + t;
    if r == [] {
      assert t[|r|..] == t;
      AllSpaceConcat(s[..k], t);
    } else {
      assert r[0] == s[k];
    }
  }

  /** `s.trim()`: `s` without its leading and trailing whitespace. It is
      empty exactly when `s` is all whitespace. */
  function Trim(s: string): (r: string)
    ensures Trimmed(r) && |r| <= |s|
    ensures r == [] <==> AllSpace(s)
  {
    BothTrimsEmptyIff(s);
    var t := TrimStart(s);
    var r := TrimEnd(t);
    TrimStartShape(s);
    TrimEndShape(t);
    assert r == [] || r[0] == t[0];
    r
  }

  /** `trim` keeps the middle of `s`: what it removes at either end is whitespace. */
  lemma TrimIsSlice(s: string)
    ensures exists i, j | 0 <= i <= j <= |s| ::
      Trim(s) == s[i..j] && AllSpace(s[..i]) && AllSpace(s[j..])
  {
    var t := TrimStart(s);
    var i := |s| - |t|;
    TrimStartShape(s);
    TrimStartRemovesSpace(s);
    TrimEndShape(t);
    TrimEndRemovesSpace(t);
    var j := i + |TrimEnd(t)|;
    assert Trim(s) == s[i..j];
    assert s[j..] == t[|TrimEnd(t)|..];
  }

  /** Trimming a string that is already trimmed changes nothing; in particular `trim` is idempotent. */
  lemma TrimOfTrimmed(s: string)
    requires Trimmed(s)
    ensures Trim(s) == s
  {
    assert TrimStart(s) == s;
  }

  lemma TrimIdempotent(s: string)
    ensures Trim(Trim(s)) == Trim(s)
  {
    TrimOfTrimmed(Trim(s));
  }

  /** Text after a string with something left to trim at its start is kept by `trimStart`. */
  lemma {:induction false} TrimStartKeepsTail(u: string, v: string)
    requires TrimStart(u) != []
    ensures TrimStart(u + v) == TrimStart(u) + v
    decreases |u|
  {
    assert (u + v)[0] == u[0];
    if IsSpace(u[0]) {
      assert (u + v)[1..] == u[1..] + v;
      TrimStartKeepsTail(u[1..], v);
    } else {
      assert TrimStart(u) == u;
    }
  }

  /** Text before a string with something left to trim at its end is kept by `trimEnd`. */
  lemma {:induction false} TrimEndKeepsHead(u: string, v: string)
    requires TrimEnd(v) != []
    ensures TrimEnd(u + v) == u + TrimEnd(v)
    decreases |v|
  {
    if IsSpace(v[|v| - 1]) {
      assert (u + v)[..|u + v| - 1] == u + v[..|v| - 1];
      TrimEndKeepsHead(u, v[..|v| - 1]);
    }
  }

  /** Whitespace after a string is all that `trimEnd` removes from it. */
  lemma {:induction false} TrimEndSkipsSpace(u: string, v: string)
    requires AllSpace(v)
    ensures TrimEnd(u + v) == TrimEnd(u)
    decreases |v|
  {
    if v != [] {
      assert (u + v)[..|u + v| - 1] == u + v[..|v| - 1];
      assert (u + v)[|u + v| - 1] == v[|v| - 1];
      TrimEndSkipsSpace(u, v[..|v| - 1]);
    } else {
      assert u + v == u;
    }
  }

  /** Past the length of `trimEnd(m)`, `m + tail` holds only `m`'s trailing
      whitespace and then `tail`. */
  lemma SpaceAfterTrimEnd(m: string, tail: string)
    requires AllSpace(tail)
    ensures AllSpace(Drop(m + tail, |TrimEnd(m)|))
  {
    var r := TrimEnd(m);
    TrimEndShape(m);
    TrimEndRemovesSpace(m);
    assert m + tail == r + (m[|r|..] + tail);
    assert Drop(m + tail, |r|) == m[|r|..] + tail;
  }

  lemma TrimStartOfNonSpace(s: string)
    requires s == [] || !IsSpace(s[0])
    ensures TrimStart(s) == s
  {
  }

  lemma TrimEndOfNonSpace(s: string)
    requires s == [] || !IsSpace(s[|s| - 1])
    ensures TrimEnd(s) == s
  {
  }

  /** Trimming text that does not start with whitespace only cuts its
      trailing whitespace. */
  lemma TrimOfNonSpaceStart(s: string)
    requires s == [] || !IsSpace(s[0])
    ensures var r := Trim(s); r == TrimEnd(s) && r == s[..|r|] && AllSpace(s[|r|..])
  {
    TrimStartOfNonSpace(s);
    TrimEndRemovesSpace(s);
  }

  /** Whitespace after trimmed, non-empty text is trimmed away. */
  lemma TrimBeforeSpace(u: string, v: string)
    requires u != [] && Trimmed(u) && AllSpace(v)
    ensures Trim(u + v) == u
  {
    TrimStartOfNonSpace(u);
    TrimEndOfNonSpace(u);
    TrimStartKeepsTail(u, v);
    TrimEndSkipsSpace(u, v);
  }

  /** Trimming text that starts with a non-whitespace head keeps the head
      whole and trims only the tail's end. */
  lemma TrimAfterHead(u: string, v: string)
    requires u != [] && !IsSpace(u[0]) && TrimEnd(v) != []
    ensures Trim(u + v) == u + TrimEnd(v)
  {
    TrimStartOfNonSpace(u);
    TrimStartKeepsTail(u, v);
    TrimEndKeepsHead(u, v);
  }

  lemma TrimEndEmptyIffAllSpace(s: string)
    ensures TrimEnd(s) == [] <==> AllSpace(s)
  {
    TrimEndRemovesSpace(s);
    assert s[0..] == s;
  }

  /** `s.substring(0, n)` for `n >= 0`: JavaScript clamps `n` to the length. */
  function Prefix(s: string, n: nat): string {
    if n <= |s| then s[..n] else s
  }

  /** `s.substring(n)` for `n >= 0`: what follows `Prefix(s, n)`, nothing when `n` is past the end. */
  function Drop(s: string, n: nat): string {
    if n <= |s| then s[n..] else []
  }

  lemma SeparatorIsSpace()
    ensures AllSpace(Separator)
  {
    assert IsSpace('\n');
  }

  /** `s.startsWith(p)`. */
  predicate StartsWith(s: string, p: string) {
    |p| <= |s| && s[..|p|] == p
  }

  /** A paragraph separator starts at index `i` of `s`. */
  predicate SepAt(s: string, i: int) {
    0 <= i && i + 1 < |s| && s[i] == '\n' && s[i + 1] == '\n'
  }

  predicate NoSep(s: string) {
    forall i | 0 <= i < |s| :: !SepAt(s, i)
  }

  predicate EndsWithLineFeed(s: string) {
    s != [] && s[|s| - 1] == '\n'
  }

  /** `s.lastIndexOf("\n\n")`: the start of the last separator, or -1 when there is none. */
  function LastIndexOfSep(s: string): (r: int)
    ensures r == -1 || SepAt(s, r)
    ensures forall j :: r < j < |s| ==> !SepAt(s, j)
    decreases |s|
  {
    if |s| < 2 then -1
    else if SepAt(s, |s| - 2) then |s| - 2
    else
      var r := LastIndexOfSep(s[..|s| - 1]);
      assert forall j :: r < j < |s| ==> !SepAt(s, j) by {
        forall j | r < j < |s| ensures !SepAt(s, j) {
          if j < |s| - 2 { assert !SepAt(s[..|s| - 1], j); }
        }
      }
      r
  }

  /** `s.indexOf("\n\n")`: the start of the first separator, or -1 when there is none. */
  function IndexOfSep(s: string): (r: int)
    ensures r == -1 || SepAt(s, r)
    ensures forall j :: 0 <= j < |s| && (r == -1 || j < r) ==> !SepAt(s, j)
    decreases |s|
  {
    if |s| < 2 then -1
    else if SepAt(s, 0) then 0
    else
      var r := IndexOfSep(s[1..]);
      var q := if r == -1 then -1 else r + 1;
      assert forall j :: 0 <= j < |s| && (q == -1 || j < q) ==> !SepAt(s, j) by {
        forall j | 0 <= j < |s| && (q == -1 || j < q) ensures !SepAt(s, j) {
          if j > 0 { assert !SepAt(s[1..], j - 1); }
        }
      }
      q
  }

  /** `s.split("\n\n")`: the pieces between separators, found left to right
      without overlap. No piece holds a separator, and no piece but the last
      ends with a line feed (that line feed would have started the separator). */
  function Split(s: string): (parts: seq<string>)
    ensures |parts| >= 1
    ensures forall k | 0 <= k < |parts| :: NoSep(parts[k])
    ensures forall k | 0 <= k < |parts| - 1 :: !EndsWithLineFeed(parts[k])
    decreases |s|
  {
    var i := IndexOfSep(s);
    if i == -1 then [s]
    else
      assert !EndsWithLineFeed(s[..i]) by {
        if i > 0 { assert !SepAt(s, i - 1); }
      }
      assert NoSep(s[..i]) by {
        forall j | 0 <= j < i ensures !SepAt(s[..i], j) {
          assert !SepAt(s, j);
        }
      }
      [s[..i]] + Split(s[i + 2..])
  }

  /** `parts.join("\n\n")`. */
  function Join(parts: seq<string>): (s: string)
    decreases |parts|
  {
    if |parts| == 0 then ""
    else if |parts| == 1 then parts[0]
    else parts[0] + Separator + Join(parts[1..])
  }

  /** Joining the pieces of a split gives back the string. */
  lemma {:induction false} JoinSplit(s: string)
    ensures Join(Split(s)) == s
    decreases |s|
  {
    var i := IndexOfSep(s);
    if i != -1 {
      var rest := Split(s[i + 2..]);
      JoinSplit(s[i + 2..]);
      assert Split(s) == [s[..i]] + rest;
      assert ([s[..i]] + rest)[1..] == rest;
      assert Join(Split(s)) == s[..i] + Separator + Join(rest);
      assert s == s[..i] + Separator + s[i + 2..];
    }
  }

  /** Splitting gives back the pieces that were joined, as long as no piece
      holds a separator and no piece but the last ends with a line feed. */
  lemma {:induction false} SplitJoin(parts: seq<string>)
    requires |parts| >= 1
    requires forall k | 0 <= k < |parts| :: NoSep(parts[k])
    requires forall k | 0 <= k < |parts| - 1 :: !EndsWithLineFeed(parts[k])
    ensures Split(Join(parts)) == parts
    decreases |parts|
  {
    if |parts| > 1 {
      var a, tail := parts[0], parts[1..];
      var rest := Join(tail);
      assert Join(parts) == a + Separator + rest;
      FirstSepAfter(a, rest);
      SplitAtFirstSep(a + Separator + rest, |a|);
      assert (a + Separator + rest)[..|a|] == a;
      assert (a + Separator + rest)[|a| + 2..] == rest;
      assert forall k | 0 <= k < |tail| :: tail[k] == parts[k + 1];
      SplitJoin(tail);
      assert parts == [a] + tail;
    }
  }

  /** A split cuts off the piece before the first separator and splits the rest. */
  lemma SplitAtFirstSep(s: string, i: nat)
    requires IndexOfSep(s) == i
    ensures i + 2 <= |s| && Split(s) == [s[..i]] + Split(s[i + 2..])
  {
  }

  /** A string without a separator splits into itself alone. */
  lemma SplitWithoutSeparator(s: string)
    requires NoSep(s)
    ensures Split(s) == [s]
  {
    SplitJoin([s]);
  }

  /** After a piece without a separator that does not end with a line feed,
      the first separator is the one that follows the piece. */
  lemma FirstSepAfter(a: string, b: string)
    requires NoSep(a) && !EndsWithLineFeed(a)
    ensures IndexOfSep(a + Separator + b) == |a|
  {
    var s := a + Separator + b;
    assert SepAt(s, |a|);
    forall j | 0 <= j < |a| ensures !SepAt(s, j) {
      if j + 1 < |a| { assert !SepAt(a, j); }
    }
  }

  /** Joining distributes over concatenation of non-empty piece lists. */
  lemma {:induction false} JoinAppend(x: seq<string>, y: seq<string>)
    requires |x| >= 1 && |y| >= 1
    ensures Join(x + y) == Join(x) + Separator + Join(y)
    decreases |x|
  {
    if |x| > 1 {
      assert (x + y)[1..] == x[1..] + y;
      JoinAppend(x[1..], y);
    } else {
      assert (x + y)[1..] == y;
    }
  }

  /** Splitting `a + "\n\n" + b` splits `a` and `b` separately, when `a` does
      not end with a line feed (otherwise the separator would start one
      character earlier). */
  lemma SplitAround(a: string, b: string)
    requires !EndsWithLineFeed(a)
    ensures Split(a + Separator + b) == Split(a) + Split(b)
  {
    var pa, pb := Split(a), Split(b);
    var parts := pa + pb;
    LastPieceIsSuffix(a);
    forall k | 0 <= k < |parts| ensures NoSep(parts[k]) {
      if k < |pa| { assert parts[k] == pa[k]; } else { assert parts[k] == pb[k - |pa|]; }
    }
    forall k | 0 <= k < |parts| - 1 ensures !EndsWithLineFeed(parts[k]) {
      if k < |pa| { assert parts[k] == pa[k]; } else { assert parts[k] == pb[k - |pa|]; }
    }
    SplitJoin(parts);
    JoinSplit(a);
    JoinSplit(b);
    JoinAppend(pa, pb);
  }

  /** The last piece of a split is a suffix of the string. */
  lemma {:induction false} LastPieceIsSuffix(s: string)
    ensures var p := Split(s)[|Split(s)| - 1]; |p| <= |s| && p == s[|s| - |p|..]
    decreases |s|
  {
    var i := IndexOfSep(s);
    if i != -1 {
      LastPieceIsSuffix(s[i + 2..]);
      assert Split(s) == [s[..i]] + Split(s[i + 2..]);
    }
  }
}
