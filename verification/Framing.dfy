/**
 Cutting the byte stream of a host link into lines. A read appends to the queue buffer; the loop
 moves bytes to the line buffer, hands a line over at every end of line, and also where a slash is
 followed by byte 0377 (a command that came without an end of line before it).

 What a line does is a parameter: `closes` says whether the connection is closed once these lines
 were handed over.
 */
module Framing {
  import opened Common

  type Line = seq<Byte>
  type Handler = seq<Line> -> bool

  const MAX_MTU: nat := 1024
  const MAX_IBUFQ_LEN: nat := 2048
  const MAX_READ: nat := MAX_MTU
  const LIMIT: nat := MAX_MTU - 5
  const LF: Byte := 10
  const CR: Byte := 13
  const SLASH: Byte := 47
  const MARK: Byte := 255

  /** The line begun, the lines handed over, and whether the connection was closed by one of them. */
  datatype Scan = Scan(line: Line, out: seq<Line>, closed: bool)

  const EMPTY := Scan([], [], false)

  // ---------------------------------------------------------------- one byte, one read, many reads

  predicate EndsLine(b: Byte) {
    b == LF || b == CR
  }

  /** A slash and byte 0377 inside a line: the line ends before the slash. */
  predicate Splits(s: Scan, b: Byte) {
    b == MARK && |s.line| > 2 && s.line[|s.line| - 1] == SLASH
  }

  function HandOver(closes: Handler, s: Scan, line: Line, rest: Line): Scan {
    Scan(rest, s.out + [line], closes(s.out + [line]))
  }

  /** The byte cannot be stored and does not end the line either. */
  predicate Sticks(s: Scan, b: Byte) {
    !EndsLine(b) && !Splits(s, b) && |s.line| >= LIMIT
  }

  function Take(closes: Handler, s: Scan, b: Byte): Scan {
    if EndsLine(b) then
      if s.line == [] then s else HandOver(closes, s, s.line, [])
    else if Splits(s, b) then HandOver(closes, s, s.line[..|s.line| - 1], [SLASH, b])
    else if |s.line| < LIMIT then s.(line := s.line + [b])
    else s
  }

  /** One read. A byte that sticks is not passed over, so the rest of the read is lost behind it. */
  function Read(closes: Handler, s: Scan, chunk: seq<Byte>): Scan
    decreases |chunk|
  {
    if chunk == [] || s.closed || Sticks(s, chunk[0]) then s
    else Read(closes, Take(closes, s, chunk[0]), chunk[1..])
  }

  function Reads(closes: Handler, s: Scan, chunks: seq<seq<Byte>>): Scan
    decreases |chunks|
  {
    if chunks == [] then s else Reads(closes, Read(closes, s, chunks[0]), chunks[1..])
  }

  function Flatten(chunks: seq<seq<Byte>>): seq<Byte> {
    if chunks == [] then [] else chunks[0] + Flatten(chunks[1..])
  }

  // ---------------------------------------------------------------- when the cutting into reads does not matter

  /** No byte of `t` ends the overlong line `s.line`. */
  predicate Quiet(s: Scan, t: seq<Byte>) {
    forall i :: 0 <= i < |t| ==> !EndsLine(t[i]) && !Splits(s, t[i])
  }

  /** Either no byte sticks, or nothing that ends a line comes after the first one that does. */
  predicate Robust(closes: Handler, s: Scan, stream: seq<Byte>)
    decreases |stream|
  {
    stream == [] || s.closed ||
    if Sticks(s, stream[0]) then Quiet(s, stream)
    else Robust(closes, Take(closes, s, stream[0]), stream[1..])
  }

  lemma {:induction false} QuietReads(closes: Handler, s: Scan, t: seq<Byte>)
    requires |s.line| >= LIMIT && Quiet(s, t)
    ensures Read(closes, s, t) == s && Robust(closes, s, t)
  {}

  lemma {:induction false} ReadSplit(closes: Handler, s: Scan, a: seq<Byte>, b: seq<Byte>)
    requires Robust(closes, s, a + b)
    ensures Read(closes, s, a + b) == Read(closes, Read(closes, s, a), b)
    ensures Robust(closes, Read(closes, s, a), b)
    decreases |a|
  {
    if a == [] {
      assert a + b == b;
    } else if !s.closed {
      assert (a + b)[0] == a[0] && (a + b)[1..] == a[1..] + b;
      if Sticks(s, a[0]) {
        assert forall i :: 0 <= i < |b| ==> b[i] == (a + b)[|a| + i];
        QuietReads(closes, s, b);
      } else {
        ReadSplit(closes, Take(closes, s, a[0]), a[1..], b);
      }
    } else {
      assert Read(closes, s, a) == s;
    }
  }

  /** Every way of cutting a robust stream into reads hands over the same lines and ends in the same state. */
  lemma {:induction false} ChunkingIrrelevant(closes: Handler, s: Scan, chunks: seq<seq<Byte>>)
    requires Robust(closes, s, Flatten(chunks))
    ensures Reads(closes, s, chunks) == Read(closes, s, Flatten(chunks))
    decreases |chunks|
  {
    if chunks != [] {
      ReadSplit(closes, s, chunks[0], Flatten(chunks[1..]));
      ChunkingIrrelevant(closes, Read(closes, s, chunks[0]), chunks[1..]);
    }
  }

  // ---------------------------------------------------------------- when it does matter

  function Singles(stream: seq<Byte>): (c: seq<seq<Byte>>)
    ensures Flatten(c) == stream
    ensures forall i :: 0 <= i < |c| ==> |c[i]| == 1
  {
    if stream == [] then [] else [[stream[0]]] + Singles(stream[1..])
  }

  /** Lines handed over stay handed over. */
  lemma {:induction false} OutGrows(closes: Handler, s: Scan, stream: seq<Byte>)
    ensures s.out <= Reads(closes, s, Singles(stream)).out
    decreases |stream|
  {
    if stream != [] {
      SinglesStep(closes, s, stream);
      OutGrows(closes, Read(closes, s, [stream[0]]), stream[1..]);
    }
  }

  lemma {:induction false} SinglesStep(closes: Handler, s: Scan, stream: seq<Byte>)
    requires stream != []
    ensures Reads(closes, s, Singles(stream)) == Reads(closes, Read(closes, s, [stream[0]]), Singles(stream[1..]))
    ensures Read(closes, s, [stream[0]])
         == if s.closed || Sticks(s, stream[0]) then s else Take(closes, s, stream[0])
    ensures s.out <= Read(closes, s, [stream[0]]).out
  {
    assert Singles(stream)[1..] == Singles(stream[1..]);
    assert [stream[0]][1..] == [];
  }

  /** Read byte by byte, an overlong line is handed over at the next byte that ends it. */
  lemma {:induction false} NoisyReads(closes: Handler, s: Scan, t: seq<Byte>)
    requires |s.line| >= LIMIT && !s.closed && !Quiet(s, t)
    ensures |s.out| < |Reads(closes, s, Singles(t)).out|
    decreases |t|
  {
    SinglesStep(closes, s, t);
    if Sticks(s, t[0]) {
      assert forall i :: 0 < i < |t| ==> t[i] == t[1..][i - 1];
      NoisyReads(closes, s, t[1..]);
    } else {
      OutGrows(closes, Take(closes, s, t[0]), t[1..]);
    }
  }

  /** A stream that is not robust loses lines when it comes in one read, but not when it comes byte by byte. */
  lemma {:induction false} OneReadLosesLines(closes: Handler, s: Scan, stream: seq<Byte>)
    requires !Robust(closes, s, stream)
    ensures |Read(closes, s, stream).out| < |Reads(closes, s, Singles(stream)).out|
    decreases |stream|
  {
    if Sticks(s, stream[0]) {
      NoisyReads(closes, s, stream);
    } else {
      SinglesStep(closes, s, stream);
      OneReadLosesLines(closes, Take(closes, s, stream[0]), stream[1..]);
    }
  }

  ghost predicate IsCut(stream: seq<Byte>, chunks: seq<seq<Byte>>) {
    Flatten(chunks) == stream && forall i :: 0 <= i < |chunks| ==> 1 <= |chunks[i]| <= MAX_READ
  }

  /** All ways of cutting `stream` into reads hand over the same lines. */
  ghost predicate SameLines(closes: Handler, s: Scan, stream: seq<Byte>) {
    forall c, d :: IsCut(stream, c) && IsCut(stream, d) ==> Reads(closes, s, c).out == Reads(closes, s, d).out
  }

  /**
   Exactly when the lines handed over, at every moment of a stream of any length, do not depend on how
   what has come was cut into reads: when no end of line follows a byte that overflows a line. (At the end
   of a long stream the lines may be the same again: an overflow is forgotten if a whole read of line ends
   follows it.)
   */
  lemma {:induction false} ExactCondition(closes: Handler, s: Scan, stream: seq<Byte>)
    ensures Robust(closes, s, stream) <==> forall n :: 0 <= n <= |stream| ==> SameLines(closes, s, stream[..n])
  {
    if Robust(closes, s, stream) {
      forall n | 0 <= n <= |stream| ensures SameLines(closes, s, stream[..n]) {
        assert stream[..n] + stream[n..] == stream;
        RobustPrefix(closes, s, stream[..n], stream[n..]);
        forall c, d | IsCut(stream[..n], c) && IsCut(stream[..n], d) ensures Reads(closes, s, c).out == Reads(closes, s, d).out {
          ChunkingIrrelevant(closes, s, c);
          ChunkingIrrelevant(closes, s, d);
        }
      }
    } else {
      var n, c, d := TwoCuts(closes, s, stream);
      assert !SameLines(closes, s, stream[..n]);
    }
  }

  lemma {:induction false} RobustPrefix(closes: Handler, s: Scan, a: seq<Byte>, b: seq<Byte>)
    requires Robust(closes, s, a + b)
    ensures Robust(closes, s, a)
    decreases |a|
  {
    if a != [] && !s.closed {
      assert (a + b)[0] == a[0] && (a + b)[1..] == a[1..] + b;
      if Sticks(s, a[0]) {
        assert forall i :: 0 <= i < |a| ==> a[i] == (a + b)[i];
      } else {
        RobustPrefix(closes, Take(closes, s, a[0]), a[1..], b);
      }
    }
  }

  /** Where a stream is not robust, the first line end after an overflow is lost in one cut and not in another. */
  lemma {:induction false} TwoCuts(closes: Handler, s: Scan, stream: seq<Byte>)
    returns (n: nat, c: seq<seq<Byte>>, d: seq<seq<Byte>>)
    requires !Robust(closes, s, stream)
    ensures n <= |stream| && IsCut(stream[..n], c) && IsCut(stream[..n], d)
    ensures |Reads(closes, s, c).out| < |Reads(closes, s, d).out|
    decreases |stream|
  {
    if Sticks(s, stream[0]) {
      n, c, d := LostEnd(closes, s, stream);
    } else {
      var n', c', d' := TwoCuts(closes, Take(closes, s, stream[0]), stream[1..]);
      n, c, d := n' + 1, [[stream[0]]] + c', [[stream[0]]] + d';
      assert stream[..n] == [stream[0]] + stream[1..][..n'];
      CutOneMore(closes, s, stream[0], stream[1..][..n'], c');
      CutOneMore(closes, s, stream[0], stream[1..][..n'], d');
    }
  }

  lemma {:induction false} CutOneMore(closes: Handler, s: Scan, b: Byte, stream: seq<Byte>, c: seq<seq<Byte>>)
    requires IsCut(stream, c) && !s.closed
    ensures IsCut([b] + stream, [[b]] + c)
    ensures !Sticks(s, b) ==> Reads(closes, s, [[b]] + c) == Reads(closes, Take(closes, s, b), c)
    ensures Sticks(s, b) ==> Reads(closes, s, [[b]] + c) == Reads(closes, s, c)
  {
    var cs := [[b]] + c;
    assert cs[0] == [b] && cs[1..] == c && [b][1..] == [];
    assert Read(closes, Take(closes, s, b), []) == Take(closes, s, b);
  }

  lemma {:induction false} LostEnd(closes: Handler, s: Scan, t: seq<Byte>)
    returns (n: nat, c: seq<seq<Byte>>, d: seq<seq<Byte>>)
    requires t != [] && !s.closed && Sticks(s, t[0]) && !Quiet(s, t)
    ensures n <= |t| && IsCut(t[..n], c) && IsCut(t[..n], d)
    ensures |Reads(closes, s, c).out| < |Reads(closes, s, d).out|
    decreases |t|
  {
    if Sticks(s, t[1]) {
      assert !Quiet(s, t[1..]) by {
        var i :| 0 <= i < |t| && (EndsLine(t[i]) || Splits(s, t[i]));
        assert t[1..][i - 1] == t[i];
      }
      var n', c', d' := LostEnd(closes, s, t[1..]);
      n, c, d := n' + 1, [[t[0]]] + c', [[t[0]]] + d';
      assert t[..n] == [t[0]] + t[1..][..n'];
      CutOneMore(closes, s, t[0], t[1..][..n'], c');
      CutOneMore(closes, s, t[0], t[1..][..n'], d');
    } else {
      n, c, d := 2, [[t[0], t[1]]], [[t[0]], [t[1]]];
      assert t[..2] == [t[0], t[1]];
      assert Flatten(c) == [t[0], t[1]] + Flatten(c[1..]) && c[1..] == [];
      assert Reads(closes, s, c) == Reads(closes, Read(closes, s, c[0]), []);
      assert IsCut([t[1]], [[t[1]]]) by {
        assert [[t[1]]][1..] == [];
        assert Flatten([[t[1]]]) == [t[1]] + Flatten([]);
      }
      CutOneMore(closes, s, t[0], [t[1]], [[t[1]]]);
      assert d == [[t[0]]] + [[t[1]]] && [t[0]] + [t[1]] == [t[0], t[1]];
      assert [[t[1]]] == [[t[1]]] + [];
      assert IsCut([], []);
      CutOneMore(closes, s, t[1], [], []);
    }
  }

  /** The same for the lines at the end of a stream that fits one read. */
  lemma {:induction false} OneReadCondition(closes: Handler, s: Scan, stream: seq<Byte>)
    requires 1 <= |stream| <= MAX_READ
    ensures Robust(closes, s, stream) <==>
              forall c, d :: IsCut(stream, c) && IsCut(stream, d) ==>
                Reads(closes, s, c).out == Reads(closes, s, d).out
  {
    if Robust(closes, s, stream) {
      forall c, d | IsCut(stream, c) && IsCut(stream, d) ensures Reads(closes, s, c).out == Reads(closes, s, d).out {
        ChunkingIrrelevant(closes, s, c);
        ChunkingIrrelevant(closes, s, d);
      }
    } else {
      OneReadLosesLines(closes, s, stream);
      assert Flatten([stream]) == stream + Flatten([]) == stream;
      assert IsCut(stream, [stream]) && IsCut(stream, Singles(stream));
      assert Reads(closes, s, [stream]) == Read(closes, s, stream);
    }
  }

  /** For example: any line of more than `LIMIT` plain characters, followed by an end of line. */
  lemma {:induction false} OverlongLine(closes: Handler, s: Scan, text: seq<Byte>)
    requires !s.closed && |s.line| <= LIMIT < |s.line| + |text|
    requires forall i :: 0 <= i < |text| ==> !EndsLine(text[i]) && text[i] != MARK
    ensures !Robust(closes, s, text + [LF])
    decreases |text|
  {
    var stream := text + [LF];
    assert stream[0] == text[0] && stream[1..] == text[1..] + [LF];
    if Sticks(s, text[0]) {
      assert EndsLine(stream[|text|]);
    } else {
      OverlongLine(closes, Take(closes, s, text[0]), text[1..]);
    }
  }

  // ---------------------------------------------------------------- lines of admissible length

  /** An end of line is among the `LIMIT + 1` bytes from position `i` on. */
  ghost predicate EndNear(stream: seq<Byte>, i: nat)
    requires i + LIMIT < |stream|
  {
    exists k :: i <= k <= i + LIMIT && EndsLine(stream[k])
  }

  ghost predicate ShortLines(stream: seq<Byte>) {
    forall i: nat :: i + LIMIT < |stream| ==> EndNear(stream, i)
  }

  /** The line begun is a suffix of what was read since the last end of line. */
  lemma {:induction false} ShortLinesRobust(closes: Handler, s: Scan, seen: seq<Byte>, stream: seq<Byte>)
    requires ShortLines(seen + stream)
    requires |s.line| <= |seen|
    requires forall k :: |seen| - |s.line| <= k < |seen| ==> !EndsLine(seen[k])
    ensures Robust(closes, s, stream)
    decreases |stream|
  {
    if stream != [] && !s.closed {
      var b, i := stream[0], |seen| - |s.line|;
      assert (seen + stream)[|seen|] == b;
      if |s.line| >= LIMIT {
        assert EndNear(seen + stream, i);
      }
      assert !Sticks(s, b);
      assert seen + stream == (seen + [b]) + stream[1..];
      ShortLinesRobust(closes, Take(closes, s, b), seen + [b], stream[1..]);
    }
  }

  /** With lines of admissible length, every cutting of the stream gives the same lines. */
  lemma {:induction false} ShortLinesAgree(closes: Handler, chunks: seq<seq<Byte>>)
    requires ShortLines(Flatten(chunks))
    ensures Reads(closes, EMPTY, chunks) == Read(closes, EMPTY, Flatten(chunks))
  {
    assert [] + Flatten(chunks) == Flatten(chunks);
    ShortLinesRobust(closes, EMPTY, [], Flatten(chunks));
    ChunkingIrrelevant(closes, EMPTY, chunks);
  }

  // ---------------------------------------------------------------- the loop of the daemon

  // ---------------------------------------------------------------- the lines of a stream, by position

  /** A slash followed by byte 0377 at position `q` ends a line that began at `i` and has at least two bytes by then. */
  predicate SplitAt(stream: seq<Byte>, i: int, q: int) {
    0 <= i && i + 2 <= q && q + 1 < |stream| && stream[q] == SLASH && stream[q + 1] == MARK
  }

  /** No line ends in `stream[i..j]`, for a line that began at `i`. */
  ghost predicate Unbroken(stream: seq<Byte>, i: int, j: int) {
    && 0 <= i <= j <= |stream|
    && (forall q :: i <= q < j ==> !EndsLine(stream[q]))
    && (forall q :: i <= q && q + 1 < j ==> !SplitAt(stream, i, q))
  }

  /** `stream[i..j]` is a line: it is not empty, nothing ends it before `j`, and something does there. */
  ghost predicate IsLine(stream: seq<Byte>, i: int, j: int) {
    && Unbroken(stream, i, j) && i < j < |stream|
    && (EndsLine(stream[j]) || SplitAt(stream, i, j))
  }

  /** Nothing but line ends lies between position `j`, where a line ended, and `i`, where the next one begins. */
  ghost predicate Follows(stream: seq<Byte>, j: int, i: int) {
    && 0 <= j <= i <= |stream|
    && (j < |stream| && !EndsLine(stream[j]) ==> i == j)
    && (forall q :: j <= q < i ==> EndsLine(stream[q]))
  }

  /** A line of a stream: where it begins, and where it ends. */
  datatype Span = Span(from: nat, to: nat)

  /** Where the part begins that comes after the first `k` lines. */
  function After(spans: seq<Span>, k: nat): nat
    requires k <= |spans|
  {
    if k == 0 then 0 else spans[k - 1].to
  }

  /** Span `k` is a line that comes next after those before it. */
  ghost predicate NextLine(stream: seq<Byte>, spans: seq<Span>, k: nat) {
    k < |spans| && IsLine(stream, spans[k].from, spans[k].to) && Follows(stream, After(spans, k), spans[k].from)
  }

  ghost predicate AllLines(stream: seq<Byte>, spans: seq<Span>) {
    forall k: nat {:trigger NextLine(stream, spans, k)} :: k < |spans| ==> NextLine(stream, spans, k)
  }

  /** `spans` are all the lines of `stream`, in order, and from `rest` on a line is begun. */
  ghost predicate LinesOf(stream: seq<Byte>, spans: seq<Span>, rest: nat) {
    && AllLines(stream, spans)
    && Follows(stream, After(spans, |spans|), rest)
    && (forall q :: rest <= q < |stream| ==> !EndsLine(stream[q]))
    && Unbroken(stream, rest, if rest + LIMIT < |stream| then rest + LIMIT else |stream|)
  }

  function CutOut(stream: seq<Byte>, span: Span): Line {
    if span.from <= span.to <= |stream| then stream[span.from..span.to] else []
  }

  /** The lines handed over are those of the stream, and the line begun is what comes after them, as far as it fits. */
  ghost predicate Hands(stream: seq<Byte>, spans: seq<Span>, rest: nat, s: Scan) {
    && LinesOf(stream, spans, rest) && |s.out| == |spans|
    && (forall k :: 0 <= k < |spans| ==> s.out[k] == CutOut(stream, spans[k]))
    && s.line == if rest + LIMIT < |stream| then stream[rest..rest + LIMIT] else stream[rest..]
  }

  /** The lines of a stream stay its lines when more comes. */
  lemma {:induction false} LinesStay(t: seq<Byte>, more: seq<Byte>, spans: seq<Span>)
    requires AllLines(t, spans)
    ensures AllLines(t + more, spans)
  {
    forall k: nat | k < |spans| ensures NextLine(t + more, spans, k) {
      assert NextLine(t, spans, k);
      LineStays(t, more, spans[k].from, spans[k].to);
      FollowsStays(t, more, After(spans, k), spans[k].from);
    }
  }

  lemma {:induction false} UnbrokenStays(t: seq<Byte>, more: seq<Byte>, i: nat, j: nat)
    requires Unbroken(t, i, j)
    ensures Unbroken(t + more, i, j)
  {
    var u := t + more;
    forall q | i <= q && q + 1 < j ensures !SplitAt(u, i, q) {
      assert !SplitAt(t, i, q) && u[q] == t[q] && u[q + 1] == t[q + 1];
    }
  }

  lemma {:induction false} LineStays(t: seq<Byte>, more: seq<Byte>, i: nat, j: nat)
    requires IsLine(t, i, j)
    ensures IsLine(t + more, i, j)
  {
    UnbrokenStays(t, more, i, j);
    assert (t + more)[j] == t[j];
    if SplitAt(t, i, j) {
      assert (t + more)[j + 1] == t[j + 1];
    }
  }

  lemma {:induction false} FollowsStays(t: seq<Byte>, more: seq<Byte>, j: nat, i: nat)
    requires Follows(t, j, i) && i < |t|
    ensures Follows(t + more, j, i)
  {
    assert forall q :: 0 <= q < |t| ==> (t + more)[q] == t[q];
  }

  /** One more line, and what is begun after it. */
  lemma {:induction false} OneMoreLine(u: seq<Byte>, spans: seq<Span>, span: Span, rest: nat)
    requires AllLines(u, spans) && IsLine(u, span.from, span.to) && Follows(u, After(spans, |spans|), span.from)
    requires Follows(u, span.to, rest) && |u| - rest <= LIMIT && Unbroken(u, rest, |u|)
    ensures LinesOf(u, spans + [span], rest)
  {
    var all := spans + [span];
    forall k: nat | k < |all| ensures NextLine(u, all, k) {
      assert After(all, k) == After(spans, k);
      assert k < |spans| ==> NextLine(u, spans, k) && all[k] == spans[k];
    }
  }

  /** A byte that ends a line. */
  lemma {:induction false} EndComes(closes: Handler, t: seq<Byte>, b: Byte, spans: seq<Span>, rest: nat, s: Scan)
    returns (spans': seq<Span>, rest': nat)
    requires Hands(t, spans, rest, s) && |t| - rest <= LIMIT && EndsLine(b)
    ensures Hands(t + [b], spans', rest', Take(closes, s, b)) && rest' == |t| + 1
  {
    rest' := |t| + 1;
    if s.line == [] {
      spans' := spans;
      BlankComes(t, b, spans, rest, s);
    } else {
      spans' := spans + [Span(rest, |t|)];
      LineComes(closes, t, b, spans, rest, s);
    }
  }

  lemma {:induction false} BlankComes(t: seq<Byte>, b: Byte, spans: seq<Span>, rest: nat, s: Scan)
    requires Hands(t, spans, rest, s) && EndsLine(b) && s.line == []
    ensures Hands(t + [b], spans, |t| + 1, s)
  {
    LinesStay(t, [b], spans);
    EndFollows(t, b, After(spans, |spans|));
    SpansCut(t, [b], spans, Span(0, 0));
  }

  lemma {:induction false} LineComes(closes: Handler, t: seq<Byte>, b: Byte, spans: seq<Span>, rest: nat, s: Scan)
    requires Hands(t, spans, rest, s) && |t| - rest <= LIMIT && EndsLine(b) && s.line != []
    ensures Hands(t + [b], spans + [Span(rest, |t|)], |t| + 1, HandOver(closes, s, s.line, []))
  {
    LinesStay(t, [b], spans);
    UnbrokenStays(t, [b], rest, |t|);
    FollowsStays(t, [b], After(spans, |spans|), rest);
    OneMoreLine(t + [b], spans, Span(rest, |t|), |t| + 1);
    SpansCut(t, [b], spans, Span(rest, |t|));
    assert s.line == t[rest..|t|];
  }

  lemma {:induction false} EndFollows(t: seq<Byte>, b: Byte, j: nat)
    requires Follows(t, j, |t|) && EndsLine(b)
    ensures Follows(t + [b], j, |t| + 1)
  {
    assert forall q :: 0 <= q < |t| ==> (t + [b])[q] == t[q];
  }

  /** What the spans cut out of a stream is the same when more comes. */
  lemma {:induction false} SpansCut(t: seq<Byte>, more: seq<Byte>, spans: seq<Span>, span: Span)
    requires AllLines(t, spans) && span.from <= span.to <= |t|
    ensures forall k :: 0 <= k < |spans| ==> CutOut(t + more, spans[k]) == CutOut(t, spans[k])
    ensures CutOut(t + more, span) == CutOut(t, span)
  {
    forall k: nat | k < |spans| ensures CutOut(t + more, spans[k]) == CutOut(t, spans[k]) {
      assert NextLine(t, spans, k);
    }
  }

  /** Byte 0377 after a slash. */
  lemma {:induction false} MarkComes(closes: Handler, t: seq<Byte>, b: Byte, spans: seq<Span>, rest: nat, s: Scan)
    returns (spans': seq<Span>, rest': nat)
    requires Hands(t, spans, rest, s) && |t| - rest <= LIMIT && Splits(s, b)
    ensures Hands(t + [b], spans', rest', Take(closes, s, b)) && rest' + 1 == |t|
  {
    var u, last := t + [b], |t| - 1;
    rest', spans' := last, spans + [Span(rest, last)];
    LinesStay(t, [b], spans);
    UnbrokenStays(t, [b], rest, |t|);
    FollowsStays(t, [b], After(spans, |spans|), rest);
    assert s.line == t[rest..] && u[last] == t[last] == SLASH && u[last + 1] == MARK;
    assert IsLine(u, rest, last);
    assert Unbroken(u, last, |u|);
    OneMoreLine(u, spans, Span(rest, last), last);
    SpansCut(t, [b], spans, Span(rest, last));
    assert t[rest..last] == s.line[..|s.line| - 1] && u[last..] == [SLASH, b];
  }

  /** A byte that goes on the line begun. */
  lemma {:induction false} ByteComes(closes: Handler, t: seq<Byte>, b: Byte, spans: seq<Span>, rest: nat, s: Scan)
    requires Hands(t, spans, rest, s) && |t| - rest < LIMIT && !EndsLine(b) && !Splits(s, b)
    ensures Hands(t + [b], spans, rest, Take(closes, s, b))
  {
    var u := t + [b];
    LinesStay(t, [b], spans);
    ByteUnbroken(t, b, rest, s);
    ByteFollows(t, b, After(spans, |spans|), rest);
    SpansCut(t, [b], spans, Span(0, 0));
    assert u[rest..] == t[rest..] + [b];
  }

  lemma {:induction false} ByteFollows(t: seq<Byte>, b: Byte, j: nat, i: nat)
    requires Follows(t, j, i)
    ensures Follows(t + [b], j, i) || (EndsLine(b) && i == |t|) || (j == |t| && i == |t|)
    ensures j == i ==> Follows(t + [b], j, i)
    ensures !EndsLine(b) ==> Follows(t + [b], j, i)
  {
    assert forall q :: 0 <= q < |t| ==> (t + [b])[q] == t[q];
  }

  lemma {:induction false} ByteUnbroken(t: seq<Byte>, b: Byte, rest: nat, s: Scan)
    requires Unbroken(t, rest, |t|) && s.line == t[rest..] && !EndsLine(b) && !Splits(s, b)
    ensures Unbroken(t + [b], rest, |t| + 1)
  {
    var u := t + [b];
    forall q | rest <= q && q + 1 < |u| ensures !SplitAt(u, rest, q) {
      if q + 1 < |t| {
        assert !SplitAt(t, rest, q) && u[q] == t[q] && u[q + 1] == t[q + 1];
      } else {
        assert u[q] == s.line[|s.line| - 1] && u[q + 1] == b;
      }
    }
    assert forall q :: rest <= q < |t| ==> u[q] == t[q];
  }

  /** Bytes that do not fit any more. */
  lemma {:induction false} Overflow(t: seq<Byte>, more: seq<Byte>, spans: seq<Span>, rest: nat, s: Scan)
    requires Hands(t, spans, rest, s) && |t| - rest == LIMIT && Quiet(s, more)
    ensures Hands(t + more, spans, rest, s)
  {
    var u := t + more;
    LinesStay(t, more, spans);
    UnbrokenStays(t, more, rest, |t|);
    FollowsStays(t, more, After(spans, |spans|), rest);
    SpansCut(t, more, spans, Span(rest, |t|));
    forall q | rest <= q < |u| ensures !EndsLine(u[q]) {
      assert u[q] == if q < |t| then t[q] else more[q - |t|];
    }
    assert t[rest..] == t[rest..|t|];
  }

  lemma {:induction false} HandsOn(closes: Handler, seen: seq<Byte>, todo: seq<Byte>, spans: seq<Span>, rest: nat, s: Scan)
    returns (spans': seq<Span>, rest': nat)
    requires Hands(seen, spans, rest, s) && |seen| - rest <= LIMIT && Robust(closes, s, todo) && !Read(closes, s, todo).closed
    ensures Hands(seen + todo, spans', rest', Read(closes, s, todo))
    decreases |todo|
  {
    spans', rest' := spans, rest;
    if todo == [] {
      assert seen + todo == seen;
    } else if Sticks(s, todo[0]) {
      Overflow(seen, todo, spans, rest, s);
    } else {
      var b, next := todo[0], Take(closes, s, todo[0]);
      if EndsLine(b) {
        spans', rest' := EndComes(closes, seen, b, spans, rest, s);
      } else if Splits(s, b) {
        spans', rest' := MarkComes(closes, seen, b, spans, rest, s);
      } else {
        ByteComes(closes, seen, b, spans, rest, s);
      }
      assert seen + todo == seen + [b] + todo[1..];
      spans', rest' := HandsOn(closes, seen + [b], todo[1..], spans', rest', next);
    }
  }

  /**
   Which lines come out, however the stream is cut into reads: all its lines, in order, and nothing else. A line
   is a stretch that is not empty, between line ends, or before a slash that is followed by byte 0377.
   */
  lemma {:induction false} LinesComeOut(closes: Handler, chunks: seq<seq<Byte>>) returns (spans: seq<Span>, rest: nat)
    requires Robust(closes, EMPTY, Flatten(chunks)) && !Reads(closes, EMPTY, chunks).closed
    ensures Hands(Flatten(chunks), spans, rest, Reads(closes, EMPTY, chunks))
  {
    ChunkingIrrelevant(closes, EMPTY, chunks);
    spans, rest := HandsOn(closes, [], Flatten(chunks), [], 0, EMPTY);
    assert [] + Flatten(chunks) == Flatten(chunks);
  }

  class HostLink {
    const closes: Handler
    const ibuf: array<Byte>
    var icnt: nat
    const ibufq: array<Byte>
    var ibufqLen: nat
    var out: seq<Line>
    var closed: bool

    ghost predicate Valid()
      reads this
    {
      ibuf.Length == MAX_MTU && ibufq.Length == MAX_IBUFQ_LEN && ibuf != ibufq && icnt <= LIMIT
    }

    ghost function View(): Scan
      requires Valid()
      reads this, ibuf
    {
      Scan(ibuf[..icnt], out, closed)
    }

    constructor (closes: Handler)
      ensures Valid() && ibufqLen == 0 && View() == EMPTY && this.closes == closes
    {
      this.closes := closes;
      ibuf := new Byte[MAX_MTU];
      ibufq := new Byte[MAX_IBUFQ_LEN];
      icnt, ibufqLen, out, closed := 0, 0, [], false;
    }

    method ProcessInput(line: Line)
      modifies this`out, this`closed
      ensures out == old(out) + [line] && closed == closes(out)
    {
      out := out + [line];
      closed := closes(out);
    }

    /** Copies the rest of the queue down to its head, in place. */
    method ShiftDown(sp: nat)
      requires sp + ibufqLen <= ibufq.Length
      modifies ibufq
      ensures ibufq[..ibufqLen] == old(ibufq[sp..sp + ibufqLen])
    {
      for i := 0 to ibufqLen
        invariant forall k :: 0 <= k < i ==> ibufq[k] == old(ibufq[sp + k])
        invariant forall k :: i <= k < ibufq.Length ==> ibufq[k] == old(ibufq[k])
      {
        ibufq[i] := ibufq[sp + i];
      }
    }

    /** One byte other than an end of line. */
    method Store(b: Byte) returns (stored: bool)
      requires Valid() && !EndsLine(b)
      modifies this`icnt, this`out, this`closed, ibuf
      ensures Valid() && View() == Take(closes, old(View()), b)
      ensures stored == !Sticks(old(View()), b)
    {
      if b == MARK && icnt > 2 && ibuf[icnt - 1] == SLASH {
        assert ibuf[..icnt - 1] == ibuf[..icnt][..icnt - 1];
        ProcessInput(ibuf[..icnt - 1]);
        icnt := 1;
        ibuf[0] := SLASH;
      }
      stored := icnt < LIMIT;
      if stored {
        ibuf[icnt] := b;
        icnt := icnt + 1;
        assert ibuf[..icnt] == ibuf[..icnt - 1] + [b];
      }
    }

    /** Takes the byte at `sp` off the queue; `rest` is what the queue still holds. */
    method Advance(sp: nat, ghost rest: seq<Byte>) returns (sp': nat, ghost rest': seq<Byte>)
      requires Valid() && ibufqLen > 0 && sp + ibufqLen <= ibufq.Length && !closed
      requires rest == ibufq[sp..sp + ibufqLen]
      modifies this`ibufqLen, this`icnt, this`out, this`closed, ibuf, ibufq
      ensures Valid() && ibufqLen == old(ibufqLen) - 1 && sp' + ibufqLen <= ibufq.Length
      ensures rest' == ibufq[sp'..sp' + ibufqLen]
      ensures View() == Take(closes, old(View()), rest[0])
      ensures if Sticks(old(View()), rest[0]) then rest' == rest[..|rest| - 1] else rest' == rest[1..]
    {
      ibufqLen := ibufqLen - 1;
      var b := ibufq[sp];
      sp', rest' := sp, rest[1..];
      if EndsLine(b) {
        if icnt > 0 {
          ProcessInput(ibuf[..icnt]);
          icnt := 0;
        }
        if ibufqLen > 0 {
          ShiftDown(sp + 1);
        }
        sp' := 0;
      } else {
        var stored := Store(b);
        if stored {
          sp' := sp + 1;
        } else {
          rest' := rest[..|rest| - 1];
        }
      }
    }

    /** One successful read on an open link, processed to the end of the queue or until the link closes. */
    method Receive(chunk: seq<Byte>)
      requires Valid() && ibufqLen == 0 && !closed && |chunk| <= MAX_READ
      modifies this, ibuf, ibufq
      ensures Valid() && View() == Read(closes, old(View()), chunk)
      ensures !closed ==> ibufqLen == 0
    {
      forall i | 0 <= i < |chunk| {
        ibufq[i] := chunk[i];
      }
      ibufqLen := |chunk|;
      var sp: nat := 0;
      ghost var rest := chunk;
      assert ibuf[..icnt] == old(ibuf[..icnt]);
      while ibufqLen > 0
        invariant Valid() && sp + ibufqLen <= ibufq.Length
        invariant rest == ibufq[sp..sp + ibufqLen]
        invariant Read(closes, View(), rest) == Read(closes, old(View()), chunk)
        decreases ibufqLen
      {
        if closed {
          break;
        }
        sp, rest := Advance(sp, rest);
      }
      assert Read(closes, View(), rest) == View();
    }
  }
}
