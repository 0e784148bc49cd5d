/**
 Incremental MD5: a context takes a message in pieces of any size, and `Final` gives the digest
 that sections 3.1 to 3.5 of RFC 1321 define for the whole message.
 */
module Md5 {
  import opened Common
  import opened Md5Block

  /**
   Absorbing a block of 16 words. The streaming code is right for any such function; that of MD5 is
   `Absorb(Daemon())`, and `Transform` computes it.
   */
  type Compressor = (State, seq<Word>) -> State

  function Absorb(m: Mixers): Compressor {
    (s, w) => if |w| == 16 then Compress(m, s, w) else s
  }

  // ---------------------------------------------------------------- the digest of a message

  /** Low-order byte first. */
  function WordAt(s: seq<Byte>, i: nat): Word
    requires 4 * i + 4 <= |s|
  {
    var b0: int, b1: int, b2: int, b3: int := s[4 * i], s[4 * i + 1], s[4 * i + 2], s[4 * i + 3];
    b0 + 0x100 * b1 + 0x1_0000 * b2 + 0x100_0000 * b3
  }

  function WordsOf(s: seq<Byte>): (w: seq<Word>)
    ensures |w| == |s| / 4
  {
    seq(|s| / 4, i requires 0 <= i < |s| / 4 => WordAt(s, i))
  }

  function Zeros(n: nat): seq<Byte> {
    seq(n, _ => 0)
  }

  /** Section 3.1: a one bit, then zero bits up to 56 bytes modulo 64. */
  function Padded(m: seq<Byte>): (p: seq<Byte>)
    ensures |p| % 64 == 56 && |m| < |p| <= |m| + 64
  {
    m + [0x80] + Zeros((119 - |m| % 64) % 64)
  }

  /** Section 3.2: the bit length modulo 2^64 follows as two words, low-order word first. */
  function MessageWords(m: seq<Byte>): seq<Word> {
    WordsOf(Padded(m)) + [LowCount(|m|), HighCount(|m|)]
  }

  function LowCount(n: nat): Word {
    (8 * n) % WORD
  }

  function HighCount(n: nat): Word {
    (8 * n / WORD) % WORD
  }

  /** Section 3.3. */
  const INIT := State(0x67452301, 0xefcdab89, 0x98badcfe, 0x10325476)

  /** Section 3.4: the words are absorbed in blocks of 16. */
  function Fold(m: Compressor, s: State, w: seq<Word>): State
    decreases |w|
  {
    if |w| < 16 then s else Fold(m, m(s, w[..16]), w[16..])
  }

  function BytesOf(w: Word): seq<Byte> {
    [w % 0x100, w / 0x100 % 0x100, w / 0x1_0000 % 0x100, w / 0x100_0000]
  }

  /** Section 3.5. */
  function Output(s: State): seq<Byte> {
    BytesOf(s.a) + BytesOf(s.b) + BytesOf(s.c) + BytesOf(s.d)
  }

  function Digest(x: Compressor, m: seq<Byte>): seq<Byte> {
    Output(Fold(x, INIT, MessageWords(m)))
  }

  // ---------------------------------------------------------------- folding piece by piece

  lemma {:induction false} FoldOn(x: Compressor, s: State, q: nat, v: seq<Word>, w: seq<Word>)
    requires |v| == 16 * q && |w| == 16
    ensures Fold(x, s, v + w) == x(Fold(x, s, v), w)
    decreases q
  {
    if q == 0 {
      assert v + w == w && w[..16] == w;
    } else {
      assert (v + w)[..16] == v[..16] && (v + w)[16..] == v[16..] + w;
      FoldOn(x, x(s, v[..16]), q - 1, v[16..], w);
    }
  }

  lemma {:induction false} WordsOn(q: nat, s: seq<Byte>, t: seq<Byte>)
    requires |s| == 4 * q
    ensures WordsOf(s + t) == WordsOf(s) + WordsOf(t)
  {
    forall i | 0 <= i < |s + t| / 4 ensures WordsOf(s + t)[i] == (WordsOf(s) + WordsOf(t))[i] {
      if i >= q {
        assert (s + t)[4 * i] == t[4 * (i - q)];
      }
    }
  }

  /** The message so far: `q` whole blocks are in the chaining value, the rest waits in the buffer. */
  ghost predicate Absorbed(x: Compressor, message: seq<Byte>, q: nat, state: State, buffer: seq<Byte>) {
    && |buffer| == 64
    && 64 * q <= |message| < 64 * q + 64
    && state == Fold(x, INIT, WordsOf(message[..64 * q]))
    && buffer[..|message| - 64 * q] == message[64 * q..]
  }

  lemma {:induction false} AbsorbByte(x: Compressor, message: seq<Byte>, q: nat, state: State, buffer: seq<Byte>, b: Byte)
    requires Absorbed(x, message, q, state, buffer) && |message| < 64 * q + 63
    ensures Absorbed(x, message + [b], q, state, buffer[|message| - 64 * q := b])
  {
    var n, k := |message| - 64 * q, 64 * q;
    assert (message + [b])[..k] == message[..k];
    assert buffer[n := b][..n + 1] == buffer[..n] + [b] == (message + [b])[k..];
  }

  lemma {:induction false} AbsorbBlock(x: Compressor, message: seq<Byte>, q: nat, state: State, buffer: seq<Byte>, b: Byte)
    requires Absorbed(x, message, q, state, buffer) && |message| == 64 * q + 63
    ensures var full := buffer[63 := b];
            Absorbed(x, message + [b], q + 1, x(state, WordsOf(full)), full)
  {
    var k := 64 * q;
    var full, all := buffer[63 := b], message + [b];
    assert full == buffer[..63] + [b] == all[k..];
    assert all == all[..k] + full && all[..k] == message[..k];
    WordsOn(16 * q, all[..k], full);
    FoldOn(x, INIT, q, WordsOf(all[..k]), WordsOf(full));
    assert all[..64 * (q + 1)] == all && all[64 * (q + 1)..] == [] == full[..0];
  }

  lemma {:induction false} ModOnce(a: int, b: int)
    ensures (a % WORD + b) % WORD == (a + b) % WORD
  {
    assert a == WORD * (a / WORD) + a % WORD;
    assert a + b == WORD * (a / WORD) + (a % WORD + b);
  }

  /** The low words add up, and what is left over goes to the high part. */
  lemma {:induction false} Halves(n: nat, k: nat)
    ensures var sum := LowCount(n) + 8 * k % WORD;
            && LowCount(n + k) == sum % WORD
            && 8 * (n + k) / WORD == 8 * n / WORD + k / 0x2000_0000 + (if sum < WORD then 0 else 1)
  {
    var q, add := 8 * n / WORD, 8 * k % WORD;
    assert 8 * k == WORD * (k / 0x2000_0000) + add;
    var sum := LowCount(n) + add;
    assert 8 * (n + k) == WORD * (q + k / 0x2000_0000) + sum;
    assert sum < 2 * WORD;
  }

  /** The high word after adding a carry and the three high bits. */
  function Carried(high: Word, carry: bool, top: nat): Word {
    ((if carry then (high + 1) % WORD else high) + top) % WORD
  }

  /** The carry test on the low word and the three high bits make the count right modulo 2^64. */
  lemma {:induction false} CountOn(n: nat, k: nat)
    requires k < WORD
    ensures var low, add := LowCount(n), 8 * k % WORD;
            && LowCount(n + k) == (low + add) % WORD
            && HighCount(n + k) == Carried(HighCount(n), (low + add) % WORD < low, k / 0x2000_0000)
  {
    Halves(n, k);
    var q, top := 8 * n / WORD, k / 0x2000_0000;
    ModOnce(q, top);
    ModOnce(q, 1 + top);
    ModOnce(q % WORD + 1, top);
  }

  /** The count of bytes modulo 64 is the filling of the buffer. */
  lemma {:induction false} ByteCount(n: nat, q: nat)
    requires 64 * q <= n < 64 * q + 64
    ensures LowCount(n) / 8 % 64 == n - 64 * q
  {
    var h, r := n / 0x2000_0000, n % 0x2000_0000;
    assert n == 0x2000_0000 * h + r;
    assert 8 * n == WORD * h + 8 * r;
    assert LowCount(n) / 8 == r;
  }

  lemma {:induction false} PadLength(m: seq<Byte>, q: nat, padLen: nat)
    requires 64 * q <= |m| < 64 * q + 64
    requires padLen == if |m| < 64 * q + 56 then 64 * q + 56 - |m| else 64 * q + 120 - |m|
    ensures padLen <= 64 && m + PADDING[..padLen] == Padded(m)
  {
    assert |m| % 64 == |m| - 64 * q;
    assert PADDING[..padLen] == [0x80] + Zeros(padLen - 1);
  }

  // ---------------------------------------------------------------- the context

  const PADDING: seq<Byte> := [0x80] + Zeros(63)

  class Context {
    const compress: Compressor
    var count0: Word
    var count1: Word
    var buf: State
    const input: array<Byte>
    const digest: array<Byte>
    ghost var message: seq<Byte>
    ghost var blocks: nat

    ghost predicate Valid()
      reads this, input
    {
      && input.Length == 64 && digest.Length == 16 && input != digest
      && count0 == LowCount(|message|) && count1 == HighCount(|message|)
      && Absorbed(compress, message, blocks, buf, input[..])
    }

    constructor (compress: Compressor)
      ensures Valid() && message == [] && this.compress == compress && fresh(input) && fresh(digest)
    {
      this.compress := compress;
      count0, count1 := 0, 0;
      buf := INIT;
      input := new Byte[64];
      digest := new Byte[16];
      message, blocks := [], 0;
    }

    method Update(inBuf: seq<Byte>)
      requires Valid() && |inBuf| < WORD
      modifies this, input
      ensures Valid() && message == old(message) + inBuf
    {
      var mdi := Filling();
      Count(|inBuf|);
      for i := 0 to |inBuf|
        invariant input.Length == 64 && digest.Length == 16 && input != digest
        invariant message == old(message) + inBuf[..i] && mdi == |message| - 64 * blocks
        invariant count0 == LowCount(|old(message)| + |inBuf|) && count1 == HighCount(|old(message)| + |inBuf|)
        invariant Absorbed(compress, message, blocks, buf, input[..])
      {
        mdi := Take(inBuf[i], mdi);
        assert inBuf[..i + 1] == inBuf[..i] + [inBuf[i]];
      }
      assert inBuf[..|inBuf|] == inBuf;
    }

    method Filling() returns (mdi: nat)
      requires Valid()
      ensures mdi == |message| - 64 * blocks
    {
      ByteCount(|message|, blocks);
      mdi := count0 / 8 % 64;
    }

    /** Adds `inLen` bytes to the two-word bit count. */
    method Count(inLen: nat)
      requires inLen < WORD
      requires count0 == LowCount(|message|) && count1 == HighCount(|message|)
      modifies this`count0, this`count1
      ensures count0 == LowCount(|message| + inLen) && count1 == HighCount(|message| + inLen)
    {
      CountOn(|message|, inLen);
      AddTo(8 * inLen % WORD, inLen / 0x2000_0000);
    }

    method AddTo(add: Word, top: nat)
      modifies this`count0, this`count1
      ensures count0 == (old(count0) + add) % WORD
      ensures count1 == Carried(old(count1), count0 < old(count0), top)
    {
      if (count0 + add) % WORD < count0 {
        count1 := (count1 + 1) % WORD;
      }
      count0 := (count0 + add) % WORD;
      count1 := (count1 + top) % WORD;
    }

    /** Stores one byte and absorbs the buffer when that fills it. */
    method Take(b: Byte, mdi: nat) returns (mdi': nat)
      requires input.Length == 64 && mdi == |message| - 64 * blocks
      requires Absorbed(compress, message, blocks, buf, input[..])
      modifies this`buf, this`message, this`blocks, input
      ensures message == old(message) + [b] && mdi' == |message| - 64 * blocks
      ensures Absorbed(compress, message, blocks, buf, input[..])
    {
      ghost var before := input[..];
      input[mdi] := b;
      assert input[..] == before[mdi := b];
      mdi' := mdi + 1;
      if mdi' == 0x40 {
        AbsorbBlock(compress, message, blocks, buf, before, b);
        var words := BlockWords();
        buf := compress(buf, words);
        mdi' := 0;
        blocks := blocks + 1;
      } else {
        AbsorbByte(compress, message, blocks, buf, before, b);
      }
      message := message + [b];
    }

    /** Gathers the buffer into 16 words. */
    method BlockWords() returns (w: seq<Word>)
      requires input.Length == 64
      ensures w == WordsOf(input[..])
    {
      w := [];
      for i := 0 to 16
        invariant |w| == i && forall k :: 0 <= k < i ==> w[k] == WordAt(input[..], k)
      {
        w := w + [WordAt(input[..], i)];
      }
    }

    method Final()
      requires Valid()
      modifies this, input, digest
      ensures digest[..] == Digest(compress, old(message))
    {
      var in14, in15 := count0, count1;
      var mdi := Filling();
      var padLen := if mdi < 56 then 56 - mdi else 120 - mdi;
      PadLength(message, blocks, padLen);
      Update(PADDING[..padLen]);
      assert message == Padded(old(message));
      var words := BlockWords();
      words := words[..14] + [in14, in15];
      PaddedBlocks(message, blocks);
      LastBlock(compress, old(message), blocks, buf, input[..]);
      buf := compress(buf, words);
      Emit();
    }

    /** Writes the four words of the state out. */
    method Emit()
      requires digest.Length == 16
      modifies digest
      ensures digest[..] == Output(buf)
    {
      PutWord(0, buf.a);
      PutWord(4, buf.b);
      PutWord(8, buf.c);
      PutWord(12, buf.d);
      assert digest[..] == digest[..16];
    }

    method PutWord(at: nat, w: Word)
      requires at + 4 <= digest.Length
      modifies digest
      ensures digest[..at + 4] == old(digest[..at]) + BytesOf(w)
    {
      digest[at] := w % 0x100;
      digest[at + 1] := w / 0x100 % 0x100;
      digest[at + 2] := w / 0x1_0000 % 0x100;
      digest[at + 3] := w / 0x100_0000 % 0x100;
      assert digest[..at] == old(digest[..at]);
      assert digest[..at + 4] == digest[..at] + [digest[at], digest[at + 1], digest[at + 2], digest[at + 3]];
    }
  }

  lemma {:induction false} PaddedBlocks(p: seq<Byte>, q: nat)
    requires |p| % 64 == 56 && 64 * q <= |p| < 64 * q + 64
    ensures |p| == 64 * q + 56
  {}

  /** The last block: 14 words from the buffer and the two count words. */
  lemma {:induction false} LastBlock(x: Compressor, message: seq<Byte>, q: nat, state: State, buffer: seq<Byte>)
    requires Absorbed(x, Padded(message), q, state, buffer) && |Padded(message)| == 64 * q + 56
    ensures x(state, WordsOf(buffer)[..14] + [LowCount(|message|), HighCount(|message|)])
         == Fold(x, INIT, MessageWords(message))
  {
    var p, k := Padded(message), 64 * q;
    var counts := [LowCount(|message|), HighCount(|message|)];
    assert p == p[..k] + buffer[..56];
    WordsOn(16 * q, p[..k], buffer[..56]);
    assert WordsOf(buffer)[..14] == WordsOf(buffer[..56]);
    assert MessageWords(message) == WordsOf(p[..k]) + (WordsOf(buffer[..56]) + counts);
    FoldOn(x, INIT, q, WordsOf(p[..k]), WordsOf(buffer[..56]) + counts);
  }

  // ---------------------------------------------------------------- hashing in pieces

  function Flatten(pieces: seq<seq<Byte>>): seq<Byte> {
    if pieces == [] then [] else Flatten(pieces[..|pieces| - 1]) + pieces[|pieces| - 1]
  }

  /** However a message is cut into pieces, the digest is that of the whole message. */
  method HashPieces(x: Compressor, pieces: seq<seq<Byte>>) returns (digest: seq<Byte>)
    requires forall i :: 0 <= i < |pieces| ==> |pieces[i]| < WORD
    ensures digest == Digest(x, Flatten(pieces))
  {
    var context := new Context(x);
    for i := 0 to |pieces|
      invariant context.Valid() && context.compress == x && context.message == Flatten(pieces[..i])
      invariant fresh(context) && fresh(context.input) && fresh(context.digest)
    {
      context.Update(pieces[i]);
      assert pieces[..i + 1][..i] == pieces[..i];
    }
    assert pieces[..|pieces|] == pieces;
    context.Final();
    digest := context.digest[..];
  }

  /** The block function of MD5 is what the straight-line code computes. */
  method AbsorbBlockOf(m: Mixers, buf: State, block: seq<Word>) returns (r: State)
    requires |block| == 16
    ensures r == Absorb(m)(buf, block)
  {
    r := Transform(m, buf, block);
  }

  /** MD5 as the daemon computes it, for a message in pieces. */
  method HashMd5(pieces: seq<seq<Byte>>) returns (digest: seq<Byte>)
    requires forall i :: 0 <= i < |pieces| ==> |pieces[i]| < WORD
    ensures digest == Digest(Absorb(Daemon()), Flatten(pieces))
  {
    digest := HashPieces(Absorb(Daemon()), pieces);
  }

  // ---------------------------------------------------------------- the link password

  /** The characters of a C string: those before the first NUL. */
  function Chars(s: seq<Byte>): (r: seq<Byte>)
    ensures 0 !in r && r <= s
    ensures |r| < |s| ==> s[|r|] == 0
  {
    if s == [] || s[0] == 0 then [] else [s[0]] + Chars(s[1..])
  }

  lemma {:induction false} CharsOf(s: seq<Byte>, t: seq<Byte>)
    requires 0 !in s
    ensures Chars(s + [0] + t) == s
  {
    if s == [] {
      assert s + [0] + t == [0] + t;
    } else {
      assert (s + [0] + t)[1..] == s[1..] + [0] + t;
      CharsOf(s[1..], t);
    }
  }

  /** `strncpy` into a fresh area of `n` bytes. */
  function StrNCpy(s: seq<Byte>, n: nat): (r: seq<Byte>)
    ensures |r| == n
  {
    if |s| >= n then s[..n] else s + Zeros(n - |s|)
  }

  /**
   The answer to a challenge: the MD5 digest of the first at most ten characters of the challenge,
   followed by the password. Both arguments are C strings without their NUL.
   */
  method CalcMd5Pw(prompt: seq<Byte>, pw: seq<Byte>) returns (result: seq<Byte>)
    requires 0 !in prompt && 0 !in pw && (if |prompt| < 10 then |prompt| else 10) + |pw| < 1024
    ensures result == Digest(Absorb(Daemon()), (if |prompt| <= 10 then prompt else prompt[..10]) + pw)
  {
    result := Answer(Absorb(Daemon()), prompt, pw);
  }

  method Answer(x: Compressor, prompt: seq<Byte>, pw: seq<Byte>) returns (result: seq<Byte>)
    requires 0 !in prompt && 0 !in pw && (if |prompt| < 10 then |prompt| else 10) + |pw| < 1024
    ensures result == Digest(x, (if |prompt| <= 10 then prompt else prompt[..10]) + pw)
  {
    ghost var head := if |prompt| <= 10 then prompt else prompt[..10];
    var buffer := StrNCpy(prompt, 10) + [0];
    assert Chars(buffer) == head by {
      if |prompt| < 10 {
        assert buffer == prompt + [0] + (Zeros(9 - |prompt|) + [0]);
        CharsOf(prompt, Zeros(9 - |prompt|) + [0]);
      } else {
        assert buffer == head + [0] + [];
        CharsOf(head, []);
      }
    }
    buffer := Chars(buffer) + pw;
    var context := new Context(x);
    var len, i := |buffer|, 0;
    while i < len
      invariant 0 <= i
      invariant context.Valid() && context.compress == x
      invariant context.message == buffer[..if i < len then i else len]
      invariant fresh(context) && fresh(context.input) && fresh(context.digest)
    {
      var n := if len - i > 16 then 16 else len - i;
      context.Update(buffer[i..i + n]);
      assert buffer[..i] + buffer[i..i + n] == buffer[..i + n];
      i := i + 16;
    }
    assert buffer[..len] == buffer;
    context.Final();
    result := context.digest[..];
  }
}
