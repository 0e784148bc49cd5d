/**
 The MD5 block transformation, section 3.4 of RFC 1321. `Compress` defines it by the tables of the
 RFC: step number i fixes the mixing function, the word of the block, the rotation and the sine
 constant, and the four words of the state rotate. `Transform` is the straight-line code, which
 renames four registers instead. That both agree does not depend on what the four mixing steps
 compute, so they are a parameter; `Daemon` gives those of MD5.

 A word is an integer below 2^32; addition wraps around explicitly.
 */
module Md5Block {
  const WORD: nat := 0x1_0000_0000

  type Word = x: int | 0 <= x < 0x1_0000_0000

  /** The four-word chaining value. */
  datatype State = State(a: Word, b: Word, c: Word, d: Word)

  /** A mixing step: four state words, a block word, a rotation and a constant give the new word. */
  type Mixer = (Word, Word, Word, Word, Word, nat, Word) -> Word

  datatype Mixers = Mixers(ff: Mixer, gg: Mixer, hh: Mixer, ii: Mixer)

  function Add(x: Word, y: Word): Word {
    if x + y < WORD then x + y else x + y - WORD
  }

  // ---------------------------------------------------------------- the definition by tables

  /** A line of the RFC's listing: block word, rotation and sine constant of a step. */
  datatype Line = Line(word: nat, shift: nat, sine: Word)

  function Listing(i: nat): (l: Line)
    ensures l.word < 16
  {
    match i
    case 0 => Line(0, 7, 0xd76aa478) case 1 => Line(1, 12, 0xe8c7b756) case 2 => Line(2, 17, 0x242070db)
    case 3 => Line(3, 22, 0xc1bdceee) case 4 => Line(4, 7, 0xf57c0faf) case 5 => Line(5, 12, 0x4787c62a)
    case 6 => Line(6, 17, 0xa8304613) case 7 => Line(7, 22, 0xfd469501) case 8 => Line(8, 7, 0x698098d8)
    case 9 => Line(9, 12, 0x8b44f7af) case 10 => Line(10, 17, 0xffff5bb1) case 11 => Line(11, 22, 0x895cd7be)
    case 12 => Line(12, 7, 0x6b901122) case 13 => Line(13, 12, 0xfd987193) case 14 => Line(14, 17, 0xa679438e)
    case 15 => Line(15, 22, 0x49b40821) case 16 => Line(1, 5, 0xf61e2562) case 17 => Line(6, 9, 0xc040b340)
    case 18 => Line(11, 14, 0x265e5a51) case 19 => Line(0, 20, 0xe9b6c7aa) case 20 => Line(5, 5, 0xd62f105d)
    case 21 => Line(10, 9, 0x02441453) case 22 => Line(15, 14, 0xd8a1e681) case 23 => Line(4, 20, 0xe7d3fbc8)
    case 24 => Line(9, 5, 0x21e1cde6) case 25 => Line(14, 9, 0xc33707d6) case 26 => Line(3, 14, 0xf4d50d87)
    case 27 => Line(8, 20, 0x455a14ed) case 28 => Line(13, 5, 0xa9e3e905) case 29 => Line(2, 9, 0xfcefa3f8)
    case 30 => Line(7, 14, 0x676f02d9) case 31 => Line(12, 20, 0x8d2a4c8a) case 32 => Line(5, 4, 0xfffa3942)
    case 33 => Line(8, 11, 0x8771f681) case 34 => Line(11, 16, 0x6d9d6122) case 35 => Line(14, 23, 0xfde5380c)
    case 36 => Line(1, 4, 0xa4beea44) case 37 => Line(4, 11, 0x4bdecfa9) case 38 => Line(7, 16, 0xf6bb4b60)
    case 39 => Line(10, 23, 0xbebfbc70) case 40 => Line(13, 4, 0x289b7ec6) case 41 => Line(0, 11, 0xeaa127fa)
    case 42 => Line(3, 16, 0xd4ef3085) case 43 => Line(6, 23, 0x04881d05) case 44 => Line(9, 4, 0xd9d4d039)
    case 45 => Line(12, 11, 0xe6db99e5) case 46 => Line(15, 16, 0x1fa27cf8) case 47 => Line(2, 23, 0xc4ac5665)
    case 48 => Line(0, 6, 0xf4292244) case 49 => Line(7, 10, 0x432aff97) case 50 => Line(14, 15, 0xab9423a7)
    case 51 => Line(5, 21, 0xfc93a039) case 52 => Line(12, 6, 0x655b59c3) case 53 => Line(3, 10, 0x8f0ccc92)
    case 54 => Line(10, 15, 0xffeff47d) case 55 => Line(1, 21, 0x85845dd1) case 56 => Line(8, 6, 0x6fa87e4f)
    case 57 => Line(15, 10, 0xfe2ce6e0) case 58 => Line(6, 15, 0xa3014314) case 59 => Line(13, 21, 0x4e0811a1)
    case 60 => Line(4, 6, 0xf7537e82) case 61 => Line(11, 10, 0xbd3af235) case 62 => Line(2, 15, 0x2ad7d2bb)
    case _ => Line(9, 21, 0xeb86d391)
  }

  function Pick(m: Mixers, i: nat): Mixer {
    if i < 16 then m.ff else if i < 32 then m.gg else if i < 48 then m.hh else m.ii
  }

  function Step(m: Mixers, i: nat, s: State, block: seq<Word>): State
    requires |block| == 16
  {
    State(s.d, Pick(m, i)(s.a, s.b, s.c, s.d, block[Listing(i).word], Listing(i).shift, Listing(i).sine), s.b, s.c)
  }

  /** `n` steps, beginning with step number `first`. */
  function Run(m: Mixers, first: nat, n: nat, s: State, block: seq<Word>): State
    requires |block| == 16
    decreases n
  {
    if n == 0 then s else Step(m, first + n - 1, Run(m, first, n - 1, s, block), block)
  }

  /** One block absorbed into the chaining value: four rounds of 16 steps and the feed-forward sum. */
  function Compress(m: Mixers, s: State, block: seq<Word>): State
    requires |block| == 16
  {
    var n := |block|;
    var r := Run(m, 48, n, Run(m, 32, n, Run(m, 16, n, Run(m, 0, n, s, block), block), block), block);
    State(Add(s.a, r.a), Add(s.b, r.b), Add(s.c, r.c), Add(s.d, r.d))
  }

  // ---------------------------------------------------------------- the straight-line code

  method Round1(m: Mixers, buf: State, block: seq<Word>) returns (r: State)
    requires |block| == 16
    ensures r == Run(m, 0, |block|, buf, block)
  {
    var a, b, c, d := buf.a, buf.b, buf.c, buf.d;
    a := m.ff(a, b, c, d, block[0], 7, 3614090360);
    d := m.ff(d, a, b, c, block[1], 12, 3905402710);
    c := m.ff(c, d, a, b, block[2], 17, 606105819);
    b := m.ff(b, c, d, a, block[3], 22, 3250441966);
    Four(m, 0, 0, 0, buf, block);
    a := m.ff(a, b, c, d, block[4], 7, 4118548399);
    d := m.ff(d, a, b, c, block[5], 12, 1200080426);
    c := m.ff(c, d, a, b, block[6], 17, 2821735955);
    b := m.ff(b, c, d, a, block[7], 22, 4249261313);
    Four(m, 0, 4, 4, buf, block);
    a := m.ff(a, b, c, d, block[8], 7, 1770035416);
    d := m.ff(d, a, b, c, block[9], 12, 2336552879);
    c := m.ff(c, d, a, b, block[10], 17, 4294925233);
    b := m.ff(b, c, d, a, block[11], 22, 2304563134);
    Four(m, 0, 8, 8, buf, block);
    a := m.ff(a, b, c, d, block[12], 7, 1804603682);
    d := m.ff(d, a, b, c, block[13], 12, 4254626195);
    c := m.ff(c, d, a, b, block[14], 17, 2792965006);
    b := m.ff(b, c, d, a, block[15], 22, 1236535329);
    Four(m, 0, 12, 12, buf, block);
    r := State(a, b, c, d);
  }

  method Round2(m: Mixers, buf: State, block: seq<Word>) returns (r: State)
    requires |block| == 16
    ensures r == Run(m, 16, |block|, buf, block)
  {
    var a, b, c, d := buf.a, buf.b, buf.c, buf.d;
    a := m.gg(a, b, c, d, block[1], 5, 4129170786);
    d := m.gg(d, a, b, c, block[6], 9, 3225465664);
    c := m.gg(c, d, a, b, block[11], 14, 643717713);
    b := m.gg(b, c, d, a, block[0], 20, 3921069994);
    Four(m, 16, 0, 16, buf, block);
    a := m.gg(a, b, c, d, block[5], 5, 3593408605);
    d := m.gg(d, a, b, c, block[10], 9, 38016083);
    c := m.gg(c, d, a, b, block[15], 14, 3634488961);
    b := m.gg(b, c, d, a, block[4], 20, 3889429448);
    Four(m, 16, 4, 20, buf, block);
    a := m.gg(a, b, c, d, block[9], 5, 568446438);
    d := m.gg(d, a, b, c, block[14], 9, 3275163606);
    c := m.gg(c, d, a, b, block[3], 14, 4107603335);
    b := m.gg(b, c, d, a, block[8], 20, 1163531501);
    Four(m, 16, 8, 24, buf, block);
    a := m.gg(a, b, c, d, block[13], 5, 2850285829);
    d := m.gg(d, a, b, c, block[2], 9, 4243563512);
    c := m.gg(c, d, a, b, block[7], 14, 1735328473);
    b := m.gg(b, c, d, a, block[12], 20, 2368359562);
    Four(m, 16, 12, 28, buf, block);
    r := State(a, b, c, d);
  }

  method Round3(m: Mixers, buf: State, block: seq<Word>) returns (r: State)
    requires |block| == 16
    ensures r == Run(m, 32, |block|, buf, block)
  {
    var a, b, c, d := buf.a, buf.b, buf.c, buf.d;
    a := m.hh(a, b, c, d, block[5], 4, 4294588738);
    d := m.hh(d, a, b, c, block[8], 11, 2272392833);
    c := m.hh(c, d, a, b, block[11], 16, 1839030562);
    b := m.hh(b, c, d, a, block[14], 23, 4259657740);
    Four(m, 32, 0, 32, buf, block);
    a := m.hh(a, b, c, d, block[1], 4, 2763975236);
    d := m.hh(d, a, b, c, block[4], 11, 1272893353);
    c := m.hh(c, d, a, b, block[7], 16, 4139469664);
    b := m.hh(b, c, d, a, block[10], 23, 3200236656);
    Four(m, 32, 4, 36, buf, block);
    a := m.hh(a, b, c, d, block[13], 4, 681279174);
    d := m.hh(d, a, b, c, block[0], 11, 3936430074);
    c := m.hh(c, d, a, b, block[3], 16, 3572445317);
    b := m.hh(b, c, d, a, block[6], 23, 76029189);
    Four(m, 32, 8, 40, buf, block);
    a := m.hh(a, b, c, d, block[9], 4, 3654602809);
    d := m.hh(d, a, b, c, block[12], 11, 3873151461);
    c := m.hh(c, d, a, b, block[15], 16, 530742520);
    b := m.hh(b, c, d, a, block[2], 23, 3299628645);
    Four(m, 32, 12, 44, buf, block);
    r := State(a, b, c, d);
  }

  method Round4(m: Mixers, buf: State, block: seq<Word>) returns (r: State)
    requires |block| == 16
    ensures r == Run(m, 48, |block|, buf, block)
  {
    var a, b, c, d := buf.a, buf.b, buf.c, buf.d;
    a := m.ii(a, b, c, d, block[0], 6, 4096336452);
    d := m.ii(d, a, b, c, block[7], 10, 1126891415);
    c := m.ii(c, d, a, b, block[14], 15, 2878612391);
    b := m.ii(b, c, d, a, block[5], 21, 4237533241);
    Four(m, 48, 0, 48, buf, block);
    a := m.ii(a, b, c, d, block[12], 6, 1700485571);
    d := m.ii(d, a, b, c, block[3], 10, 2399980690);
    c := m.ii(c, d, a, b, block[10], 15, 4293915773);
    b := m.ii(b, c, d, a, block[1], 21, 2240044497);
    Four(m, 48, 4, 52, buf, block);
    a := m.ii(a, b, c, d, block[8], 6, 1873313359);
    d := m.ii(d, a, b, c, block[15], 10, 4264355552);
    c := m.ii(c, d, a, b, block[6], 15, 2734768916);
    b := m.ii(b, c, d, a, block[13], 21, 1309151649);
    Four(m, 48, 8, 56, buf, block);
    a := m.ii(a, b, c, d, block[4], 6, 4149444226);
    d := m.ii(d, a, b, c, block[11], 10, 3174756917);
    c := m.ii(c, d, a, b, block[2], 15, 718787259);
    b := m.ii(b, c, d, a, block[9], 21, 3951481745);
    Four(m, 48, 12, 60, buf, block);
    r := State(a, b, c, d);
  }

  lemma {:induction false} Four(m: Mixers, first: nat, n: nat, i: nat, s: State, block: seq<Word>)
    requires |block| == 16 && i == first + n
    ensures var s1 := Step(m, i, Run(m, first, n, s, block), block);
            var s2 := Step(m, i + 1, s1, block);
            var s3 := Step(m, i + 2, s2, block);
            Run(m, first, n + 4, s, block) == Step(m, i + 3, s3, block)
  {
    assert Run(m, first, n + 1, s, block) == Step(m, first + n, Run(m, first, n, s, block), block);
    assert Run(m, first, n + 2, s, block) == Step(m, first + n + 1, Run(m, first, n + 1, s, block), block);
    assert Run(m, first, n + 3, s, block) == Step(m, first + n + 2, Run(m, first, n + 2, s, block), block);
  }

  method Transform(m: Mixers, buf: State, block: seq<Word>) returns (r: State)
    requires |block| == 16
    ensures r == Compress(m, buf, block)
  {
    var s := Round1(m, buf, block);
    s := Round2(m, s, block);
    s := Round3(m, s, block);
    s := Round4(m, s, block);
    r := State(Add(buf.a, s.a), Add(buf.b, s.b), Add(buf.c, s.c), Add(buf.d, s.d));
  }

  // ---------------------------------------------------------------- the mixing steps of MD5

  /** Bitwise and, bit by bit. */
  function And(x: nat, y: nat): (r: nat)
    ensures r <= x && r <= y
  {
    if x == 0 || y == 0 then 0
    else 2 * And(x / 2, y / 2) + if x % 2 == 1 && y % 2 == 1 then 1 else 0
  }

  ghost function Pow2(n: nat): nat {
    if n == 0 then 1 else 2 * Pow2(n - 1)
  }

  lemma {:induction false} OrFits(x: nat, y: nat, n: nat)
    requires x < Pow2(n) && y < Pow2(n)
    ensures x + y - And(x, y) < Pow2(n)
  {
    if n > 0 {
      OrFits(x / 2, y / 2, n - 1);
    }
  }

  lemma {:induction false} WordBound()
    ensures Pow2(32) == WORD
  {
    assert Pow2(8) == 0x100;
    assert Pow2(16) == 0x1_0000;
    assert Pow2(24) == 0x100_0000;
  }

  /** Of two bits, or is the sum less the common one; exclusive or leaves that one out twice. */
  function Or(x: Word, y: Word): Word {
    WordBound();
    OrFits(x, y, 32);
    x + y - And(x, y)
  }

  function Xor(x: Word, y: Word): Word {
    WordBound();
    OrFits(x, y, 32);
    x + y - 2 * And(x, y)
  }

  function Not(x: Word): Word {
    WORD - 1 - x
  }

  /** Rotation to the left by one of the sixteen distances in use. */
  function Rotl(x: Word, n: nat): Word {
    match n
    case 4 => 0x10 * (x % 0x10000000) + x / 0x10000000 case 5 => 0x20 * (x % 0x8000000) + x / 0x8000000
    case 6 => 0x40 * (x % 0x4000000) + x / 0x4000000 case 7 => 0x80 * (x % 0x2000000) + x / 0x2000000
    case 9 => 0x200 * (x % 0x800000) + x / 0x800000 case 10 => 0x400 * (x % 0x400000) + x / 0x400000
    case 11 => 0x800 * (x % 0x200000) + x / 0x200000 case 12 => 0x1000 * (x % 0x100000) + x / 0x100000
    case 14 => 0x4000 * (x % 0x40000) + x / 0x40000 case 15 => 0x8000 * (x % 0x20000) + x / 0x20000
    case 16 => 0x10000 * (x % 0x10000) + x / 0x10000 case 17 => 0x20000 * (x % 0x8000) + x / 0x8000
    case 20 => 0x100000 * (x % 0x1000) + x / 0x1000 case 21 => 0x200000 * (x % 0x800) + x / 0x800
    case 22 => 0x400000 * (x % 0x400) + x / 0x400 case _ => 0x800000 * (x % 0x200) + x / 0x200
  }

  function Mix(f: Word, a: Word, b: Word, x: Word, s: nat, ac: Word): Word {
    Add(Rotl(Add(a, Add(Add(f, x), ac)), s), b)
  }

  function Daemon(): Mixers {
    Mixers((a, b, c, d, x, s, ac) => Mix(Or(And(b, c), And(Not(b), d)), a, b, x, s, ac),
           (a, b, c, d, x, s, ac) => Mix(Or(And(b, d), And(c, Not(d))), a, b, x, s, ac),
           (a, b, c, d, x, s, ac) => Mix(Xor(Xor(b, c), d), a, b, x, s, ac),
           (a, b, c, d, x, s, ac) => Mix(Xor(c, Or(b, Not(d))), a, b, x, s, ac))
  }
}
