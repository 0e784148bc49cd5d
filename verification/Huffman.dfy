/**
 The static Huffman codec of the link layer: `EncodeStatic` and `DecodeStatic` work bit by bit on
 byte buffers. A frame is a header byte followed by either the code bits of the source, padded
 with zeros to a whole byte, or (header 255) a plain copy of the source.
 */
module Huffman {
  import opened Common
  import opened HuffmanTables

  /**
   An encoding table indexed by byte and a decoding tree indexed by node. A code word is the
   string of its bits: `enc[c][k]` is its test against the `k`-th 16-bit mask.
   */
  datatype TablePair = TablePair(enc: seq<seq<bool>>, dec: seq<Node>)

  type Tables = t: TablePair | |t.enc| == 256 && |t.dec| == NODES
    witness TablePair(seq(256, i => []), seq(NODES, i => Node(0, 0)))

  // ---------------------------------------------------------------- bits of bytes and code words

  /**
   The test of a byte against the `k`-th of the single-bit masks 0x80, 0x40, .., 0x01: the byte
   halved 7 - k times is odd.
   */
  predicate Bit8(x: Byte, k: nat) {
    match k
    case 0 => (x / 2 / 2 / 2 / 2 / 2 / 2 / 2) % 2 == 1
    case 1 => (x / 2 / 2 / 2 / 2 / 2 / 2) % 2 == 1
    case 2 => (x / 2 / 2 / 2 / 2 / 2) % 2 == 1
    case 3 => (x / 2 / 2 / 2 / 2) % 2 == 1
    case 4 => (x / 2 / 2 / 2) % 2 == 1
    case 5 => (x / 2 / 2) % 2 == 1
    case 6 => (x / 2) % 2 == 1
    case _ => x % 2 == 1
  }

  function Mask8(k: nat): nat {
    match k
    case 0 => 0x80 case 1 => 0x40 case 2 => 0x20 case 3 => 0x10
    case 4 => 0x08 case 5 => 0x04 case 6 => 0x02 case _ => 0x01
  }

  lemma {:induction false} MaskFits(x: Byte, k: nat)
    requires k < 8 && !Bit8(x, k)
    ensures x + Mask8(k) < 256
  {}

  /** Bitwise or with the `k`-th single-bit mask. */
  function SetBit(x: Byte, k: nat): Byte
    requires k < 8
  {
    if Bit8(x, k) then x else MaskFits(x, k); x + Mask8(k)
  }

  function Digit(x: Byte, k: nat): int {
    if Bit8(x, k) then 1 else 0
  }

  lemma {:induction false} DigitsSum(x: Byte)
    ensures x == 0x80 * Digit(x, 0) + 0x40 * Digit(x, 1) + 0x20 * Digit(x, 2) + 0x10 * Digit(x, 3)
                 + 8 * Digit(x, 4) + 4 * Digit(x, 5) + 2 * Digit(x, 6) + Digit(x, 7)
  {}

  lemma {:induction false} DigitsOf(x: Byte, b0: int, b1: int, b2: int, b3: int, b4: int, b5: int, b6: int, b7: int)
    requires 0 <= b0 <= 1 && 0 <= b1 <= 1 && 0 <= b2 <= 1 && 0 <= b3 <= 1
    requires 0 <= b4 <= 1 && 0 <= b5 <= 1 && 0 <= b6 <= 1 && 0 <= b7 <= 1
    requires x == 0x80 * b0 + 0x40 * b1 + 0x20 * b2 + 0x10 * b3 + 8 * b4 + 4 * b5 + 2 * b6 + b7
    ensures Digit(x, 0) == b0 && Digit(x, 1) == b1 && Digit(x, 2) == b2 && Digit(x, 3) == b3
    ensures Digit(x, 4) == b4 && Digit(x, 5) == b5 && Digit(x, 6) == b6 && Digit(x, 7) == b7
  {
    assert x / 2 == 0x40 * b0 + 0x20 * b1 + 0x10 * b2 + 8 * b3 + 4 * b4 + 2 * b5 + b6;
    assert x / 2 / 2 == 0x20 * b0 + 0x10 * b1 + 8 * b2 + 4 * b3 + 2 * b4 + b5;
    assert x / 2 / 2 / 2 == 0x10 * b0 + 8 * b1 + 4 * b2 + 2 * b3 + b4;
    assert x / 2 / 2 / 2 / 2 == 8 * b0 + 4 * b1 + 2 * b2 + b3;
    assert x / 2 / 2 / 2 / 2 / 2 == 4 * b0 + 2 * b1 + b2;
    assert x / 2 / 2 / 2 / 2 / 2 / 2 == 2 * b0 + b1;
  }

  /** Setting a bit sets that bit and leaves the others. */
  lemma {:induction false} SetBitSets(x: Byte, k: nat, j: nat)
    requires k < 8 && j < 8
    ensures Bit8(SetBit(x, k), j) == (j == k || Bit8(x, j))
  {
    DigitsSum(x);
    var d := (i: nat) => if i == k then 1 else Digit(x, i);
    DigitsOf(SetBit(x, k), d(0), d(1), d(2), d(3), d(4), d(5), d(6), d(7));
    assert Digit(SetBit(x, k), j) == d(j);
  }

  /** The eight mask tests of a byte. */
  function ByteBits(x: Byte): (b: seq<bool>)
    ensures |b| == 8
  {
    seq(8, k requires 0 <= k => Bit8(x, k))
  }

  function BitsOf(s: seq<Byte>): (b: seq<bool>)
    ensures |b| == 8 * |s|
  {
    seq(8 * |s|, j requires 0 <= j < 8 * |s| => Bit8(s[j / 8], j % 8))
  }

  /** The code bits of a whole source. */
  function EncodeBits(t: Tables, s: seq<Byte>): seq<bool> {
    if s == [] then [] else t.enc[s[0]] + EncodeBits(t, s[1..])
  }

  // ---------------------------------------------------------------- when two tables fit together

  /** From `node`, the bits of `code` lead to the leaf of byte `c` and never fall off the tree. */
  predicate Follows(t: Tables, code: seq<bool>, node: nat, c: Byte)
    requires node < NODES
  {
    var row := t.dec[node];
    if code == [] then row == Node(c, 0)
    else
      && row.node2 != 0
      && var next := if code[0] then row.node2 else row.node1;
      && 0 < next < NODES
      && Follows(t, code[1..], next, c)
  }

  /** Successors are nodes, and the root has two of them. */
  ghost predicate IsTree(t: Tables) {
    && (forall i: nat :: i < NODES ==> t.dec[i].node1 < NODES && t.dec[i].node2 < NODES)
    && t.dec[0].node1 != 0 && t.dec[0].node2 != 0
  }

  /** Byte `c` has a code word of 1 to 15 bits, which the tree reads as `c`. */
  ghost predicate ReadsBack(t: Tables, c: Byte) {
    1 <= |t.enc[c]| <= 15 && Follows(t, t.enc[c], 0, c)
  }

  ghost predicate Agree(t: Tables) {
    IsTree(t) && forall c: Byte :: ReadsBack(t, c)
  }

  // ---------------------------------------------------------------- what a frame is

  /** Coding does not pay: the code bits fill at least as many bytes as the source has. */
  predicate Uneffective(t: Tables, s: seq<Byte>) {
    |EncodeBits(t, s)| >= 8 * |s|
  }

  /** `f` carries the bits `bits` from its second byte on, and only zeros after them. */
  ghost predicate Carries(f: seq<Byte>, bits: seq<bool>) {
    && |f| == 1 + (|bits| + 7) / 8
    && forall j :: 0 <= j < 8 * (|f| - 1) ==>
         BitsOf(f[1..])[j] == (j < |bits| && bits[j])
  }

  /** `f` is the frame of source `s`. */
  ghost predicate IsFrame(t: Tables, s: seq<Byte>, f: seq<Byte>) {
    if Uneffective(t, s) then f == [255] + s
    else Carries(f, EncodeBits(t, s)) && f[0] == |s| - 1
  }

  // ---------------------------------------------------------------- what decoding means

  /**
   Reads `want` bytes off a bit string, starting at `node` of the tree. A leaf is recognised only
   while a further bit is there to look at, and does not use that bit up.
   */
  function Walk(t: Tables, bits: seq<bool>, node: nat, want: nat): (r: Option<seq<Byte>>)
    requires IsTree(t) && node < NODES
    ensures r.Some? ==> |r.value| == want
    decreases |bits|, want, if node == 0 then 0 else 1
  {
    if want == 0 then Some([])
    else if bits == [] then None
    else
      var row := t.dec[node];
      if row.node2 == 0 then Cons(row.node1 % 256, Walk(t, bits, 0, want - 1))
      else
        var next := if bits[0] then row.node2 else row.node1;
        if next == 0 then Walk(t, bits, 0, want) else Walk(t, bits[1..], next, want)
  }

  function Cons(b: Byte, rest: Option<seq<Byte>>): Option<seq<Byte>> {
    if rest.None? then None else Some([b] + rest.value)
  }

  function Prepend(front: seq<Byte>, rest: Option<seq<Byte>>): Option<seq<Byte>> {
    if rest.None? then None else Some(front + rest.value)
  }

  /** Decoding a frame of `n` bytes at the head of buffer `buf`; one byte past the frame is looked at. */
  function Decode(t: Tables, buf: seq<Byte>, n: nat): Option<seq<Byte>>
    requires IsTree(t) && 1 <= n <= |buf|
    requires buf[0] != 255 ==> n < |buf|
  {
    if n == 1 then None
    else if buf[0] == 255 then Some(buf[1..n])
    else Walk(t, BitsOf(buf[1..n + 1]), 0, buf[0] + 1)
  }

  // ---------------------------------------------------------------- round trip

  /** From a node on the path of `c`, byte `c` is read and the walk restarts behind its code. */
  lemma {:induction false} WalkCode(t: Tables, code: seq<bool>, node: nat, c: Byte, rest: seq<bool>, want: nat)
    requires IsTree(t) && node < NODES && want > 0 && rest != []
    requires Follows(t, code, node, c)
    ensures Walk(t, code + rest, node, want) == Cons(c, Walk(t, rest, 0, want - 1))
    decreases code
  {
    if code == [] {
      assert code + rest == rest;
    } else {
      var next := if code[0] then t.dec[node].node2 else t.dec[node].node1;
      assert (code + rest)[0] == code[0] && (code + rest)[1..] == code[1..] + rest;
      WalkCode(t, code[1..], next, c, rest, want);
    }
  }

  /** Walking the code bits of `s`, followed by at least one more bit of any value, reads `s`. */
  lemma {:induction false} WalkEncoded(t: Tables, s: seq<Byte>, tail: seq<bool>)
    requires Agree(t) && tail != []
    ensures Walk(t, EncodeBits(t, s) + tail, 0, |s|) == Some(s)
  {
    if s != [] {
      var rest := EncodeBits(t, s[1..]) + tail;
      assert EncodeBits(t, s) + tail == t.enc[s[0]] + rest;
      assert ReadsBack(t, s[0]);
      WalkCode(t, t.enc[s[0]], 0, s[0], rest, |s|);
      WalkEncoded(t, s[1..], tail);
      assert s == [s[0]] + s[1..];
    }
  }

  /**
   Decoding the frame of any source gives the source back, in the coded and in the copied form,
   whatever bytes follow the frame in the buffer; the frame is at most one byte longer than the
   source, and the header tells the two forms apart.
   */
  lemma {:induction false} RoundTrip(t: Tables, s: seq<Byte>, f: seq<Byte>, after: seq<Byte>)
    requires Agree(t) && 1 <= |s| <= 255 && IsFrame(t, s, f) && after != []
    ensures 2 <= |f| <= |s| + 1
    ensures Decode(t, f + after, |f|) == Some(s)
    ensures f[0] == 255 <==> Uneffective(t, s)
  {
    var buf := f + after;
    if Uneffective(t, s) {
      assert buf[1..|f|] == s;
    } else {
      assert ReadsBack(t, s[0]);
      var bits, code := BitsOf(buf[1..|f| + 1]), EncodeBits(t, s);
      forall j | 0 <= j < |code| ensures bits[j] == code[j] {
        assert buf[1..|f| + 1][j / 8] == f[1..][j / 8];
        assert BitsOf(f[1..])[j] == code[j];
      }
      assert bits == code + bits[|code|..];
      WalkEncoded(t, s, bits[|code|..]);
    }
  }

  /** A frame determines its source: two sources never share a frame. */
  lemma {:induction false} FramesDiffer(t: Tables, r: seq<Byte>, s: seq<Byte>, f: seq<Byte>)
    requires Agree(t) && 1 <= |r| <= 255 && 1 <= |s| <= 255
    requires IsFrame(t, r, f) && IsFrame(t, s, f)
    ensures r == s
  {
    RoundTrip(t, r, f, [0]);
    RoundTrip(t, s, f, [0]);
  }

  // ---------------------------------------------------------------- the encoder

  /** Nothing but zeros stands in byte `b` from bit `k` on. */
  ghost predicate ClearFrom(b: Byte, k: nat) {
    forall j :: k <= j < 8 ==> !Bit8(b, j)
  }

  /** The bits up to `n` stand in `dest`, from its second byte on. */
  ghost predicate Written(dest: seq<Byte>, all: seq<bool>, n: nat) {
    && n <= |all| && n <= 8 * (|dest| - 1)
    && forall j :: 0 <= j < n ==> Bit8(dest[1 + j / 8], j % 8) == all[j]
  }

  method EncodeStatic(t: Tables, src: array?<Byte>, srclen: int, dest: array?<Byte>)
    returns (ret: int, destlen: int)
    requires Agree(t)
    requires src != null && dest != null && srclen <= 255 ==>
               1 <= srclen <= src.Length && srclen < dest.Length && src != dest
    modifies dest
    ensures ret == 0 || ret == 1
    ensures ret == 0 <==> src != null && dest != null && srclen <= 255
    ensures ret == 1 && dest != null ==> dest[..] == old(dest[..])
    ensures ret == 0 ==> 0 <= destlen <= srclen + 1 && IsFrame(t, old(src[..srclen]), dest[..destlen])
  {
    if src == null || dest == null || srclen > 255 {
      return 1, 0;
    }
    var s := src[..srclen];
    var bit8;
    destlen, bit8 := EncodeBitwise(t, s, dest);
    if destlen >= srclen {
      // coding is uneffective: copy
      CopyBytes(s, dest, 1);
      dest[0] := 255;
      destlen := srclen + 1;
      assert dest[..destlen] == [255] + s;
      return 0, destlen;
    }
    ghost var full := destlen;
    if bit8 != 0 {
      destlen := destlen + 1;
    }
    destlen := destlen + 1;
    dest[0] := srclen - 1;
    FrameBuilt(dest[..destlen], EncodeBits(t, s), full, bit8);
    return 0, destlen;
  }

  method CopyBytes(s: seq<Byte>, dest: array<Byte>, at: nat)
    requires at + |s| <= dest.Length
    modifies dest
    ensures dest[..] == old(dest[..at]) + s + old(dest[at + |s|..])
  {
    for i := 0 to |s|
      invariant dest[..at] == old(dest[..at]) && dest[at..at + i] == s[..i]
      invariant dest[at + i..] == old(dest[at + i..])
    {
      dest[at + i] := s[i];
      assert dest[at..at + i + 1] == dest[at..at + i] + [s[i]];
      assert dest[at + i + 1..] == dest[at + i..][1..] == old(dest[at + i..])[1..] == old(dest[at + i + 1..]);
    }
    assert dest[..] == dest[..at] + dest[at..at + |s|] + dest[at + |s|..];
  }

  /** The bit loop: it ends with the last code bit, or with `destlen == |s|` when coding does not pay. */
  method EncodeBitwise(t: Tables, s: seq<Byte>, dest: array<Byte>) returns (destlen: nat, bit8: nat)
    requires Agree(t) && 1 <= |s| < dest.Length
    modifies dest
    ensures destlen <= |s|
    ensures destlen == |s| <==> Uneffective(t, s)
    ensures destlen < |s| ==>
              && bit8 < 8 && |EncodeBits(t, s)| == 8 * destlen + bit8
              && Written(dest[..], EncodeBits(t, s), 8 * destlen + bit8)
              && ClearFrom(dest[1 + destlen], bit8)
  {
    ghost var all := EncodeBits(t, s);
    var wrklen, bit16 := 0, 0;
    destlen, bit8 := 0, 0;
    dest[1] := 0;
    var code := t.enc[s[0]];
    assert ReadsBack(t, s[0]);
    assert all[0..] == all;
    while true
      invariant 0 <= wrklen < |s|
      invariant bit8 < 8 && destlen < |s|
      invariant code == t.enc[s[wrklen]] && 0 <= bit16 < |code|
      invariant 8 * destlen + bit8 <= |all|
      invariant all[8 * destlen + bit8..] == t.enc[s[wrklen]][bit16..] + EncodeBits(t, s[wrklen + 1..])
      invariant Written(dest[..], all, 8 * destlen + bit8)
      invariant ClearFrom(dest[1 + destlen], bit8)
      decreases 8 * |s| - 8 * destlen - bit8
    {
      ghost var n := 8 * destlen + bit8;
      NextBit(code, bit16, EncodeBits(t, s[wrklen + 1..]), all, n);
      destlen, bit8 := PutBit(all, code[bit16], dest, destlen, bit8, |s|);
      if destlen >= |s| {
        return;
      }
      bit16 := bit16 + 1;
      if bit16 == |code| {
        wrklen := wrklen + 1;
        assert all[n + 1..] == EncodeBits(t, s[wrklen..]);
        if wrklen == |s| {
          break;
        }
        code := t.enc[s[wrklen]];
        bit16 := 0;
        assert ReadsBack(t, s[wrklen]);
        NextSymbol(t, s, wrklen);
      }
    }
  }

  lemma {:induction false} NextSymbol(t: Tables, s: seq<Byte>, i: nat)
    requires i < |s|
    ensures EncodeBits(t, s[i..]) == t.enc[s[i]][0..] + EncodeBits(t, s[i + 1..])
  {
    assert s[i..][1..] == s[i + 1..];
  }

  /** Writes one bit and steps on, to the next byte when this one is full and there is room for it. */
  method PutBit(ghost all: seq<bool>, bit: bool, dest: array<Byte>, full: nat, bit8: nat, room: nat)
    returns (full': nat, bit8': nat)
    requires bit8 < 8 && full < room < dest.Length
    requires 8 * full + bit8 < |all| && bit == all[8 * full + bit8]
    requires Written(dest[..], all, 8 * full + bit8) && ClearFrom(dest[1 + full], bit8)
    modifies dest
    ensures bit8' < 8 && 8 * full' + bit8' == 8 * full + bit8 + 1
    ensures Written(dest[..], all, 8 * full' + bit8')
    ensures full' < room ==> ClearFrom(dest[1 + full'], bit8')
  {
    full', bit8' := full, bit8;
    ghost var before := dest[..];
    if bit {
      dest[1 + full] := SetBit(dest[1 + full], bit8);
    }
    BitWritten(before, all, full, bit8, dest[..]);
    bit8' := bit8' + 1;
    if bit8' > 7 {
      full' := full' + 1;
      bit8' := 0;
      if full' < room {
        dest[1 + full'] := 0;
      }
    }
  }

  /** The next bit of the source's code is bit `k` of the code word at hand. */
  lemma {:induction false} NextBit(code: seq<bool>, k: nat, rest: seq<bool>, all: seq<bool>, n: nat)
    requires k < |code| && n <= |all| && all[n..] == code[k..] + rest
    ensures n < |all| && all[n] == code[k]
    ensures all[n + 1..] == code[k + 1..] + rest
  {
    assert all[n..][0] == all[n];
    assert all[n + 1..] == all[n..][1..];
  }

  lemma {:induction false} BitWritten(before: seq<Byte>, all: seq<bool>, full: nat, bit8: nat, after: seq<Byte>)
    requires bit8 < 8 && 1 + full < |before| == |after|
    requires 8 * full + bit8 < |all| && Written(before, all, 8 * full + bit8)
    requires ClearFrom(before[1 + full], bit8)
    requires after == if all[8 * full + bit8] then before[1 + full := SetBit(before[1 + full], bit8)] else before
    ensures Written(after, all, 8 * full + bit8 + 1)
    ensures ClearFrom(after[1 + full], bit8 + 1)
  {
    var b := before[1 + full];
    var c := SetBit(b, bit8);
    forall j | 0 <= j < 8 ensures Bit8(c, j) == (j == bit8 || Bit8(b, j)) {
      SetBitSets(b, bit8, j);
    }
  }

  lemma {:induction false} FrameBuilt(f: seq<Byte>, all: seq<bool>, full: nat, bit8: nat)
    requires bit8 < 8 && |all| == 8 * full + bit8
    requires |f| == 1 + full + if bit8 == 0 then 0 else 1
    requires Written(f, all, |all|)
    requires bit8 != 0 ==> ClearFrom(f[1 + full], bit8)
    ensures Carries(f, all)
  {
    forall j | 0 <= j < 8 * (|f| - 1) ensures BitsOf(f[1..])[j] == (j < |all| && all[j]) {
      assert f[1..][j / 8] == f[1 + j / 8];
      if j >= |all| {
        assert j / 8 == full && j % 8 >= bit8;
      }
    }
  }

  // ---------------------------------------------------------------- the decoder

  method DecodeStatic(t: Tables, src: array?<Byte>, dest: array?<Byte>, srclen: int)
    returns (ret: int, destlen: int)
    requires IsTree(t)
    requires src != null && dest != null ==>
               && 1 <= srclen <= src.Length && src != dest
               && if src[0] == 255 then srclen <= dest.Length + 1
                  else srclen < src.Length && src[0] < dest.Length
    modifies dest
    ensures ret == 0 || ret == 1
    ensures src == null || dest == null ==> ret == 1
    ensures src != null && dest != null ==>
              match Decode(t, old(src[..]), srclen)
              case None => ret == 1
              case Some(s) => ret == 0 && destlen == |s| % 256 && |s| <= dest.Length && dest[..|s|] == s
  {
    if src == null || dest == null {
      return 1, 0;
    }
    var buf := src[..];
    destlen := buf[0] as int + 1;
    if srclen == 1 {
      return 1, destlen;
    }
    if destlen == 256 {
      CopyBytes(buf[1..srclen], dest, 0);
      destlen := (srclen - 1) % 256;
      return 0, destlen;
    }
    var done := DecodeBitwise(t, buf[1..srclen + 1], dest, destlen);
    ret := if done then 0 else 1;
  }

  /** The bit loop over the bytes behind the header and the one byte after the frame. */
  method DecodeBitwise(t: Tables, s: seq<Byte>, dest: array<Byte>, destlen: nat) returns (done: bool)
    requires IsTree(t) && 0 < destlen <= dest.Length && s != []
    modifies dest
    ensures var goal := Walk(t, BitsOf(s), 0, destlen);
            done == goal.Some? && (done ==> goal.value == dest[..destlen])
  {
    ghost var bits, goal := BitsOf(s), Walk(t, BitsOf(s), 0, destlen);
    var srcptr: nat, wrklen: nat, decod: nat := 0, 0, 0;
    assert bits[0..] == bits && dest[..0] == [];
    assert goal.Some? ==> [] + goal.value == goal.value;
    while true
      invariant srcptr < |s| && wrklen < destlen && decod < NODES
      invariant goal == Prepend(dest[..wrklen], Walk(t, bits[8 * srcptr..], decod, destlen - wrklen))
      decreases |s| - srcptr
    {
      var byte := ByteBits(s[srcptr]);
      ByteAt(s, srcptr);
      wrklen, decod := DecodeByte(t, byte, dest, destlen, wrklen, decod, bits[8 * (srcptr + 1)..], goal);
      if wrklen >= destlen {
        return true;
      }
      srcptr := srcptr + 1;
      if srcptr == |s| {
        assert bits[8 * srcptr..] == [];
        return false;
      }
    }
  }

  /** The loop over the bits of one byte; `rest` are the bits of the bytes behind it. */
  method DecodeByte(t: Tables, byte: seq<bool>, dest: array<Byte>, destlen: nat, wrklen0: nat, decod0: nat,
                    ghost rest: seq<bool>, ghost goal: Option<seq<Byte>>) returns (wrklen: nat, decod: nat)
    requires IsTree(t) && |byte| == 8 && wrklen0 < destlen <= dest.Length && decod0 < NODES
    requires goal == Prepend(dest[..wrklen0], Walk(t, byte + rest, decod0, destlen - wrklen0))
    modifies dest
    ensures wrklen <= destlen && decod < NODES
    ensures wrklen < destlen ==> goal == Prepend(dest[..wrklen], Walk(t, rest, decod, destlen - wrklen))
    ensures wrklen == destlen ==> goal == Some(dest[..destlen])
  {
    var bit := 0;
    wrklen, decod := wrklen0, decod0;
    assert byte[0..] == byte;
    while bit < 8
      invariant wrklen < destlen && decod < NODES && 0 <= bit <= 8
      invariant goal == Prepend(dest[..wrklen], Walk(t, byte[bit..] + rest, decod, destlen - wrklen))
      decreases 8 - bit, destlen - wrklen, if decod == 0 then 0 else 1
    {
      ghost var front, bits := dest[..wrklen], byte[bit..] + rest;
      assert bits[0] == byte[bit] && bits[1..] == byte[bit + 1..] + rest;
      var row := t.dec[decod];
      if row.node2 == 0 {
        WalkLeaf(t, front, bits, decod, destlen - wrklen);
        dest[wrklen] := row.node1 % 256;
        wrklen := wrklen + 1;
        assert dest[..wrklen] == front + [row.node1 % 256];
        if wrklen >= destlen {
          return;
        }
        decod := 0;
      } else {
        WalkInner(t, bits, decod, destlen - wrklen);
        decod := if byte[bit] then row.node2 else row.node1;
      }
      if decod != 0 {
        bit := bit + 1;
      }
    }
    assert byte[8..] + rest == rest;
  }

  lemma {:induction false} WalkLeaf(t: Tables, front: seq<Byte>, bits: seq<bool>, node: nat, want: nat)
    requires IsTree(t) && node < NODES && bits != [] && want > 0 && t.dec[node].node2 == 0
    ensures node != 0
    ensures Prepend(front, Walk(t, bits, node, want))
         == Prepend(front + [t.dec[node].node1 % 256], Walk(t, bits, 0, want - 1))
    ensures want == 1 ==> Prepend(front, Walk(t, bits, node, want)) == Some(front + [t.dec[node].node1 % 256])
  {
    assert front + [t.dec[node].node1 % 256] + [] == front + [t.dec[node].node1 % 256];
    var b, rest := t.dec[node].node1 % 256, Walk(t, bits, 0, want - 1);
    if rest.Some? {
      assert front + ([b] + rest.value) == front + [b] + rest.value;
    }
  }

  lemma {:induction false} WalkInner(t: Tables, bits: seq<bool>, node: nat, want: nat)
    requires IsTree(t) && node < NODES && bits != [] && want > 0 && t.dec[node].node2 != 0
    ensures var next := if bits[0] then t.dec[node].node2 else t.dec[node].node1;
            Walk(t, bits, node, want) == if next == 0 then Walk(t, bits, 0, want) else Walk(t, bits[1..], next, want)
    ensures node == 0 ==> (if bits[0] then t.dec[node].node2 else t.dec[node].node1) != 0
  {}

  lemma {:induction false} ByteAt(s: seq<Byte>, i: nat)
    requires i < |s|
    ensures BitsOf(s)[8 * i..] == ByteBits(s[i]) + BitsOf(s)[8 * (i + 1)..]
  {
    forall k | 0 <= k < 8 ensures BitsOf(s)[8 * i..][k] == ByteBits(s[i])[k] {
      assert (8 * i + k) / 8 == i && (8 * i + k) % 8 == k;
    }
  }
}
