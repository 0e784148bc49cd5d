/**
 The encoding table and the decoding tree describe the same code: following the code word of a
 byte from the root of the tree ends in the leaf of that byte.
 */
module HuffmanAgreement {
  import opened Common
  import opened HuffmanTables
  import opened HuffmanCertificate
  import opened Huffman

  /** From `node`, the bits `k..len` of `word` lead to the leaf of byte `c` and never fall off the tree. */
  predicate Leads(word: nat, len: nat, k: nat, node: nat, c: nat)
    decreases len - k
  {
    var row := DecodeRow(node);
    if k >= len then row == Node(c, 0)
    else
      && row.node2 != 0
      && var next := if Test(word, Mask16(k)) then row.node2 else row.node1;
      && 0 < next < NODES
      && Leads(word, len, k + 1, next, c)
  }

  predicate Agrees(c: nat) {
    var e := EncodeRow(c);
    1 <= e.len <= 15 && Leads(e.word, e.len, 0, 0, c)
  }

  /** The first `k` bits of a 16-bit word, as a number. */
  ghost function Top(word: nat, k: nat): nat {
    if k == 0 then 0 else word / Mask16(k - 1)
  }

  lemma {:induction false} TopHalves(word: nat, k: nat)
    requires 1 < k <= 15
    ensures Top(word, k - 1) == Top(word, k) / 2
  {}

  /** From the node on level `k` of the path of `c`, climbing to the root keeps the remaining walk right. */
  lemma {:induction false} Climb(c: nat, k: nat, i: nat)
    requires c < 256 && i < NODES
    requires var e := EncodeRow(c);
             && k <= e.len <= 15
             && PlaceOf(i).depth == k
             && PlaceOf(i).path == Top(e.word, k)
             && Leads(e.word, e.len, k, i, c)
    ensures Leads(EncodeRow(c).word, EncodeRow(c).len, 0, 0, c)
    decreases k
  {
    AllNodes(i);
    if k != 0 {
      var e, q := EncodeRow(c), PlaceOf(i).parent;
      if k > 1 {
        TopHalves(e.word, k);
      } else {
        AllNodes(q);
      }
      assert Test(e.word, Mask16(k - 1)) == (PlaceOf(i).path % 2 == 1);
      assert Leads(e.word, e.len, k - 1, q, c);
      Climb(c, k - 1, q);
    }
  }

  /** Every byte's code word, followed from the root, ends in the leaf of that byte. */
  lemma {:induction false} TablesAgree(c: nat)
    requires c < 256
    ensures Agrees(c)
  {
    AllBytes(c);
    var e := EncodeRow(c);
    assert Leads(e.word, e.len, e.len, LeafOf(c), c);
    Climb(c, e.len, LeafOf(c));
  }

  // ---------------------------------------------------------------- the tables as a pair

  /** The tests of a code word against the 16-bit masks, for its length. */
  function WordBits(e: Code): (b: seq<bool>)
    ensures |b| == e.len
  {
    seq(e.len, k requires 0 <= k => Test(e.word, Mask16(k)))
  }

  /** The two tables the daemon is built with. */
  function Conversd(): (t: Tables)
    ensures forall c: nat :: c < 256 ==> t.enc[c] == WordBits(EncodeRow(c))
    ensures forall i: nat :: i < NODES ==> t.dec[i] == DecodeRow(i)
  {
    TablePair(seq(256, c requires 0 <= c => WordBits(EncodeRow(c))),
              seq(NODES, i requires 0 <= i => DecodeRow(i)))
  }

  lemma {:induction false} LeadsFollows(t: Tables, e: Code, k: nat, node: nat, c: Byte)
    requires forall i: nat :: i < NODES ==> t.dec[i] == DecodeRow(i)
    requires node < NODES && k <= e.len && Leads(e.word, e.len, k, node, c)
    ensures Follows(t, WordBits(e)[k..], node, c)
    decreases e.len - k
  {
    if k < e.len {
      var next := if Test(e.word, Mask16(k)) then DecodeRow(node).node2 else DecodeRow(node).node1;
      LeadsFollows(t, e, k + 1, next, c);
      assert WordBits(e)[k..][1..] == WordBits(e)[k + 1..];
    }
  }

  /** The daemon's tables fit together, so the round trip holds for every source it can compress. */
  lemma {:induction false} ConversdAgrees()
    ensures Agree(Conversd())
  {
    var t := Conversd();
    forall i: nat | i < NODES ensures t.dec[i].node1 < NODES && t.dec[i].node2 < NODES {
      AllNodes(i);
    }
    forall c: Byte ensures ReadsBack(t, c) {
      TablesAgree(c);
      LeadsFollows(t, EncodeRow(c), 0, 0, c);
      assert WordBits(EncodeRow(c))[0..] == t.enc[c];
    }
  }

  lemma {:induction false} ConversdRoundTrip(s: seq<Byte>, f: seq<Byte>, after: seq<Byte>)
    requires 1 <= |s| <= 255 && IsFrame(Conversd(), s, f) && after != []
    ensures Agree(Conversd()) && 2 <= |f| <= |s| + 1 && Decode(Conversd(), f + after, |f|) == Some(s)
  {
    ConversdAgrees();
    RoundTrip(Conversd(), s, f, after);
  }
}
