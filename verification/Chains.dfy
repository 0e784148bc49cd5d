/**
 The chains of primary and backup links, on values: adding a link at the end of a chain, taking one
 out, and what happens when a link is added again or dropped without taking it out of its chain.
 */
module Chains {
  import opened Common
  import opened ServerState

  /** A new link without a primary makes a chain of its own. */
  function Alone(ends: map<nat, Ends>, p: nat): map<nat, Ends> {
    ends[p := Ends(None, None)]
  }

  /** A new link behind `last`, the end of a chain. */
  function Append(ends: map<nat, Ends>, p: nat, last: nat): map<nat, Ends>
    requires last in ends
  {
    ends[last := ends[last].(backup := Some(p))][p := Ends(Some(last), None)]
  }

  /** Taking link `x` out: its neighbours become each other's. */
  function Remove(ends: map<nat, Ends>, x: nat): map<nat, Ends>
    requires x in ends
  {
    var up, down := ends[x].primary, ends[x].backup;
    map s | s in ends && s != x ::
      if up == Some(s) then ends[s].(backup := down)
      else if down == Some(s) then ends[s].(primary := up)
      else ends[s]
  }

  /** The places of the links after `p` was put behind `last`. */
  ghost function PlacedBehind(place: map<nat, Place>, p: nat, last: nat): map<nat, Place>
    requires last in place
  {
    (place - {p})[p := Place(place[last].chain, place[last].rank + 1)]
  }

  lemma {:induction false} AloneOk(ends: map<nat, Ends>, place: map<nat, Place>, p: nat, chain: nat)
    requires ChainsOk(ends, place) && p !in ends
    requires forall s :: s in place ==> place[s].chain != chain
    ensures ChainsOk(Alone(ends, p), place[p := Place(chain, 0)])
  {
    var e, q := Alone(ends, p), place[p := Place(chain, 0)];
    forall s | s in e ensures UpOk(e, s) && DownOk(e, s) && RankOk(e, q, s) {
      assert s != p ==> UpOk(ends, s) && DownOk(ends, s) && RankOk(ends, place, s);
    }
    forall a, b | a in e && b in e ensures GapOk(e, q, a, b) {
      assert a != p && b != p ==> GapOk(ends, place, a, b);
    }
  }

  lemma {:induction false} AppendOk(ends: map<nat, Ends>, place: map<nat, Place>, p: nat, last: nat)
    requires ChainsOk(ends, place) && p !in ends && last in ends && ends[last].backup.None?
    ensures ChainsOk(Append(ends, p, last), place[p := Place(place[last].chain, place[last].rank + 1)])
  {
    var e, q := Append(ends, p, last), place[p := Place(place[last].chain, place[last].rank + 1)];
    forall s | s in e ensures UpOk(e, s) && DownOk(e, s) && RankOk(e, q, s) {
      assert s != p ==> UpOk(ends, s) && DownOk(ends, s) && RankOk(ends, place, s);
    }
    forall a, b | a in e && b in e ensures GapOk(e, q, a, b) {
      if a != p && b != p {
        assert GapOk(ends, place, a, b);
      }
      // the end of the chain has the highest rank in it
      if a != p {
        assert GapOk(ends, place, last, a) && GapOk(ends, place, a, last);
      }
      if b != p {
        assert GapOk(ends, place, last, b);
      }
    }
  }

  lemma {:induction false} RemoveOk(ends: map<nat, Ends>, place: map<nat, Place>, x: nat)
    requires ChainsOk(ends, place) && x in ends
    ensures ChainsOk(Remove(ends, x), place - {x})
  {
    var e, q := Remove(ends, x), place - {x};
    assert UpOk(ends, x) && DownOk(ends, x) && RankOk(ends, place, x);
    forall s | s in e ensures UpOk(e, s) && DownOk(e, s) && RankOk(e, q, s) {
      RemoveAt(ends, place, x, s);
    }
    forall a, b | a in e && b in e ensures GapOk(e, q, a, b) {
      assert GapOk(ends, place, a, b) && GapOk(ends, place, a, x) && GapOk(ends, place, x, b);
      assert UpOk(ends, b) && DownOk(ends, a) && RankOk(ends, place, b);
      if ends[a].backup.Some? {
        assert RankOk(ends, place, ends[a].backup.value);
      }
    }
  }

  lemma {:induction false} RemoveAt(ends: map<nat, Ends>, place: map<nat, Place>, x: nat, s: nat)
    requires ChainsOk(ends, place) && x in ends && s in ends && s != x
    ensures UpOk(Remove(ends, x), s) && DownOk(Remove(ends, x), s) && RankOk(Remove(ends, x), place - {x}, s)
  {
    assert UpOk(ends, x) && DownOk(ends, x) && RankOk(ends, place, x);
    assert UpOk(ends, s) && DownOk(ends, s) && RankOk(ends, place, s);
    if ends[x].backup.Some? {
      assert RankOk(ends, place, ends[x].backup.value);
    }
    if ends[s].backup.Some? {
      assert RankOk(ends, place, ends[s].backup.value);
    }
    if ends[s].primary.Some? {
      assert DownOk(ends, ends[s].primary.value);
    }
  }

  /** A link is never its own neighbour, and its two neighbours are not the same link. */
  lemma {:induction false} NotOwnNeighbour(ends: map<nat, Ends>, place: map<nat, Place>, p: nat)
    requires ChainsOk(ends, place) && p in ends
    ensures ends[p].primary != Some(p) && ends[p].backup != Some(p)
    ensures ends[p].primary.Some? ==> ends[p].primary != ends[p].backup
  {
    assert UpOk(ends, p) && DownOk(ends, p) && RankOk(ends, place, p);
    if ends[p].backup.Some? {
      assert RankOk(ends, place, ends[p].backup.value);
    }
  }

  /** An expired link is dropped without mending its chain: harmless exactly when it had no neighbour in one. */
  lemma {:induction false} ExpireExact(ends: map<nat, Ends>, place: map<nat, Place>, p: nat)
    requires ChainsOk(ends, place) && p in ends
    ensures Inverse(ends - {p}) <==> ends[p] == Ends(None, None)
  {
    var e := ends - {p};
    NotOwnNeighbour(ends, place, p);
    assert UpOk(ends, p) && DownOk(ends, p);
    if ends[p].primary.Some? {
      assert !DownOk(e, ends[p].primary.value);
    } else if ends[p].backup.Some? {
      assert !UpOk(e, ends[p].backup.value);
    } else {
      ExpireOk(ends, place, p);
    }
  }

  lemma {:induction false} ExpireOk(ends: map<nat, Ends>, place: map<nat, Place>, p: nat)
    requires ChainsOk(ends, place) && p in ends && ends[p] == Ends(None, None)
    ensures ChainsOk(ends - {p}, place - {p})
  {
    RemoveOk(ends, place, p);
    assert Remove(ends, p) == ends - {p};
  }

  /** The links of the chain of `s` that stand below it. */
  ghost function Lower(place: map<nat, Place>, s: nat): set<nat>
    requires s in place
  {
    set t | t in place && Below(place, t, s)
  }

  /** The links of the chain of `s` that stand above it. */
  ghost function Higher(place: map<nat, Place>, s: nat): set<nat>
    requires s in place
  {
    set t | t in place && Below(place, s, t)
  }

  lemma {:induction false} WalkUp(ends: map<nat, Ends>, place: map<nat, Place>, s: nat)
    requires ChainsOk(ends, place) && s in ends && ends[s].primary.Some?
    ensures ends[s].primary.value in ends && Below(place, ends[s].primary.value, s)
    ensures Lower(place, ends[s].primary.value) < Lower(place, s)
    ensures forall t: nat :: Below(place, t, s) ==> t == ends[s].primary.value || Below(place, t, ends[s].primary.value)
  {
    var p := ends[s].primary.value;
    assert UpOk(ends, s) && RankOk(ends, place, s);
    forall t: nat | Below(place, t, s) ensures t == p || Below(place, t, p) {
      assert GapOk(ends, place, t, s) && GapOk(ends, place, t, p);
    }
    assert p in Lower(place, s) && p !in Lower(place, p);
  }

  lemma {:induction false} WalkDown(ends: map<nat, Ends>, place: map<nat, Place>, s: nat)
    requires ChainsOk(ends, place) && s in ends && ends[s].backup.Some?
    ensures ends[s].backup.value in ends && Below(place, s, ends[s].backup.value)
    ensures Higher(place, ends[s].backup.value) < Higher(place, s)
    ensures forall t: nat :: Below(place, s, t) ==> t == ends[s].backup.value || Below(place, ends[s].backup.value, t)
  {
    var b := ends[s].backup.value;
    assert DownOk(ends, s) && RankOk(ends, place, b);
    forall t: nat | Below(place, s, t) ensures t == b || Below(place, b, t) {
      assert GapOk(ends, place, s, t) && GapOk(ends, place, b, t);
    }
    assert b in Higher(place, s) && b !in Higher(place, b);
  }

  /** The others of a chain stand below or above. */
  lemma {:induction false} ChainSplit(ends: map<nat, Ends>, place: map<nat, Place>, s: nat)
    requires ChainsOk(ends, place) && s in ends
    ensures forall t :: t in place && t != s && place[t].chain == place[s].chain ==> Below(place, t, s) || Below(place, s, t)
  {
    forall t | t in place && t != s && place[t].chain == place[s].chain ensures Below(place, t, s) || Below(place, s, t) {
      assert GapOk(ends, place, s, t);
    }
  }

  /** Where a walk ends, the chain ends. */
  lemma {:induction false} WalkEnds(ends: map<nat, Ends>, place: map<nat, Place>, s: nat)
    requires ChainsOk(ends, place) && s in ends
    ensures ends[s].primary.None? ==> forall t: nat :: !Below(place, t, s)
    ensures ends[s].backup.None? ==> forall t: nat :: !Below(place, s, t)
  {
    forall t: nat | t in ends ensures GapOk(ends, place, t, s) && GapOk(ends, place, s, t) {
    }
  }

  /** A link without neighbours is alone in its chain. */
  lemma {:induction false} AloneInChain(ends: map<nat, Ends>, place: map<nat, Place>, p: nat)
    requires ChainsOk(ends, place) && p in ends && ends[p] == Ends(None, None)
    ensures forall t :: t in place && t != p ==> place[t].chain != place[p].chain
  {
    WalkEnds(ends, place, p);
    ChainSplit(ends, place, p);
  }

  // ---------------------------------------------------------------- cutting a link off from both neighbours

  /** Link `x` goes and its chain falls apart into what stood below it and what stood above. */
  function Sever(ends: map<nat, Ends>, x: nat): map<nat, Ends> {
    map s | s in ends && s != x ::
      Ends(if ends[s].primary == Some(x) then None else ends[s].primary,
           if ends[s].backup == Some(x) then None else ends[s].backup)
  }

  ghost function SeveredPlace(place: map<nat, Place>, x: nat, chain: nat): map<nat, Place> {
    map s | s in place && s != x :: if Below(place, x, s) then Place(chain, place[s].rank) else place[s]
  }

  lemma {:induction false} SeverOk(ends: map<nat, Ends>, place: map<nat, Place>, x: nat, chain: nat)
    requires ChainsOk(ends, place) && x in ends
    requires forall s :: s in place ==> place[s].chain != chain
    ensures ChainsOk(Sever(ends, x), SeveredPlace(place, x, chain))
  {
    var e, q := Sever(ends, x), SeveredPlace(place, x, chain);
    forall s | s in e ensures UpOk(e, s) && DownOk(e, s) && RankOk(e, q, s) {
      assert UpOk(ends, s) && DownOk(ends, s) && RankOk(ends, place, s);
      assert GapOk(ends, place, x, s);
      if ends[s].primary.Some? {
        assert GapOk(ends, place, x, ends[s].primary.value);
      }
    }
    forall a, b | a in e && b in e ensures GapOk(e, q, a, b) {
      assert GapOk(ends, place, a, b) && GapOk(ends, place, a, x) && GapOk(ends, place, x, b);
      assert RankOk(ends, place, b) && DownOk(ends, a);
      if ends[a].backup.Some? {
        assert RankOk(ends, place, ends[a].backup.value);
      }
    }
  }

  // ---------------------------------------------------------------- adding a link that is in the table

  /** The walk for the place behind link `q`: down its chain, but not past a link whose backup is `p`. */
  ghost function PlaceBehind(ends: map<nat, Ends>, place: map<nat, Place>, q: nat, p: nat): (r: nat)
    requires ChainsOk(ends, place) && q in ends && p in ends && q != p
    ensures r in ends && r != p && SameChain(place, r, q) && (ends[r].backup.None? || ends[r].backup == Some(p))
    decreases Higher(place, q)
  {
    if ends[q].backup.None? || ends[q].backup == Some(p) then q
    else WalkDown(ends, place, q); PlaceBehind(ends, place, ends[q].backup.value, p)
  }

  /** Link `p` is added again, behind `named` if that is given: its pointers are cleared and then set anew. */
  ghost function Readd(ends: map<nat, Ends>, place: map<nat, Place>, p: nat, named: Option<nat>): map<nat, Ends>
    requires ChainsOk(ends, place) && p in ends && (named.Some? ==> named.value in ends && named.value != p)
  {
    if named.None? then Alone(ends, p)
    else
      var q := PlaceBehind(ends, place, named.value, p);
      ends[p := Ends(Some(q), None)][q := ends[q].(backup := Some(p))]
  }

  /** Link `p` has no backup, and no primary either unless it is added behind a link above it in its own chain. */
  predicate Readdable(ends: map<nat, Ends>, place: map<nat, Place>, p: nat, named: Option<nat>) {
    p in ends && ends[p].backup.None? && (ends[p].primary.None? || (named.Some? && Below(place, named.value, p)))
  }

  /** From above `p` the walk comes to the primary of `p`; from anywhere else to the end of the chain. */
  lemma {:induction false} PlaceBehindIs(ends: map<nat, Ends>, place: map<nat, Place>, q: nat, p: nat)
    requires ChainsOk(ends, place) && q in ends && p in ends && q != p
    ensures if Below(place, q, p) then ends[p].primary == Some(PlaceBehind(ends, place, q, p))
            else ends[PlaceBehind(ends, place, q, p)].backup.None?
    decreases Higher(place, q)
  {
    if ends[q].backup == Some(p) {
      assert DownOk(ends, q) && RankOk(ends, place, p);
    } else if ends[q].backup.Some? {
      WalkDown(ends, place, q);
      PlaceBehindIs(ends, place, ends[q].backup.value, p);
      assert Below(place, q, p) || !Below(place, ends[q].backup.value, p);
    } else {
      WalkEnds(ends, place, q);
    }
  }

  /** What becomes of the chains: nothing changes, or a link that stood alone goes to the end of another chain. */
  lemma {:induction false} ReaddOk(ends: map<nat, Ends>, place: map<nat, Place>, p: nat, named: Option<nat>)
    requires ChainsOk(ends, place) && p in ends && (named.Some? ==> named.value in ends && named.value != p)
    requires Readdable(ends, place, p, named)
    ensures ends[p].primary.Some? || named.None? ==> Readd(ends, place, p, named) == ends
    ensures ends[p].primary.None? && named.Some? ==>
              var q := PlaceBehind(ends, place, named.value, p);
              && ends[q].backup.None? && Readd(ends, place, p, named) == Append(ends - {p}, p, q)
              && ChainsOk(Readd(ends, place, p, named), PlacedBehind(place, p, q))
  {
    if named.Some? {
      var q := PlaceBehind(ends, place, named.value, p);
      PlaceBehindIs(ends, place, named.value, p);
      assert UpOk(ends, p);
      if ends[p].primary.None? {
        WalkEnds(ends, place, p);
        ExpireOk(ends, place, p);
        AppendOk(ends - {p}, place - {p}, p, q);
      }
    }
  }

  /**
   Adding a link that is in the table again keeps the pointers inverse exactly if it has no backup, and
   no primary either unless it is added behind a link above it in its own chain.
   */
  lemma {:induction false} ReaddExact(ends: map<nat, Ends>, place: map<nat, Place>, p: nat, named: Option<nat>)
    requires ChainsOk(ends, place) && p in ends && (named.Some? ==> named.value in ends && named.value != p)
    ensures Inverse(Readd(ends, place, p, named)) <==> Readdable(ends, place, p, named)
  {
    var e := Readd(ends, place, p, named);
    NotOwnNeighbour(ends, place, p);
    assert UpOk(ends, p) && DownOk(ends, p);
    if Readdable(ends, place, p, named) {
      ReaddOk(ends, place, p, named);
    } else {
      if named.Some? {
        PlaceBehindIs(ends, place, named.value, p);
      }
      if ends[p].backup.Some? {
        assert !UpOk(e, ends[p].backup.value);
      } else {
        assert !DownOk(e, ends[p].primary.value);
      }
    }
  }

  /**
   In a chain of two links: adding the second again behind the first changes nothing; adding it without a
   primary, or the first in any way, breaks the chain, and the first behind the second makes a cycle.
   Dropping either breaks it too.
   */
  lemma {:induction false} TwoLinkChain()
    ensures var ends := map[0 := Ends(None, Some(1)), 1 := Ends(Some(0), None)];
            var place := map[0 := Place(0, 0), 1 := Place(0, 1)];
            && ChainsOk(ends, place)
            && Readd(ends, place, 1, Some(0)) == ends
            && !Inverse(Readd(ends, place, 1, None)) && !Inverse(Readd(ends, place, 0, None))
            && Readd(ends, place, 0, Some(1))[0].primary == Some(1) && Readd(ends, place, 0, Some(1))[1].primary == Some(0)
            && !Inverse(Readd(ends, place, 0, Some(1)))
            && !Inverse(ends - {0}) && !Inverse(ends - {1})
  {
    var ends: map<nat, Ends> := map[0 := Ends(None, Some(1)), 1 := Ends(Some(0), None)];
    var place: map<nat, Place> := map[0 := Place(0, 0), 1 := Place(0, 1)];
    assert ChainsOk(ends, place);
    ReaddOk(ends, place, 1, Some(0));
    ReaddExact(ends, place, 1, None);
    ReaddExact(ends, place, 0, None);
    ReaddExact(ends, place, 0, Some(1));
    ExpireExact(ends, place, 0);
    ExpireExact(ends, place, 1);
  }
}
