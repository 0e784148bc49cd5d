/**
 Drawing the map of the network: from a locked root, every destination whose chain of neighbours leads
 to the root is printed below it, whatever the neighbours say, cycles included.
 */
module MapTraversal {
  import opened ServerState

  /** A destination as the map sees it: its name, its neighbour towards us, and whether it has a route. */
  datatype Node = Node(name: Name, neighbour: Name, live: bool)

  predicate Child(nodes: seq<Node>, u: nat, v: nat) {
    u < |nodes| && v < |nodes| && nodes[v].live && nodes[v].neighbour == nodes[u].name
  }

  predicate Open(nodes: seq<Node>, locked: seq<bool>, v: nat) {
    v < |nodes| && v < |locked| && nodes[v].live && !locked[v]
  }

  /** From `v` a chain of `k` open destinations and then `d` follows, each the neighbour of the one before. */
  ghost predicate LeadsIn(nodes: seq<Node>, locked: seq<bool>, d: nat, v: nat, k: nat)
    decreases k
  {
    && Open(nodes, locked, v)
    && if k == 0 then Child(nodes, d, v)
       else exists u: nat :: LeadsIn(nodes, locked, d, u, k - 1) && Child(nodes, u, v)
  }

  /** The chain of neighbours of `v` leads through open destinations to `d`. */
  ghost predicate Leads(nodes: seq<Node>, locked: seq<bool>, d: nat, v: nat) {
    exists k: nat :: LeadsIn(nodes, locked, d, v, k)
  }

  ghost predicate More(before: seq<bool>, after: seq<bool>) {
    |after| == |before| && forall v :: 0 <= v < |before| && before[v] ==> after[v]
  }

  /** What leads to `e` leads on to `d`, if `e` is an open child of `d`. */
  lemma {:induction false} LeadsOn(nodes: seq<Node>, locked: seq<bool>, after: seq<bool>, d: nat, e: nat, v: nat, k: nat)
    requires More(locked, after) && Open(nodes, locked, e) && Child(nodes, d, e) && LeadsIn(nodes, after, e, v, k)
    ensures LeadsIn(nodes, locked, d, v, k + 1)
    decreases k
  {
    if k == 0 {
      assert LeadsIn(nodes, locked, d, e, 0);
    } else {
      var u: nat :| LeadsIn(nodes, after, e, u, k - 1) && Child(nodes, u, v);
      LeadsOn(nodes, locked, after, d, e, u, k - 1);
    }
  }

  /** Every child of `u` is locked, of those below `n`. */
  ghost predicate Exhausted(nodes: seq<Node>, locked: seq<bool>, u: nat, n: nat) {
    forall v: nat {:trigger Child(nodes, u, v)} :: v < n && v < |locked| && Child(nodes, u, v) ==> locked[v]
  }

  /** If `d` and everything that was printed has no child left, nothing that leads to `d` was missed. */
  lemma {:induction false} NoneMissed(nodes: seq<Node>, locked: seq<bool>, after: seq<bool>, out: seq<nat>, d: nat, v: nat, k: nat)
    requires |locked| == |nodes| && Added(locked, after, out) && LeadsIn(nodes, locked, d, v, k)
    requires Exhausted(nodes, after, d, |nodes|)
    requires forall u :: u in out ==> Exhausted(nodes, after, u, |nodes|)
    ensures v in out
    decreases k
  {
    if k > 0 {
      var u: nat :| LeadsIn(nodes, locked, d, u, k - 1) && Child(nodes, u, v);
      NoneMissed(nodes, locked, after, out, d, u, k - 1);
    }
    assert after[v];
  }

  /** Exactly the destinations in `out`, each once, were locked in addition. */
  ghost predicate Added(locked: seq<bool>, after: seq<bool>, out: seq<nat>) {
    && |after| == |locked|
    && (forall v :: v in out ==> v < |locked| && !locked[v])
    && (forall v :: 0 <= v < |locked| ==> (after[v] <==> locked[v] || v in out))
    && (forall i, j :: 0 <= i < j < |out| ==> out[i] != out[j])
  }

  lemma {:induction false} AddedOne(locked: seq<bool>, mid: seq<bool>, out: seq<nat>, v: nat)
    requires Added(locked, mid, out) && v < |mid| && !mid[v]
    ensures Added(locked, mid[v := true], out + [v]) && Free(mid[v := true]) < Free(mid)
  {
    FreeLess(mid, v);
  }

  lemma {:induction false} AddedMore(locked: seq<bool>, mid: seq<bool>, after: seq<bool>, out: seq<nat>, more: seq<nat>)
    requires Added(locked, mid, out) && Added(mid, after, more)
    ensures Added(locked, after, out + more) && More(mid, after) && Free(after) <= Free(mid)
  {
    FreeMore(mid, after);
    var all := out + more;
    forall i, j | 0 <= i < j < |all| ensures all[i] != all[j] {
      assert all[i] == if i < |out| then out[i] else more[i - |out|];
      assert all[j] == if j < |out| then out[j] else more[j - |out|];
      assert i < |out| ==> out[i] in out;
      assert j >= |out| ==> more[j - |out|] in more;
    }
  }

  /** How many destinations are not locked. */
  function Free(locked: seq<bool>): nat {
    if locked == [] then 0 else Free(locked[..|locked| - 1]) + if locked[|locked| - 1] then 0 else 1
  }

  lemma {:induction false} FreeMore(before: seq<bool>, after: seq<bool>)
    requires More(before, after)
    ensures Free(after) <= Free(before)
  {
    if before != [] {
      FreeMore(before[..|before| - 1], after[..|after| - 1]);
    }
  }

  lemma {:induction false} FreeLess(locked: seq<bool>, v: nat)
    requires v < |locked| && !locked[v]
    ensures Free(locked[v := true]) < Free(locked)
  {
    var n := |locked| - 1;
    if v < n {
      FreeLess(locked[..n], v);
      assert locked[v := true][..n] == locked[..n][v := true];
    } else {
      assert locked[v := true][..n] == locked[..n];
    }
  }

  class Atlas {
    const nodes: seq<Node>
    var locked: seq<bool>
    var printed: seq<nat>

    constructor (list: seq<Node>)
      ensures nodes == list && |locked| == |list| && printed == [] && forall v :: 0 <= v < |list| ==> !locked[v]
    {
      nodes, locked, printed := list, seq(|list|, _ => false), [];
    }

    /** The map below a neighbour: its own destination is locked first. */
    method DrawBehind(root: nat) returns (ghost out: seq<nat>)
      requires |locked| == |nodes| && root < |nodes|
      modifies this`locked, this`printed
      ensures printed == old(printed) + out && Added(old(locked)[root := true], locked, out) && root !in out
      ensures forall v: nat :: v in out <==> Leads(nodes, old(locked)[root := true], root, v)
    {
      locked := locked[root := true];
      out := PrintBehind(root);
    }

    /** Prints what lies behind `d`: exactly the open destinations that lead to it, each once. */
    method PrintBehind(d: nat) returns (ghost out: seq<nat>)
      requires |locked| == |nodes| && d < |nodes|
      modifies this`locked, this`printed
      ensures printed == old(printed) + out && Added(old(locked), locked, out)
      ensures forall v: nat :: v in out <==> Leads(nodes, old(locked), d, v)
      ensures Exhausted(nodes, locked, d, |nodes|) && forall u :: u in out ==> Exhausted(nodes, locked, u, |nodes|)
      decreases Free(locked)
    {
      ghost var was := locked;
      out := [];
      for i := 0 to |nodes|
        invariant printed == old(printed) + out && Added(was, locked, out) && Free(locked) <= Free(was)
        invariant Exhausted(nodes, locked, d, i) && forall u :: u in out ==> Exhausted(nodes, locked, u, |nodes|)
        invariant forall v :: v in out ==> Leads(nodes, was, d, v)
      {
        if locked[i] || !nodes[i].live || nodes[i].neighbour != nodes[d].name {
          continue;
        }
        ghost var before := out;
        AddedOne(was, locked, out, i);
        printed := printed + [i];
        locked := locked[i := true];
        out := out + [i];
        ghost var mid := locked;
        var more := PrintBehind(i);
        AddedMore(was, mid, locked, out, more);
        Behind(nodes, was, mid, d, i, more);
        out := out + more;
      }
      forall v: nat | Leads(nodes, was, d, v) ensures v in out {
        var k: nat :| LeadsIn(nodes, was, d, v, k);
        NoneMissed(nodes, was, locked, out, d, v, k);
      }
    }
  }

  /** A child, and what was printed behind it, leads to `d`. */
  lemma {:induction false} Behind(nodes: seq<Node>, locked: seq<bool>, mid: seq<bool>, d: nat, e: nat, more: seq<nat>)
    requires More(locked, mid) && Open(nodes, locked, e) && Child(nodes, d, e)
    requires forall v :: v in more ==> Leads(nodes, mid, e, v)
    ensures Leads(nodes, locked, d, e) && forall v :: v in more ==> Leads(nodes, locked, d, v)
  {
    assert LeadsIn(nodes, locked, d, e, 0);
    forall v | v in more ensures Leads(nodes, locked, d, v) {
      var k: nat :| LeadsIn(nodes, mid, e, v, k);
      LeadsOn(nodes, locked, mid, d, e, v, k);
    }
  }
}
