/**
 Going through the connections in the order of their names with nothing but a lock flag on each and
 the last one handed out, and counting users that way.
 */
module Enumeration {
  import opened Common
  import opened ServerState

  /** A connection as far as the order goes; names are case-folded. */
  datatype Entry = Entry(name: Name, host: Name, user: bool)

  predicate SameKey(a: Entry, b: Entry) {
    a.name == b.name && a.host == b.host
  }

  predicate KeyBefore(a: Entry, b: Entry) {
    Before(a.name, b.name) || (a.name == b.name && Before(a.host, b.host))
  }

  /** The order of the connections `a` and `b` of a list: by name and host, and of equal ones the later first. */
  predicate Precedes(conns: seq<Entry>, a: int, b: int) {
    && 0 <= a < |conns| && 0 <= b < |conns|
    && (KeyBefore(conns[a], conns[b]) || (SameKey(conns[a], conns[b]) && b < a))
  }

  lemma {:induction false} PrecedesTotal(conns: seq<Entry>, a: nat, b: nat)
    requires a < |conns| && b < |conns|
    ensures a == b || Precedes(conns, a, b) || Precedes(conns, b, a)
    ensures !(Precedes(conns, a, b) && Precedes(conns, b, a))
  {
    BeforeTotal(conns[a].name, conns[b].name);
    BeforeTotal(conns[a].host, conns[b].host);
  }

  lemma {:induction false} PrecedesTransitive(conns: seq<Entry>, a: int, b: int, c: int)
    requires Precedes(conns, a, b) && Precedes(conns, b, c)
    ensures Precedes(conns, a, c)
  {
    if Before(conns[a].name, conns[b].name) && Before(conns[b].name, conns[c].name) {
      BeforeTransitive(conns[a].name, conns[b].name, conns[c].name);
    }
    if Before(conns[a].host, conns[b].host) && Before(conns[b].host, conns[c].host) {
      BeforeTransitive(conns[a].host, conns[b].host, conns[c].host);
    }
  }

  /** `order` goes through its connections in order, and in front of all it does not hold. */
  ghost predicate Ordered(conns: seq<Entry>, order: seq<nat>) {
    && (forall i :: 0 <= i < |order| ==> order[i] < |conns|)
    && (forall i, j :: 0 <= i < j < |order| ==> Precedes(conns, order[i], order[j]))
    && (forall i, q :: 0 <= i < |order| && 0 <= q < |conns| && q !in order ==> Precedes(conns, order[i], q))
  }

  /** `best` comes first among the unlocked connections below `k`; if it is locked, there are none. */
  ghost predicate BestOf(conns: seq<Entry>, locked: seq<bool>, best: nat, k: nat)
    requires |locked| == |conns|
  {
    && best < |conns| && k <= |conns|
    && (if locked[best] then forall q :: 0 <= q < k ==> locked[q]
        else (best == 0 || best < k) && forall q :: 0 <= q < k && !locked[q] && q != best ==> Precedes(conns, best, q))
  }

  /** A new candidate: it takes over unless its key is greater. */
  lemma {:induction false} BestStep(conns: seq<Entry>, locked: seq<bool>, best: nat, k: nat)
    requires |locked| == |conns| && BestOf(conns, locked, best, k) && k < |conns|
    ensures var next := if best == k || locked[k] then best
                        else if locked[best] || !KeyBefore(conns[best], conns[k]) then k else best;
            BestOf(conns, locked, next, k + 1)
  {
    PrecedesTotal(conns, best, k);
    if best != k && !locked[k] && !locked[best] && !KeyBefore(conns[best], conns[k]) {
      assert Precedes(conns, k, best);
      forall q | 0 <= q < k && !locked[q] && q != best ensures Precedes(conns, k, q) {
        PrecedesTransitive(conns, k, best, q);
      }
    }
  }

  /** Handing out the first unlocked connection keeps the order. */
  lemma {:induction false} OrderedNext(conns: seq<Entry>, order: seq<nat>, best: nat)
    requires Ordered(conns, order) && best < |conns| && best !in order
    requires forall q :: 0 <= q < |conns| && q !in order && q != best ==> Precedes(conns, best, q)
    ensures Ordered(conns, order + [best])
  {}

  /** In an order of all connections each stands exactly once. */
  lemma {:induction false} OnceEach(conns: seq<Entry>, order: seq<nat>)
    requires Ordered(conns, order) && forall q :: 0 <= q < |conns| ==> q in order
    ensures |order| == |conns|
    ensures forall i, j :: 0 <= i < j < |order| ==> order[i] != order[j]
  {
    assert forall i, j :: 0 <= i < j < |order| ==> order[i] != order[j] by {
      forall i, j | 0 <= i < j < |order| ensures order[i] != order[j] {
        PrecedesTotal(conns, order[i], order[j]);
      }
    }
    DistinctSize(order);
    assert Elements(order) == Indices(|conns|);
  }

  ghost function Indices(n: nat): (s: set<nat>)
    ensures |s| == n && forall q: nat :: q in s <==> q < n
  {
    if n == 0 then {} else Indices(n - 1) + {n - 1}
  }

  ghost function Elements(s: seq<nat>): (r: set<nat>)
    ensures forall x :: x in r <==> x in s
  {
    if s == [] then {} else Elements(s[..|s| - 1]) + {s[|s| - 1]}
  }

  lemma {:induction false} DistinctSize(s: seq<nat>)
    requires forall i, j :: 0 <= i < j < |s| ==> s[i] != s[j]
    ensures |Elements(s)| == |s|
  {
    if s != [] {
      DistinctSize(s[..|s| - 1]);
      assert s[|s| - 1] !in s[..|s| - 1];
    }
  }

  /** Connections that are the first of their key in the list, are users, and are at `host`, if one is given. */
  ghost function Firsts(conns: seq<Entry>, host: Option<Name>): set<nat> {
    set i: nat | i < |conns| && conns[i].user && (host.None? || host == Some(conns[i].host)) && IsFirst(conns, i)
  }

  ghost predicate IsFirst(conns: seq<Entry>, i: nat) {
    i < |conns| && forall j :: 0 <= j < i ==> !SameKey(conns[j], conns[i])
  }

  /** The different users at `host`, by name and host. */
  ghost function Users(conns: seq<Entry>, host: Option<Name>): set<(Name, Name)> {
    set i: nat | i < |conns| && conns[i].user && (host.None? || host == Some(conns[i].host)) :: KeyOf(conns, i)
  }

  /** No entry that is not a user's stands in front of all entries of a user with its name and host. */
  ghost predicate NoShadow(conns: seq<Entry>, host: Option<Name>) {
    forall i: nat :: i < |conns| && conns[i].user && (host.None? || host == Some(conns[i].host)) ==>
      exists j: nat :: j in Firsts(conns, host) && SameKey(conns[j], conns[i])
  }

  /** Where the next in order has another key, we are at the first of the list; and only there. */
  lemma {:induction false} LastOfKey(conns: seq<Entry>, order: seq<nat>, i: nat)
    requires Ordered(conns, order) && i < |order|
    requires i + 1 < |order| || forall q :: 0 <= q < |conns| ==> q in order
    ensures IsFirst(conns, order[i]) <==> !(i + 1 < |order| && SameKey(conns[order[i]], conns[order[i + 1]]))
  {
    var p := order[i];
    if i + 1 < |order| && SameKey(conns[p], conns[order[i + 1]]) {
      assert Precedes(conns, p, order[i + 1]);
      Sandwich(conns[p], conns[order[i + 1]]);
    } else {
      forall j | 0 <= j < p ensures !SameKey(conns[j], conns[p]) {
        if i + 1 < |order| {
          Between(conns, order, i, j);
        } else {
          BeforeLast(conns, order, j);
          PrecedesTotal(conns, p, j);
        }
      }
    }
  }

  lemma {:induction false} BeforeLast(conns: seq<Entry>, order: seq<nat>, j: nat)
    requires Ordered(conns, order) && j in order && j != order[|order| - 1]
    ensures Precedes(conns, j, order[|order| - 1])
  {
    var m :| 0 <= m < |order| && order[m] == j;
    assert m < |order| - 1;
  }

  /** An earlier entry of the list with the same key comes later, and everything between them has that key too. */
  lemma {:induction false} Between(conns: seq<Entry>, order: seq<nat>, i: nat, j: nat)
    requires Ordered(conns, order) && i + 1 < |order| && j < order[i]
    ensures SameKey(conns[j], conns[order[i]]) ==> SameKey(conns[order[i]], conns[order[i + 1]])
  {
    var p, n := order[i], order[i + 1];
    assert Precedes(conns, p, n);
    PrecedesTotal(conns, p, j);
    if SameKey(conns[j], conns[p]) && j != n {
      assert Precedes(conns, p, j);
      assert Precedes(conns, n, j) by {
        if j in order {
          var m :| 0 <= m < |order| && order[m] == j;
          assert m > i + 1;
        }
      }
      Sandwich(conns[p], conns[n]);
    }
  }

  lemma {:induction false} Sandwich(a: Entry, b: Entry)
    ensures KeyBefore(a, b) ==> !KeyBefore(b, a) && !SameKey(a, b)
  {
    BeforeTotal(a.name, b.name);
    BeforeTotal(a.host, b.host);
  }

  /**
   The count of first entries never exceeds the number of different users, and is equal to it exactly
   when no user is shadowed by an entry that is not a user's.
   */
  lemma {:induction false} CountExact(conns: seq<Entry>, host: Option<Name>)
    ensures |Firsts(conns, host)| <= |Users(conns, host)|
    ensures |Firsts(conns, host)| == |Users(conns, host)| <==> NoShadow(conns, host)
  {
    var firsts, users := Firsts(conns, host), Users(conns, host);
    var keys := Keys(conns, firsts);
    KeysSize(conns, firsts);
    assert keys <= users;
    SubsetSize(keys, users);
    if keys == users {
      forall i: nat | i < |conns| && conns[i].user && (host.None? || host == Some(conns[i].host))
        ensures exists j: nat :: j in firsts && SameKey(conns[j], conns[i])
      {
        assert KeyOf(conns, i) in keys;
      }
    }
    if NoShadow(conns, host) {
      forall i: nat | i < |conns| && conns[i].user && (host.None? || host == Some(conns[i].host)) ensures KeyOf(conns, i) in keys {
        var j: nat :| j in firsts && SameKey(conns[j], conns[i]);
        assert KeyOf(conns, j) == KeyOf(conns, i);
      }
    }
  }

  /** They do differ: a closed entry in front of its live twin hides the user. */
  lemma {:induction false} HiddenByTwin(name: Name, host: Name)
    ensures var conns := [Entry(name, host, false), Entry(name, host, true)];
            |Firsts(conns, None)| == 0 && |Users(conns, None)| == 1
  {
    var conns := [Entry(name, host, false), Entry(name, host, true)];
    assert SameKey(conns[0], conns[1]);
    assert Firsts(conns, None) == {};
    assert KeyOf(conns, 1) in Users(conns, None);
    assert Users(conns, None) == {(name, host)};
  }

  lemma {:induction false} SubsetSize<T>(a: set<T>, b: set<T>)
    requires a <= b
    ensures |a| <= |b| && (|a| == |b| <==> a == b)
  {
    assert b == a + (b - a);
  }

  function KeyOf(conns: seq<Entry>, i: nat): (Name, Name) {
    if i < |conns| then (conns[i].name, conns[i].host) else ([], [])
  }

  ghost function Keys(conns: seq<Entry>, firsts: set<nat>): set<(Name, Name)> {
    set i | i in firsts :: KeyOf(conns, i)
  }

  /** First entries have different keys. */
  lemma {:induction false} KeysSize(conns: seq<Entry>, firsts: set<nat>)
    requires forall i :: i in firsts ==> IsFirst(conns, i)
    ensures |Keys(conns, firsts)| == |firsts|
  {
    if i :| i in firsts {
      var rest := firsts - {i};
      KeysSize(conns, rest);
      forall j | j in rest ensures KeyOf(conns, j) != KeyOf(conns, i) {
        assert IsFirst(conns, i) && IsFirst(conns, j);
        assert i < j || j < i;
      }
      assert Keys(conns, firsts) == Keys(conns, rest) + {KeyOf(conns, i)};
    }
  }

  /** If no entry of another kind shares its name and host with a user, no user is shadowed. */
  lemma {:induction false} NoTwins(conns: seq<Entry>, host: Option<Name>)
    requires forall i, j :: 0 <= i < |conns| && 0 <= j < |conns| && conns[i].user && SameKey(conns[i], conns[j]) ==> conns[j].user
    ensures NoShadow(conns, host)
  {
    forall i: nat | i < |conns| && conns[i].user && (host.None? || host == Some(conns[i].host))
      ensures exists j: nat :: j in Firsts(conns, host) && SameKey(conns[j], conns[i])
    {
      var j := FirstOf(conns, i);
      assert j in Firsts(conns, host);
    }
  }

  lemma {:induction false} FirstOf(conns: seq<Entry>, i: nat) returns (j: nat)
    requires i < |conns|
    ensures IsFirst(conns, j) && SameKey(conns[j], conns[i])
    decreases i
  {
    if k: nat :| k < i && SameKey(conns[k], conns[i]) {
      j := FirstOf(conns, k);
    } else {
      j := i;
    }
  }

  class Roster {
    var conns: seq<Entry>
    var locked: seq<bool>
    var last: Option<nat>
    ghost var order: seq<nat>   // what was handed out since the start

    ghost predicate Valid()
      reads this
    {
      && |locked| == |conns| && (last.Some? ==> last.value in order)
      && Ordered(conns, order) && (forall i :: 0 <= i < |conns| ==> (locked[i] <==> i in order))
    }

    constructor (list: seq<Entry>)
      ensures Valid() && conns == list
    {
      conns, locked, last, order := list, seq(|list|, _ => false), None, [];
    }

    /** The next connection in order: from the beginning, or after the last one. */
    method Next(start: bool) returns (r: Option<nat>)
      requires |locked| == |conns| && (start || Valid())
      modifies this`locked, this`last, this`order
      ensures Valid() && last == r
      ensures var before := if start then [] else old(order);
              if r.Some? then order == before + [r.value]
              else order == before && ((start || old(last).Some?) ==> forall q :: 0 <= q < |conns| ==> q in order)
    {
      if start {
        locked, order := seq(|locked|, _ => false), [];
      }
      if (start && conns == []) || (!start && last.None?) {
        last := None;
        return None;
      }
      var best := Search(if start then 0 else last.value);
      if locked[best] {
        last := None;
        return None;
      }
      OrderedNext(conns, order, best);
      last := Some(best);
      locked, order := locked[best := true], order + [best];
      r := last;
    }

    /** The search for the next one, starting from a given candidate. */
    method Search(first: nat) returns (best: nat)
      requires |locked| == |conns| && first < |conns| && (locked[first] || first == 0)
      ensures BestOf(conns, locked, best, |conns|)
    {
      best := first;
      for k := 0 to |conns|
        invariant BestOf(conns, locked, best, k)
      {
        BestStep(conns, locked, best, k);
        if best == k || locked[k] {
          continue;
        }
        if locked[best] {
          best := k;
          continue;
        }
        if Before(conns[best].name, conns[k].name) ||
           (conns[k].name == conns[best].name && Before(conns[best].host, conns[k].host))
        {
          continue;
        }
        best := k;
      }
    }

    /** From the start to the end: every connection, once, in order. */
    method Enumerate() returns (all: seq<nat>)
      requires |locked| == |conns|
      modifies this`locked, this`last, this`order
      ensures Valid() && Ordered(conns, all) && |all| == |conns|
      ensures forall q :: 0 <= q < |conns| ==> q in all
      ensures forall i, j :: 0 <= i < j < |all| ==> all[i] != all[j]
    {
      var p := Next(true);
      all := [];
      while p.Some?
        invariant Valid() && last == p
        invariant if p.Some? then order == all + [p.value] else order == all && forall q :: 0 <= q < |conns| ==> q in order
        decreases |conns| - |all| + 1
      {
        all := all + [p.value];
        NotTooMany(conns, order);
        p := Next(false);
      }
      OnceEach(conns, all);
    }

    /** Counts the users at `host`, or all of them. */
    method CountUsers(host: Option<Name>) returns (n: nat)
      requires |locked| == |conns|
      modifies this`locked, this`last, this`order
      ensures Valid() && n == |Firsts(conns, host)|
      ensures n == |Users(conns, host)| <==> NoShadow(conns, host)
    {
      n := CountFirsts(host);
      CountExact(conns, host);
      locked, last, order := seq(|locked|, _ => false), None, [];
    }

    /** Goes through the connections and looks only at each and the next. */
    method CountFirsts(host: Option<Name>) returns (n: nat)
      requires |locked| == |conns|
      modifies this`locked, this`last, this`order
      ensures Valid() && n == |Firsts(conns, host)|
    {
      n := 0;
      var p := Next(true);
      ghost var done: seq<nat>, counted: set<nat> := [], {};
      while p.Some?
        invariant Valid() && last == p
        invariant if p.Some? then order == done + [p.value] else order == done && forall q :: 0 <= q < |conns| ==> q in order
        invariant n == |counted| && Tally(conns, host, done, counted)
        decreases |conns| - |done| + 1
      {
        NotTooMany(conns, order);
        TallyStep(conns, host, done, counted, p.value);
        var next := Next(false);
        LastOfKey(conns, order, |done|);
        var e := conns[p.value];
        if e.user && (host.None? || host == Some(e.host)) && !(next.Some? && SameKey(e, conns[next.value])) {
          n := n + 1;
          counted := counted + {p.value};
        }
        done := done + [p.value];
        p := next;
      }
      assert counted == Firsts(conns, host);
    }
  }

  /** The first entries among those that were looked at. */
  ghost predicate Tally(conns: seq<Entry>, host: Option<Name>, done: seq<nat>, counted: set<nat>) {
    forall x :: x in counted <==> x in done && x in Firsts(conns, host)
  }

  lemma {:induction false} TallyStep(conns: seq<Entry>, host: Option<Name>, done: seq<nat>, counted: set<nat>, p: nat)
    requires Ordered(conns, done + [p]) && Tally(conns, host, done, counted)
    ensures p in Firsts(conns, host) ==>
              Tally(conns, host, done + [p], counted + {p}) && |counted + {p}| == |counted| + 1
    ensures p !in Firsts(conns, host) ==> Tally(conns, host, done + [p], counted)
  {
    NotTwice(conns, done, p);
  }

  lemma {:induction false} NotTwice(conns: seq<Entry>, done: seq<nat>, p: nat)
    requires Ordered(conns, done + [p])
    ensures p !in done
  {
    forall i | 0 <= i < |done| ensures done[i] != p {
      assert (done + [p])[i] == done[i] && (done + [p])[|done|] == p;
      PrecedesTotal(conns, done[i], p);
    }
  }

  lemma {:induction false} NotTooMany(conns: seq<Entry>, order: seq<nat>)
    requires Ordered(conns, order)
    ensures |order| <= |conns|
  {
    forall i, j | 0 <= i < j < |order| ensures order[i] != order[j] {
      PrecedesTotal(conns, order[i], order[j]);
    }
    DistinctSize(order);
    SubsetSize(Elements(order), Indices(|conns|));
  }
}
