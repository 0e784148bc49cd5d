/**
 A channel message in the whole network. Hosts form a tree; each handles a message the way
 `ChannelCast.Switchboard.Relay` does, by its user table. Messages travel in any order.

 A tree is given by numbering the hosts so that each but host 0 hangs on a host of smaller number.
 */
module TreeCast {
  import opened Common
  import opened ChannelCast

  type Tree = t: seq<nat> | IsTree(t) witness [0]

  predicate IsTree(t: seq<nat>) {
    |t| > 0 && forall x :: 0 < x < |t| ==> t[x] < x
  }

  // ---------------------------------------------------------------- paths in a tree

  predicate Linked(t: Tree, x: nat, y: nat) {
    x < |t| && y < |t| && ((x < y && t[y] == x) || (y < x && t[x] == y))
  }

  /** The neighbour of `x` on the way to `y`. */
  function Hop(t: Tree, x: nat, y: nat): (h: nat)
    requires x < |t| && y < |t| && x != y
    ensures Linked(t, x, h)
    ensures h <= x || h <= y
    decreases y
  {
    if y < x then t[x] else if t[y] == x then y else Hop(t, x, t[y])
  }

  /** The number of links between two hosts. */
  function Distance(t: Tree, x: nat, y: nat): nat
    requires x < |t| && y < |t|
    decreases x + y
  {
    if x == y then 0 else if y < x then 1 + Distance(t, t[x], y) else 1 + Distance(t, x, t[y])
  }

  lemma {:induction false} HopNearer(t: Tree, x: nat, y: nat)
    requires x < |t| && y < |t| && x != y
    ensures Distance(t, Hop(t, x, y), y) == Distance(t, x, y) - 1
    decreases y
  {
    if x < y && t[y] != x {
      HopNearer(t, x, t[y]);
    }
  }

  /** Host `h` is reached from `x` over its link to `y`. */
  predicate Beyond(t: Tree, x: nat, y: nat, h: nat)
    requires x < |t| && h < |t|
  {
    h != x && Hop(t, x, h) == y
  }

  /** A link divides the hosts: each is beyond it from exactly one of its ends. */
  lemma {:induction false} LinkDivides(t: Tree, x: nat, y: nat, h: nat)
    requires Linked(t, x, y) && h < |t|
    ensures Beyond(t, x, y, h) <==> !Beyond(t, y, x, h)
    decreases h
  {
    if y < x {
      LinkDividesUp(t, y, x, h);
    } else {
      LinkDividesUp(t, x, y, h);
    }
  }

  lemma {:induction false} LinkDividesUp(t: Tree, x: nat, y: nat, h: nat)
    requires x < y < |t| && t[y] == x && h < |t|
    ensures Beyond(t, x, y, h) <==> !Beyond(t, y, x, h)
    decreases h
  {
    if h > y {
      if t[h] == x {
        assert Hop(t, y, h) == Hop(t, y, x);
      } else if t[h] == y {
        assert Hop(t, x, h) == Hop(t, x, y);
      } else {
        LinkDividesUp(t, x, y, t[h]);
      }
    }
  }

  /** What lies beyond the next link lies beyond the last one. */
  lemma {:induction false} BeyondNarrows(t: Tree, p: nat, x: nat, y: nat, h: nat)
    requires Linked(t, p, x) && Linked(t, x, y) && y != p && h < |t| && Beyond(t, x, y, h)
    ensures Beyond(t, p, x, h)
  {
    LinkDivides(t, p, x, h);
  }

  lemma {:induction false} LinkIsHop(t: Tree, x: nat, y: nat)
    requires Linked(t, x, y)
    ensures Beyond(t, x, y, y)
  {}

  // ---------------------------------------------------------------- the network

  /** The hosts, where each user is logged in, and the state of one channel at each host. */
  datatype Net = Net(
    tree: Tree,
    home: map<nat, nat>,            // the host of every user of the network
    channel: int,
    members: set<nat>,              // the users on the channel
    known: set<nat>,                // the hosts that have the channel
    unforwarded: set<nat>,          // those that keep it off their links
    tables: seq<set<Presence>>)     // the user table of every host

  /** How host `x` reaches user `u`. */
  function Via(net: Net, x: nat, u: nat): Option<nat>
    requires x < |net.tree| && u in net.home && net.home[u] < |net.tree|
  {
    if net.home[u] == x then None else Some(Hop(net.tree, x, net.home[u]))
  }

  /** Every host knows the members, and reaches each over the link that leads to it. */
  ghost predicate Truthful(net: Net) {
    && |net.tables| == |net.tree|
    && (forall u :: u in net.members ==> u in net.home && net.home[u] < |net.tree|)
    && (forall x, r :: 0 <= x < |net.tree| && r in net.tables[x] && net.channel in r.on ==>
          r.user in net.members && r.via == Via(net, x, r.user))
    && (forall x, u :: 0 <= x < |net.tree| && u in net.members ==> Knows(net, x, u))
  }

  ghost predicate Knows(net: Net, x: nat, u: nat)
    requires x < |net.tables|
  {
    exists r :: r in net.tables[x] && r.user == u && net.channel in r.on
  }

  predicate Forwards(net: Net, x: nat) {
    x in net.known && x !in net.unforwarded
  }

  /** From `x` on, every host before `h` forwards the channel, and `h` has it. */
  predicate Open(net: Net, x: nat, h: nat)
    requires x < |net.tree| && h < |net.tree|
    decreases Distance(net.tree, x, h)
  {
    if x == h then h in net.known
    else HopNearer(net.tree, x, h); Forwards(net, x) && Open(net, Hop(net.tree, x, h), h)
  }

  /** The hosts on the way from `x` to `h`, both included. */
  function PathTo(t: Tree, x: nat, h: nat): seq<nat>
    requires x < |t| && h < |t|
    decreases Distance(t, x, h)
  {
    if x == h then [x] else HopNearer(t, x, h); [x] + PathTo(t, Hop(t, x, h), h)
  }

  /** It leads from `x` to `h` over links, and comes nearer with every step. */
  lemma {:induction false} PathLeads(t: Tree, x: nat, h: nat)
    requires x < |t| && h < |t|
    ensures var p := PathTo(t, x, h);
            && |p| == Distance(t, x, h) + 1 && p[0] == x && p[|p| - 1] == h
            && (forall i :: 0 <= i < |p| ==> p[i] < |t| && Distance(t, p[i], h) == |p| - 1 - i)
            && (forall i :: 0 <= i < |p| - 1 ==> Linked(t, p[i], p[i + 1]))
    decreases Distance(t, x, h)
  {
    if x != h {
      HopNearer(t, x, h);
      PathLeads(t, Hop(t, x, h), h);
      var p, q := PathTo(t, x, h), PathTo(t, Hop(t, x, h), h);
      assert forall i :: 1 <= i < |p| ==> p[i] == q[i - 1];
    }
  }

  /** Every host on the way but the last has the channel and does not keep it off its links, and the last has it too. */
  predicate Carried(net: Net, path: seq<nat>) {
    && (forall i :: 0 <= i < |path| - 1 ==> path[i] in net.known && path[i] !in net.unforwarded)
    && (path != [] ==> path[|path| - 1] in net.known)
  }

  lemma {:induction false} OpenMeans(net: Net, x: nat, h: nat)
    requires x < |net.tree| && h < |net.tree|
    ensures Open(net, x, h) <==> Carried(net, PathTo(net.tree, x, h))
    decreases Distance(net.tree, x, h)
  {
    if x != h {
      HopNearer(net.tree, x, h);
      var y := Hop(net.tree, x, h);
      OpenMeans(net, y, h);
      PathLeads(net.tree, y, h);
      var p, q := PathTo(net.tree, x, h), PathTo(net.tree, y, h);
      assert p[0] == x && forall i :: 1 <= i < |p| ==> p[i] == q[i - 1];
      assert forall i :: 0 <= i < |q| ==> q[i] == p[i + 1];
    }
  }

  // ---------------------------------------------------------------- runs

  datatype Msg = Msg(from: nat, to: nat)

  /** Messages under way, lines written to users, and the hosts that have handled the message. */
  datatype State = State(flying: multiset<Msg>, written: multiset<nat>, handled: set<nat>)

  function Sends(net: Net, x: nat, from: Option<nat>): set<Msg>
    requires x < |net.tables|
  {
    if Forwards(net, x) then set y | y in Onward(net.tables[x], net.channel, from) :: Msg(x, y) else {}
  }

  function Writes(net: Net, x: nat): set<nat>
    requires x < |net.tables|
  {
    if x in net.known then Locals(net.tables[x], net.channel) else {}
  }

  /** User `sender` at host `o` says something on the channel. */
  function Start(net: Net, o: nat, sender: nat): State
    requires o < |net.tables|
  {
    State(multiset(Sends(net, o, None)), multiset(Writes(net, o) - {sender}), {o})
  }

  /** One message under way arrives and is handled. */
  function Handle(net: Net, s: State, m: Msg): State
    requires m.to < |net.tables|
  {
    State(s.flying - multiset{m} + multiset(Sends(net, m.to, Some(m.from))),
          s.written + multiset(Writes(net, m.to)),
          s.handled + {m.to})
  }

  /** A run: at each step any message under way may be the next to arrive. */
  ghost predicate IsRun(net: Net, o: nat, sender: nat, run: seq<Msg>, s: State)
    requires o < |net.tables|
    decreases |run|
  {
    if run == [] then s == Start(net, o, sender)
    else
      var m := run[|run| - 1];
      m.to < |net.tables| &&
      exists s0 :: IsRun(net, o, sender, run[..|run| - 1], s0) && m in s0.flying && s == Handle(net, s0, m)
  }

  // ---------------------------------------------------------------- what every run keeps

  /** Messages under way cross links, once each, out of the handled part and into disjoint parts beyond. */
  ghost predicate Spreads(net: Net, s: State) {
    && (forall m :: m in s.flying ==> Linked(net.tree, m.from, m.to) && s.flying[m] == 1)
    && (forall h :: h in s.handled ==> h < |net.tree|)
    && (forall m, h :: m in s.flying && h in s.handled ==> !Beyond(net.tree, m.from, m.to, h))
    && (forall m, n, h :: m in s.flying && n in s.flying && m != n && 0 <= h < |net.tree| ==>
          !(Beyond(net.tree, m.from, m.to, h) && Beyond(net.tree, n.from, n.to, h)))
  }

  /** A user is written to once if its host has handled the message and has the channel, else not yet. */
  ghost predicate WrittenOnce(net: Net, s: State, sender: nat) {
    forall u :: u in net.members && u in net.home && u != sender ==>
      s.written[u] == if net.home[u] in s.handled && net.home[u] in net.known then 1 else 0
  }

  /** The message is on its way to every host it can reach, and only to those. */
  ghost predicate OnItsWay(net: Net, s: State, o: nat, u: nat)
    requires o < |net.tree| && u in net.members && Truthful(net) && Spreads(net, s)
  {
    var h := net.home[u];
    && (Open(net, o, h) ==> h in s.handled || exists m :: m in s.flying && Comes(net, m, h))
    && (h in s.handled && h in net.known ==> Open(net, o, h))
    && (forall m :: m in s.flying && Comes(net, m, h) ==> Open(net, o, h))
  }

  ghost predicate Comes(net: Net, m: Msg, h: nat)
    requires h < |net.tree| && m.from < |net.tree|
  {
    Beyond(net.tree, m.from, m.to, h) && m.to < |net.tree| && Open(net, m.to, h)
  }

  lemma {:induction false} SendsLinked(net: Net, x: nat, from: Option<nat>, n: Msg)
    requires Truthful(net) && x < |net.tree| && n in Sends(net, x, from)
    ensures n.from == x && Linked(net.tree, x, n.to) && Some(n.to) != from
  {
    var r :| r in net.tables[x] && net.channel in r.on && r.via == Some(n.to);
  }

  lemma {:induction false} SendsReach(net: Net, x: nat, from: Option<nat>, u: nat)
    requires Truthful(net) && x < |net.tree| && u in net.members && Forwards(net, x)
    requires net.home[u] != x && Some(Hop(net.tree, x, net.home[u])) != from
    ensures Msg(x, Hop(net.tree, x, net.home[u])) in Sends(net, x, from)
  {
    assert Knows(net, x, u);
    var r :| r in net.tables[x] && r.user == u && net.channel in r.on;
    assert r.via.value in Onward(net.tables[x], net.channel, from);
  }

  lemma {:induction false} WritesMembers(net: Net, x: nat, u: nat)
    requires Truthful(net) && x < |net.tree| && u in net.members
    ensures u in Writes(net, x) <==> net.home[u] == x && x in net.known
  {
    assert Knows(net, x, u);
    var r :| r in net.tables[x] && r.user == u && net.channel in r.on;
  }

  /** What every run keeps. */
  ghost predicate Kept(net: Net, s: State, o: nat, sender: nat)
    requires o < |net.tree| && Truthful(net)
  {
    && Spreads(net, s)
    && WrittenOnce(net, s, sender)
    && forall u :: u in net.members ==> OnItsWay(net, s, o, u)
  }

  lemma {:induction false} StartSpreads(net: Net, o: nat, sender: nat)
    requires Truthful(net) && o < |net.tree|
    ensures Spreads(net, Start(net, o, sender))
  {
    var s := Start(net, o, sender);
    forall m | m in s.flying ensures m.from == o && Linked(net.tree, o, m.to) && s.flying[m] == 1 {
      SendsLinked(net, o, None, m);
    }
  }

  lemma {:induction false} StartOnItsWay(net: Net, o: nat, sender: nat, u: nat)
    requires Truthful(net) && o < |net.tree| && u in net.members && Spreads(net, Start(net, o, sender))
    ensures OnItsWay(net, Start(net, o, sender), o, u)
  {
    var s, h := Start(net, o, sender), net.home[u];
    if h != o && Forwards(net, o) {
      SendsReach(net, o, None, u);
      if Open(net, o, h) {
        assert Comes(net, Msg(o, Hop(net.tree, o, h)), h);
      }
    }
    forall m | m in s.flying && Comes(net, m, h) ensures Open(net, o, h) {
      SendsLinked(net, o, None, m);
    }
  }

  lemma {:induction false} StartKeeps(net: Net, o: nat, sender: nat)
    requires Truthful(net) && o < |net.tree|
    ensures Kept(net, Start(net, o, sender), o, sender)
  {
    StartSpreads(net, o, sender);
    forall u | u in net.members ensures OnItsWay(net, Start(net, o, sender), o, u) {
      StartOnItsWay(net, o, sender, u);
    }
    forall u | u in net.members ensures u in Writes(net, o) <==> net.home[u] == o && o in net.known {
      WritesMembers(net, o, u);
    }
  }

  lemma {:induction false} NewMessage(net: Net, s: State, m: Msg, n: Msg)
    requires Truthful(net) && Spreads(net, s) && m in s.flying && n in Sends(net, m.to, Some(m.from))
    ensures n.from == m.to && Linked(net.tree, m.to, n.to) && n !in s.flying
    ensures forall h :: 0 <= h < |net.tree| && Beyond(net.tree, n.from, n.to, h) ==>
              Beyond(net.tree, m.from, m.to, h)
  {
    SendsLinked(net, m.to, Some(m.from), n);
    LinkIsHop(net.tree, m.to, n.to);
    BeyondNarrows(net.tree, m.from, m.to, n.to, n.to);
    forall h | 0 <= h < |net.tree| && Beyond(net.tree, n.from, n.to, h)
      ensures Beyond(net.tree, m.from, m.to, h)
    {
      BeyondNarrows(net.tree, m.from, m.to, n.to, h);
    }
  }

  /** Among the messages after a step, those that were under way and those that are new. */
  lemma {:induction false} FlyingAfter(net: Net, s: State, m: Msg, n: Msg)
    requires Truthful(net) && Spreads(net, s) && m in s.flying && n in Handle(net, s, m).flying
    ensures Handle(net, s, m).flying[n] == 1 && Linked(net.tree, n.from, n.to)
    ensures (n in s.flying && n != m) || n in Sends(net, m.to, Some(m.from))
  {
    if n in Sends(net, m.to, Some(m.from)) {
      NewMessage(net, s, m, n);
    }
  }

  /** Two messages after a step lead to disjoint parts. */
  lemma {:induction false} ApartAfter(net: Net, s: State, m: Msg, n: Msg, k: Msg, h: nat)
    requires Truthful(net) && Spreads(net, s) && m in s.flying && h < |net.tree| && n != k
    requires n in Handle(net, s, m).flying && k in Handle(net, s, m).flying
    requires n.from < |net.tree| && k.from < |net.tree|
    ensures !(Beyond(net.tree, n.from, n.to, h) && Beyond(net.tree, k.from, k.to, h))
  {
    FlyingAfter(net, s, m, n);
    FlyingAfter(net, s, m, k);
    if n in Sends(net, m.to, Some(m.from)) {
      NewMessage(net, s, m, n);
    }
    if k in Sends(net, m.to, Some(m.from)) {
      NewMessage(net, s, m, k);
    }
  }

  /** No message after a step leads to a handled host. */
  lemma {:induction false} AheadAfter(net: Net, s: State, m: Msg, n: Msg, h: nat)
    requires Truthful(net) && Spreads(net, s) && m in s.flying && h in Handle(net, s, m).handled
    requires n in Handle(net, s, m).flying && n.from < |net.tree| && h < |net.tree|
    ensures !Beyond(net.tree, n.from, n.to, h)
  {
    FlyingAfter(net, s, m, n);
    LinkIsHop(net.tree, m.from, m.to);
    if n in Sends(net, m.to, Some(m.from)) {
      NewMessage(net, s, m, n);
    }
  }

  lemma {:induction false} HandleSpreads(net: Net, s: State, m: Msg)
    requires Truthful(net) && Spreads(net, s) && m in s.flying
    ensures m.to !in s.handled && m.to < |net.tree|
    ensures Spreads(net, Handle(net, s, m))
  {
    LinkIsHop(net.tree, m.from, m.to);
    var s' := Handle(net, s, m);
    forall n | n in s'.flying ensures Linked(net.tree, n.from, n.to) && s'.flying[n] == 1 {
      FlyingAfter(net, s, m, n);
    }
    forall n, h | n in s'.flying && h in s'.handled ensures !Beyond(net.tree, n.from, n.to, h) {
      AheadAfter(net, s, m, n, h);
    }
    forall n, k, h | n in s'.flying && k in s'.flying && n != k && 0 <= h < |net.tree|
      ensures !(Beyond(net.tree, n.from, n.to, h) && Beyond(net.tree, k.from, k.to, h))
    {
      ApartAfter(net, s, m, n, k, h);
    }
  }

  lemma {:induction false} HandleWrites(net: Net, s: State, sender: nat, m: Msg)
    requires Truthful(net) && Spreads(net, s) && WrittenOnce(net, s, sender) && m in s.flying
    requires m.to !in s.handled && m.to < |net.tree|
    ensures WrittenOnce(net, Handle(net, s, m), sender)
  {
    forall u | u in net.members && u != sender
      ensures Handle(net, s, m).written[u]
           == if net.home[u] in s.handled + {m.to} && net.home[u] in net.known then 1 else 0
    {
      WritesMembers(net, m.to, u);
    }
  }

  lemma {:induction false} HandleOnItsWay(net: Net, s: State, o: nat, m: Msg, u: nat)
    requires Truthful(net) && Spreads(net, s) && m in s.flying && Spreads(net, Handle(net, s, m))
    requires o < |net.tree| && m.to < |net.tree| && u in net.members && OnItsWay(net, s, o, u)
    ensures OnItsWay(net, Handle(net, s, m), o, u)
  {
    var t, x, h := net.tree, m.to, net.home[u];
    var s', onward := Handle(net, s, m), Sends(net, m.to, Some(m.from));
    LinkIsHop(t, m.from, x);
    if h == x {
      assert x in net.known ==> Comes(net, m, h);
    }
    if Open(net, o, h) && h !in s'.handled {
      var n :| n in s.flying && Comes(net, n, h);
      if n == m {
        LinkDivides(t, m.from, x, h);
        SendsReach(net, x, Some(m.from), u);
        assert Comes(net, Msg(x, Hop(t, x, h)), h);
      } else {
        assert n in s'.flying;
      }
    }
    forall n | n in s'.flying && Comes(net, n, h) ensures Open(net, o, h) {
      if n in onward {
        SendsLinked(net, x, Some(m.from), n);
        BeyondNarrows(t, m.from, x, n.to, h);
        assert Comes(net, m, h);
      } else {
        assert n in s.flying;
      }
    }
  }

  lemma {:induction false} HandleKeeps(net: Net, s: State, o: nat, sender: nat, m: Msg)
    requires o < |net.tree| && Truthful(net) && Kept(net, s, o, sender) && m in s.flying
    ensures m.to !in s.handled && m.to < |net.tree|
    ensures Kept(net, Handle(net, s, m), o, sender)
    ensures |Handle(net, s, m).handled| == |s.handled| + 1
  {
    HandleSpreads(net, s, m);
    HandleWrites(net, s, sender, m);
    forall u | u in net.members ensures OnItsWay(net, Handle(net, s, m), o, u) {
      HandleOnItsWay(net, s, o, m, u);
    }
  }

  /** Every run keeps the spread, the count of lines and the reach; and no host handles the message twice. */
  lemma {:induction false} RunKeeps(net: Net, o: nat, sender: nat, run: seq<Msg>, s: State)
    requires Truthful(net) && o < |net.tree| && IsRun(net, o, sender, run, s)
    ensures Kept(net, s, o, sender) && |s.handled| == 1 + |run|
    decreases |run|
  {
    if run == [] {
      StartKeeps(net, o, sender);
    } else {
      var m := run[|run| - 1];
      var s0 :| IsRun(net, o, sender, run[..|run| - 1], s0) && m in s0.flying && s == Handle(net, s0, m);
      RunKeeps(net, o, sender, run[..|run| - 1], s0);
      HandleKeeps(net, s0, o, sender, m);
    }
  }

  lemma {:induction false} Bounded(n: nat, hosts: set<nat>)
    requires forall h :: h in hosts ==> h < n
    ensures |hosts| <= n
  {
    if n == 0 {
      assert hosts == {};
    } else {
      Bounded(n - 1, hosts - {n - 1});
      assert |hosts| <= |hosts - {n - 1}| + 1;
    }
  }

  /** User `u` is to be written to: it is on the channel, not the sender, and every host on the way carries the channel. */
  predicate Addressed(net: Net, o: nat, sender: nat, u: nat)
    requires o < |net.tree|
  {
    u in net.members && u != sender && u in net.home && net.home[u] < |net.tree| &&
    Carried(net, PathTo(net.tree, o, net.home[u]))
  }

  /**
   Every run stops after fewer messages than there are hosts. No user is ever written to twice, and who is not
   addressed never is: the sender, who is at host `o`, users that are not on the channel, and users with a host
   on the way that does not have the channel or keeps it off its links. When nothing is under way any more, all
   others have been written to.
   */
  lemma {:induction false} ExactlyOnce(net: Net, o: nat, sender: nat, run: seq<Msg>, s: State, u: nat)
    requires Truthful(net) && o < |net.tree| && IsRun(net, o, sender, run, s)
    ensures |run| < |net.tree|
    ensures (sender in net.members ==> net.home[sender] == o) || u != sender ==>
              && s.written[u] <= (if Addressed(net, o, sender, u) then 1 else 0)
              && (s.flying == multiset{} ==> s.written[u] == if Addressed(net, o, sender, u) then 1 else 0)
  {
    RunKeeps(net, o, sender, run, s);
    Bounded(|net.tree|, s.handled);
    if u in net.members && u != sender {
      OpenHasChannel(net, o, net.home[u]);
      OpenMeans(net, o, net.home[u]);
    } else if (sender in net.members ==> net.home[sender] == o) || u != sender {
      NobodyElse(net, o, sender, run, s, u);
    }
  }

  /** No message ever comes from a host that does not have the channel or keeps it off its links. */
  lemma {:induction false} OnlyForwarders(net: Net, o: nat, sender: nat, run: seq<Msg>, s: State, m: Msg)
    requires Truthful(net) && o < |net.tree| && IsRun(net, o, sender, run, s) && (m in s.flying || m in run)
    ensures m.from in net.known && m.from !in net.unforwarded
    decreases |run|
  {
    if run != [] {
      var k := run[|run| - 1];
      var s0 :| IsRun(net, o, sender, run[..|run| - 1], s0) && k in s0.flying && s == Handle(net, s0, k);
      if m in s0.flying || m in run[..|run| - 1] {
        OnlyForwarders(net, o, sender, run[..|run| - 1], s0, m);
      }
    }
  }

  /** Users that are not on the channel, and the sender at host `o`, are never written to. */
  lemma {:induction false} NobodyElse(net: Net, o: nat, sender: nat, run: seq<Msg>, s: State, u: nat)
    requires Truthful(net) && o < |net.tree| && IsRun(net, o, sender, run, s)
    requires u in net.members ==> u == sender && net.home[u] == o
    ensures s.written[u] == 0 && o in s.handled
    decreases |run|
  {
    if run != [] {
      var m := run[|run| - 1];
      var s0 :| IsRun(net, o, sender, run[..|run| - 1], s0) && m in s0.flying && s == Handle(net, s0, m);
      NobodyElse(net, o, sender, run[..|run| - 1], s0, u);
      RunKeeps(net, o, sender, run[..|run| - 1], s0);
      HandleKeeps(net, s0, o, sender, m);
      if u in net.members {
        WritesMembers(net, m.to, u);
      }
    }
  }

  lemma {:induction false} OpenHasChannel(net: Net, x: nat, h: nat)
    requires x < |net.tree| && h < |net.tree|
    ensures Open(net, x, h) ==> h in net.known
    decreases Distance(net.tree, x, h)
  {
    if x != h {
      HopNearer(net.tree, x, h);
      OpenHasChannel(net, Hop(net.tree, x, h), h);
    }
  }

  /** When every host has the channel and forwards it, everyone is reached. */
  lemma {:induction false} AllOpen(net: Net, x: nat, h: nat)
    requires x < |net.tree| && h < |net.tree|
    requires forall y :: 0 <= y < |net.tree| ==> Forwards(net, y)
    ensures Open(net, x, h)
    decreases Distance(net.tree, x, h)
  {
    assert Forwards(net, x);
    if x != h {
      HopNearer(net.tree, x, h);
      AllOpen(net, Hop(net.tree, x, h), h);
    }
  }

  /** A message under way leads from a host that has handled it to one that has not. */
  lemma {:induction false} NeverBack(net: Net, o: nat, sender: nat, run: seq<Msg>, s: State, m: Msg)
    requires Truthful(net) && o < |net.tree| && IsRun(net, o, sender, run, s) && m in s.flying
    ensures m.from in s.handled && m.to !in s.handled
    decreases |run|
  {
    RunKeeps(net, o, sender, run, s);
    LinkIsHop(net.tree, m.from, m.to);
    if run != [] {
      var k := run[|run| - 1];
      var s0 :| IsRun(net, o, sender, run[..|run| - 1], s0) && k in s0.flying && s == Handle(net, s0, k);
      if m in s0.flying {
        NeverBack(net, o, sender, run[..|run| - 1], s0, m);
      }
    }
  }

  predicate SameLink(m: Msg, n: Msg) {
    m == n || m == Msg(n.to, n.from)
  }

  /** The messages of `run` went between handled hosts, and no two of them over the same link. */
  ghost predicate Crossed(run: seq<Msg>, handled: set<nat>) {
    && (forall i :: 0 <= i < |run| ==> run[i].from in handled && run[i].to in handled)
    && (forall i, j :: 0 <= i < j < |run| ==> !SameLink(run[i], run[j]))
  }

  lemma {:induction false} CrossedMore(run: seq<Msg>, handled: set<nat>)
    requires run != [] && Crossed(run[..|run| - 1], handled)
    requires run[|run| - 1].from in handled && run[|run| - 1].to !in handled
    ensures Crossed(run, handled + {run[|run| - 1].to})
  {
    var before := run[..|run| - 1];
    assert forall i :: 0 <= i < |before| ==> run[i] == before[i];
  }

  /** No link carries the message twice, in either direction. */
  lemma {:induction false} OncePerLink(net: Net, o: nat, sender: nat, run: seq<Msg>, s: State)
    requires Truthful(net) && o < |net.tree| && IsRun(net, o, sender, run, s)
    ensures Crossed(run, s.handled)
    decreases |run|
  {
    if run != [] {
      var s0 := LastStep(net, o, sender, run, s);
      OncePerLink(net, o, sender, run[..|run| - 1], s0);
      NeverBack(net, o, sender, run[..|run| - 1], s0, run[|run| - 1]);
      CrossedMore(run, s0.handled);
    }
  }

  lemma {:induction false} LastStep(net: Net, o: nat, sender: nat, run: seq<Msg>, s: State) returns (s0: State)
    requires o < |net.tables| && IsRun(net, o, sender, run, s) && run != []
    ensures IsRun(net, o, sender, run[..|run| - 1], s0) && run[|run| - 1] in s0.flying
    ensures run[|run| - 1].to < |net.tables| && s.handled == s0.handled + {run[|run| - 1].to}
  {
    var m := run[|run| - 1];
    s0 :| IsRun(net, o, sender, run[..|run| - 1], s0) && m in s0.flying && s == Handle(net, s0, m);
  }

  // ---------------------------------------------------------------- one step, at the host

  /** The connections of which `out` was written to. */
  ghost function Told(before: seq<seq<Output>>, after: seq<seq<Output>>, out: Output): set<nat> {
    set k: nat | k < |before| && k < |after| && after[k] == before[k] + [out]
  }

  /**
   A step of a run is what a host does: the messages it sends are the CMSGs, and the users it writes to those
   who get the line, when `Relay` handles a message that came over connection `cp`.
   */
  method StepAtHost(net: Net, x: nat, board: Switchboard, cp: nat, m: Post)
    requires board.Valid() && cp < |board.conns| && board.conns[cp].kind == Host && Passes(m)
    requires x < |net.tree| == |net.tables| && net.tables[x] == Table(board.conns) && x in net.known
    requires m.channel == net.channel && (m.local <==> x in net.unforwarded)
    modifies board
    ensures board.Valid()
    ensures Sends(net, x, Some(board.conns[cp].id)) ==
            set k | k in Told(old(board.obuf), board.obuf, Cmsg(m.from, m.channel, m.text)) && k < |board.conns| ::
              Msg(x, board.conns[k].id)
    ensures Writes(net, x) ==
            set k | k in Told(old(board.obuf), board.obuf, Line(m.channel, m.text)) && k < |board.conns| :: board.conns[k].id
  {
    ghost var before := board.obuf;
    board.Relay(cp, m, false);
    SharesAre(net, x, board.conns, cp, m, before, board.obuf);
  }

  lemma {:induction false} SharesAre(net: Net, x: nat, cs: seq<Connection>, cp: nat, m: Post, before: seq<seq<Output>>, after: seq<seq<Output>>)
    requires WellFormed(cs) && cp < |cs| == |before| == |after| && cs[cp].kind == Host
    requires x < |net.tree| == |net.tables| && net.tables[x] == Table(cs) && x in net.known
    requires m.channel == net.channel && (m.local <==> x in net.unforwarded)
    requires after[cp] == before[cp] && forall k :: 0 <= k < |cs| && k != cp ==> after[k] == before[k] + Share(cs, cp, k, m)
    ensures Sends(net, x, Some(cs[cp].id)) ==
            set k | k in Told(before, after, Cmsg(m.from, m.channel, m.text)) && k < |cs| :: Msg(x, cs[k].id)
    ensures Writes(net, x) == set k | k in Told(before, after, Line(m.channel, m.text)) && k < |cs| :: cs[k].id
  {
    var cmsg, line := Cmsg(m.from, m.channel, m.text), Line(m.channel, m.text);
    forall k: nat | k < |cs|
      ensures k in Told(before, after, cmsg) <==> k != cp && Share(cs, cp, k, m) == [cmsg]
      ensures k in Told(before, after, line) <==> k != cp && Share(cs, cp, k, m) == [line]
    {
      assert k != cp ==> after[k][|before[k]|..] == Share(cs, cp, k, m);
      assert (before[k] + [cmsg])[|before[k]|..] == [cmsg] && (before[k] + [line])[|before[k]|..] == [line];
    }
    OnwardConnected(cs, m.channel, Some(cs[cp].id));
    LocalsConnected(cs, m.channel);
  }
}
