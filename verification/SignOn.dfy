/**
 How the user tables of a network come about: a user who signs on, or leaves, is announced by its host to
 all neighbours, and each host that hears of it makes the loop check, enters the user with the neighbour it
 heard from, or drops it, and announces that to its other neighbours. Any number of users come and go, again
 and again; lines keep their order on each link, and links are independent of each other. In a tree the loop
 check never strikes, and whenever nothing is under way every table names exactly the users who are there, by
 the true next hop: what the spreading of channel messages takes for granted.
 */
module SignOn {
  import opened Common
  import opened ChannelCast
  import opened TreeCast

  /** The hosts, and the host and channel of every user there may be. */
  datatype World = World(tree: Tree, home: map<nat, nat>, chan: map<nat, int>)

  ghost predicate WorldOk(w: World) {
    w.home.Keys == w.chan.Keys && forall u :: u in w.home ==> w.home[u] < |w.tree|
  }

  /** A line about a user: it has signed on, or it has left. */
  datatype UserLine = UserLine(user: nat, on: bool)

  datatype Edge = Edge(from: nat, to: nat)

  /** The user tables, the lines under way on each link, who is there, and whether a link was taken for a loop. */
  datatype Registry = Registry(tables: seq<set<Presence>>, queues: map<Edge, seq<UserLine>>, signed: set<nat>, looped: bool)

  /** A user signs on or leaves, or the first line on a link arrives. */
  datatype Event = SignsOn(user: nat) | Leaves(user: nat) | Arrives(edge: Edge)

  predicate IsEdge(w: World, e: Edge) {
    Linked(w.tree, e.from, e.to)
  }

  function Empty(w: World): Registry {
    Registry(seq(|w.tree|, _ => {}), map x, y | 0 <= x < |w.tree| && 0 <= y < |w.tree| && Linked(w.tree, x, y) :: Edge(x, y) := [], {}, false)
  }

  /** A line to all neighbours of `x` but the one it was heard from. */
  function Announced(queues: map<Edge, seq<UserLine>>, x: nat, but: Option<nat>, l: UserLine): map<Edge, seq<UserLine>> {
    map e | e in queues :: if e.from == x && Some(e.to) != but then queues[e] + [l] else queues[e]
  }

  /** The loop check at host `x` for a line from neighbour `y`: its own host, or a user of that host that came another way. */
  predicate Loop(w: World, table: set<Presence>, u: nat, y: nat, x: nat)
    requires u in w.home
  {
    w.home[u] == x || exists r :: r in table && r.user in w.home && w.home[r.user] == w.home[u] && r.via != Some(y)
  }

  /** The table with the user entered, or without it. */
  function Noted(w: World, table: set<Presence>, l: UserLine, via: Option<nat>): set<Presence>
    requires l.user in w.chan
  {
    if l.on then table + {Presence(l.user, {w.chan[l.user]}, via)}
    else set r | r in table && !(r.user == l.user && r.via == via)
  }

  /** Host `x` notes what it heard and passes it on. */
  function Hears(w: World, s: Registry, x: nat, via: Option<nat>, l: UserLine): Registry
    requires l.user in w.chan && x < |s.tables|
  {
    s.(tables := s.tables[x := Noted(w, s.tables[x], l, via)], queues := Announced(s.queues, x, via, l))
  }

  function Step(w: World, s: Registry, e: Event): Registry
    requires WorldOk(w) && |s.tables| == |w.tree|
  {
    match e
    case SignsOn(u) =>
      if u in w.home && u !in s.signed then Hears(w, s, w.home[u], None, UserLine(u, true)).(signed := s.signed + {u}) else s
    case Leaves(u) =>
      if u in w.home && u in s.signed then Hears(w, s, w.home[u], None, UserLine(u, false)).(signed := s.signed - {u}) else s
    case Arrives(edge) =>
      if edge !in s.queues || s.queues[edge] == [] || s.queues[edge][0].user !in w.home || edge.to >= |w.tree| then s
      else
        var l := s.queues[edge][0];
        var rest := s.(queues := s.queues[edge := s.queues[edge][1..]]);
        if Loop(w, s.tables[edge.to], l.user, edge.from, edge.to) then rest.(looped := true)
        else Hears(w, rest, edge.to, Some(edge.from), l)
  }

  function Run(w: World, es: seq<Event>): (s: Registry)
    requires WorldOk(w)
    ensures |s.tables| == |w.tree|
  {
    if es == [] then Empty(w) else Step(w, Run(w, es[..|es| - 1]), es[|es| - 1])
  }

  // ---------------------------------------------------------------- what every run keeps

  function TrueVia(w: World, x: nat, u: nat): Option<nat>
    requires WorldOk(w) && x < |w.tree| && u in w.home
  {
    if w.home[u] == x then None else Some(Hop(w.tree, x, w.home[u]))
  }

  /** The true entry for user `u` at host `x`. */
  function TrueEntry(w: World, x: nat, u: nat): Presence
    requires WorldOk(w) && x < |w.tree| && u in w.home
  {
    Presence(u, {w.chan[u]}, TrueVia(w, x, u))
  }

  ghost predicate Has(w: World, s: Registry, x: nat, u: nat) {
    WorldOk(w) && x < |w.tree| && x < |s.tables| && u in w.home && TrueEntry(w, x, u) in s.tables[x]
  }

  ghost predicate EntryOk(w: World, x: nat, r: Presence) {
    WorldOk(w) && x < |w.tree| && r.user in w.home && r == TrueEntry(w, x, r.user)
  }

  /** Whether `u` will be known once the lines in `q` have been heard. */
  function Settles(q: seq<UserLine>, u: nat, now: bool): bool {
    if q == [] then now else if q[|q| - 1].user == u then q[|q| - 1].on else Settles(q[..|q| - 1], u, now)
  }

  /** Over each link come only lines about users behind it, and when all are heard both ends agree. */
  ghost predicate EdgeOk(w: World, s: Registry, e: Edge) {
    WorldOk(w) && IsEdge(w, e) && e in s.queues && LinesAway(w, s.queues[e], e) && AllAgree(w, s, e)
  }

  ghost predicate LinesAway(w: World, q: seq<UserLine>, e: Edge) {
    forall l :: l in q ==> Away(w, e, l.user)
  }

  ghost predicate AllAgree(w: World, s: Registry, e: Edge) {
    forall u :: Away(w, e, u) ==> Agrees(w, s, e, u)
  }

  /** The link leads one step away from the host of `u`. */
  predicate Away(w: World, e: Edge, u: nat) {
    u in w.home && w.home[u] < |w.tree| && e.to < |w.tree| && Beyond(w.tree, e.to, e.from, w.home[u])
  }

  ghost predicate Agrees(w: World, s: Registry, e: Edge, u: nat) {
    e in s.queues && (Settles(s.queues[e], u, Has(w, s, e.to, u)) <==> Has(w, s, e.from, u))
  }

  ghost predicate Kept(w: World, s: Registry) {
    && WorldOk(w) && |s.tables| == |w.tree| && !s.looped && s.signed <= w.home.Keys
    && (forall e :: e in s.queues <==> IsEdge(w, e))
    && (forall x, r :: 0 <= x < |w.tree| && r in s.tables[x] ==> EntryOk(w, x, r))
    && (forall e :: IsEdge(w, e) ==> EdgeOk(w, s, e))
    && (forall u :: u in w.home ==> (Has(w, s, w.home[u], u) <==> u in s.signed))
  }

  /** What host `x` passes on of a user goes exactly over the links that lead away from the user's host. */
  lemma {:induction false} PassedAway(w: World, u: nat, e: Edge)
    requires WorldOk(w) && u in w.home && IsEdge(w, e)
    ensures Some(e.to) != TrueVia(w, e.from, u) <==> Away(w, e, u)
  {
    LinkDivides(w.tree, e.from, e.to, w.home[u]);
    if w.home[u] == e.from {
      LinkIsHop(w.tree, e.to, e.from);
    }
  }

  /** A line heard at the front of a queue, or one put at its end, in what the queue settles. */
  lemma {:induction false} SettlesFirst(q: seq<UserLine>, u: nat, now: bool)
    requires q != []
    ensures Settles(q, u, now) == Settles(q[1..], u, if q[0].user == u then q[0].on else now)
  {
    if |q| > 1 && q[|q| - 1].user != u {
      assert q[..|q| - 1][1..] == q[1..][..|q| - 2];
      SettlesFirst(q[..|q| - 1], u, now);
    }
  }

  lemma {:induction false} SettlesLast(q: seq<UserLine>, u: nat, now: bool, l: UserLine)
    ensures Settles(q + [l], u, now) == if l.user == u then l.on else Settles(q, u, now)
  {
    assert (q + [l])[..|q|] == q;
  }

  /** In `t`, unlike `s`, host `x` has heard line `l`. */
  ghost predicate HasAfter(w: World, s: Registry, t: Registry, x: nat, l: UserLine) {
    forall y: nat, v: nat :: Has(w, t, y, v) <==> if y == x && v == l.user then l.on else Has(w, s, y, v)
  }

  /** Noting a line about a user changes what is known of that user, and of nobody else. */
  lemma {:induction false} NotedHas(w: World, s: Registry, x: nat, l: UserLine)
    requires Kept(w, s) && l.user in w.home && x < |w.tree|
    ensures var t := Hears(w, s, x, TrueVia(w, x, l.user), l);
            && HasAfter(w, s, t, x, l)
            && (forall y, r :: 0 <= y < |w.tree| && r in t.tables[y] ==> EntryOk(w, y, r))
  {
    var t := Hears(w, s, x, TrueVia(w, x, l.user), l);
    forall y, r | 0 <= y < |w.tree| && r in t.tables[y] ensures EntryOk(w, y, r) {
      assert r in s.tables[y] ==> EntryOk(w, y, r);
    }
  }

  /** `mid` is `s` with one line taken from the link it came over to host `x`, if it came over one. */
  ghost predicate Taken(w: World, s: Registry, mid: Registry, x: nat, l: UserLine) {
    && Kept(w, s) && l.user in w.home && x < |w.tree| && mid.tables == s.tables && mid.looped == s.looped
    && match TrueVia(w, x, l.user)
       case None => mid.queues == s.queues
       case Some(y) => var e := Edge(y, x);
                       e in s.queues && s.queues[e] != [] && s.queues[e][0] == l && mid.queues == s.queues[e := s.queues[e][1..]]
  }

  /** What both ends of a link agree on, after host `x` heard a line and passed it on. */
  lemma {:induction false} HearsAgrees(w: World, s: Registry, mid: Registry, x: nat, l: UserLine, e: Edge, u: nat)
    requires Taken(w, s, mid, x, l) && IsEdge(w, e) && u in w.home && Away(w, e, u)
    requires HasAfter(w, s, Hears(w, mid, x, TrueVia(w, x, l.user), l), x, l)
    ensures Agrees(w, Hears(w, mid, x, TrueVia(w, x, l.user), l), e, u)
  {
    assert EdgeOk(w, s, e) && Agrees(w, s, e, u);
    var t := Hears(w, mid, x, TrueVia(w, x, l.user), l);
    PassedAway(w, l.user, e);
    var now := Has(w, s, e.to, u);
    if e.from == x {
      if Away(w, e, l.user) {
        SettlesLast(s.queues[e], u, now, l);
      }
    } else if TrueVia(w, x, l.user) == Some(e.from) && e.to == x {
      SettlesFirst(s.queues[e], u, now);
    }
  }

  lemma {:induction false} HearsLines(w: World, s: Registry, mid: Registry, x: nat, l: UserLine, e: Edge)
    requires Taken(w, s, mid, x, l) && IsEdge(w, e)
    ensures var t := Hears(w, mid, x, TrueVia(w, x, l.user), l); e in t.queues && LinesAway(w, t.queues[e], e)
  {
    assert EdgeOk(w, s, e);
    PassedAway(w, l.user, e);
    var t := Hears(w, mid, x, TrueVia(w, x, l.user), l);
    forall k | k in t.queues[e] ensures Away(w, e, k.user) {
      assert k == l || k in s.queues[e];
    }
  }

  lemma {:induction false} HearsEdge(w: World, s: Registry, mid: Registry, x: nat, l: UserLine, e: Edge)
    requires Taken(w, s, mid, x, l) && IsEdge(w, e)
    requires HasAfter(w, s, Hears(w, mid, x, TrueVia(w, x, l.user), l), x, l)
    ensures EdgeOk(w, Hears(w, mid, x, TrueVia(w, x, l.user), l), e)
  {
    HearsLines(w, s, mid, x, l, e);
    forall u | Away(w, e, u) ensures Agrees(w, Hears(w, mid, x, TrueVia(w, x, l.user), l), e, u) {
      HearsAgrees(w, s, mid, x, l, e, u);
    }
  }

  /** Who is there does not matter for the tables and the links. */
  lemma {:induction false} SignedAside(w: World, s: Registry, signed: set<nat>)
    ensures forall y: nat, v: nat :: Has(w, s.(signed := signed), y, v) <==> Has(w, s, y, v)
    ensures forall e :: EdgeOk(w, s.(signed := signed), e) <==> EdgeOk(w, s, e)
  {
    var t := s.(signed := signed);
    assert forall y: nat, v: nat :: Has(w, t, y, v) <==> Has(w, s, y, v);
    assert forall e, u :: Agrees(w, t, e, u) <==> Agrees(w, s, e, u);
    assert forall e :: AllAgree(w, t, e) <==> AllAgree(w, s, e);
  }

  /** Everything is kept when a host hears of a user from the next host towards it, or from the user itself. */
  lemma {:induction false} HearsKeeps(w: World, s: Registry, mid: Registry, x: nat, l: UserLine, signed: set<nat>)
    requires Taken(w, s, mid, x, l)
    requires signed == if w.home[l.user] != x then s.signed else if l.on then s.signed + {l.user} else s.signed - {l.user}
    ensures Kept(w, Hears(w, mid, x, TrueVia(w, x, l.user), l).(signed := signed))
  {
    var t := Hears(w, mid, x, TrueVia(w, x, l.user), l);
    NotedHas(w, s, x, l);
    assert t.tables == Hears(w, s, x, TrueVia(w, x, l.user), l).tables;
    forall e | IsEdge(w, e) ensures EdgeOk(w, t, e) {
      HearsEdge(w, s, mid, x, l, e);
    }
    SignedAside(w, t, signed);
  }

  /** The loop check never strikes. */
  lemma {:induction false} NoLoop(w: World, s: Registry, e: Edge)
    requires Kept(w, s) && e in s.queues && s.queues[e] != []
    ensures s.queues[e][0].user in w.home && e.to < |w.tree| && !Loop(w, s.tables[e.to], s.queues[e][0].user, e.from, e.to)
    ensures TrueVia(w, e.to, s.queues[e][0].user) == Some(e.from)
  {
    assert EdgeOk(w, s, e);
    var u := s.queues[e][0].user;
    assert Away(w, e, u);
    forall r | r in s.tables[e.to] && r.user in w.home && w.home[r.user] == w.home[u] ensures r.via == Some(e.from) {
      assert EntryOk(w, e.to, r);
    }
  }

  lemma {:induction false} StepKeeps(w: World, s: Registry, e: Event)
    requires Kept(w, s)
    ensures Kept(w, Step(w, s, e))
  {
    match e
    case SignsOn(u) =>
      if u in w.home && u !in s.signed {
        HearsKeeps(w, s, s, w.home[u], UserLine(u, true), s.signed + {u});
      }
    case Leaves(u) =>
      if u in w.home && u in s.signed {
        HearsKeeps(w, s, s, w.home[u], UserLine(u, false), s.signed - {u});
      }
    case Arrives(edge) =>
      if edge in s.queues && s.queues[edge] != [] {
        NoLoop(w, s, edge);
        var rest := s.(queues := s.queues[edge := s.queues[edge][1..]]);
        HearsKeeps(w, s, rest, edge.to, s.queues[edge][0], s.signed);
      }
  }

  lemma {:induction false} EmptyKept(w: World)
    requires WorldOk(w)
    ensures Kept(w, Empty(w))
  {
    var s := Empty(w);
    forall e | IsEdge(w, e) ensures EdgeOk(w, s, e) {
      assert s.queues[e] == [];
    }
  }

  lemma {:induction false} RunKeeps(w: World, es: seq<Event>)
    requires WorldOk(w)
    ensures Kept(w, Run(w, es))
  {
    if es == [] {
      EmptyKept(w);
    } else {
      RunKeeps(w, es[..|es| - 1]);
      StepKeeps(w, Run(w, es[..|es| - 1]), es[|es| - 1]);
    }
  }

  // ---------------------------------------------------------------- what it comes to

  ghost predicate Quiet(s: Registry) {
    forall e :: e in s.queues ==> s.queues[e] == []
  }

  /** When nothing is under way, every host knows a user exactly if it is there. */
  lemma {:induction false} AllKnow(w: World, s: Registry, u: nat, x: nat)
    requires Kept(w, s) && Quiet(s) && u in w.home && x < |w.tree|
    ensures Has(w, s, x, u) <==> u in s.signed
    decreases Distance(w.tree, x, w.home[u])
  {
    if x != w.home[u] {
      var e := Edge(Hop(w.tree, x, w.home[u]), x);
      HopNearer(w.tree, x, w.home[u]);
      AllKnow(w, s, u, e.from);
      assert EdgeOk(w, s, e) && Away(w, e, u) && Agrees(w, s, e, u);
    }
  }

  /** The network as a message on channel `c` finds it. */
  function Seen(w: World, s: Registry, c: int, known: set<nat>, unforwarded: set<nat>): Net
    requires WorldOk(w)
  {
    Net(w.tree, w.home, c, (set u | u in s.signed && u in w.chan && w.chan[u] == c), known, unforwarded, s.tables)
  }

  /** After any coming and going, whenever nothing is under way, no link was taken for a loop and all tables are truthful. */
  lemma {:induction false} TablesBecomeTruthful(w: World, es: seq<Event>, c: int, known: set<nat>, unforwarded: set<nat>)
    requires WorldOk(w) && Quiet(Run(w, es))
    ensures !Run(w, es).looped && Truthful(Seen(w, Run(w, es), c, known, unforwarded))
  {
    var s := Run(w, es);
    var net := Seen(w, s, c, known, unforwarded);
    RunKeeps(w, es);
    forall x, r | 0 <= x < |net.tree| && r in net.tables[x] && net.channel in r.on
      ensures r.user in net.members && r.via == Via(net, x, r.user)
    {
      assert EntryOk(w, x, r);
      AllKnow(w, s, r.user, x);
    }
    forall x, u | 0 <= x < |net.tree| && u in net.members ensures Knows(net, x, u) {
      AllKnow(w, s, u, x);
      assert TrueEntry(w, x, u) in net.tables[x];
    }
  }

  /**
   From sign-on to delivery: after any coming and going has spread, a message on a channel that every host
   has and forwards reaches every other user on it exactly once, and nobody else, in every run.
   */
  lemma {:induction false} SignedOnAreReached(w: World, es: seq<Event>, c: int, known: set<nat>, o: nat, sender: nat,
                                              run: seq<Msg>, t: TreeCast.State, u: nat)
    requires WorldOk(w) && Quiet(Run(w, es)) && o < |w.tree|
    requires forall x :: 0 <= x < |w.tree| ==> x in known
    requires sender in w.home && w.home[sender] == o
    requires IsRun(Seen(w, Run(w, es), c, known, {}), o, sender, run, t)
    requires t.flying == multiset{}
    ensures t.written[u] == if u in Run(w, es).signed && u in w.chan && w.chan[u] == c && u != sender then 1 else 0
  {
    var net := Seen(w, Run(w, es), c, known, {});
    TablesBecomeTruthful(w, es, c, known, {});
    assert forall x :: 0 <= x < |net.tree| ==> Forwards(net, x);
    MembersReached(net, o, sender, run, t, u);
  }

  lemma {:induction false} MembersReached(net: Net, o: nat, sender: nat, run: seq<Msg>, t: TreeCast.State, u: nat)
    requires Truthful(net) && o < |net.tree| && IsRun(net, o, sender, run, t) && t.flying == multiset{}
    requires forall x :: 0 <= x < |net.tree| ==> Forwards(net, x)
    requires sender in net.members ==> net.home[sender] == o
    ensures t.written[u] == if u in net.members && u != sender then 1 else 0
  {
    ExactlyOnce(net, o, sender, run, t, u);
    if u in net.members {
      AllOpen(net, o, net.home[u]);
      OpenMeans(net, o, net.home[u]);
    }
  }
}
