/**
 The state of one conversd host: its connections, its link table with the chains of backup links,
 and its table of destinations; and what has to hold of them.

 Host and user names are compared without regard to case, so they are kept case-folded.
 */
module ServerState {
  import opened Common

  type Name = string

  /** A connection. A remote user is one too: it has a `via`, the connection to the neighbour it came from. */
  datatype Conn = Conn(kind: Kind, name: Name, host: Name, via: Option<nat>, time: int)

  /** A slot of the link table. `primary` and `backup` are slots; `rx` is -1 until the first pong. */
  datatype Link = Link(name: Name, conn: Option<nat>, primary: Option<nat>, backup: Option<nat>,
                       permanent: bool, locked: bool, rx: int, tx: int)

  datatype Dest = Dest(name: Name, link: Option<nat>, rtt: int, connected: bool, hops: int, neighbour: Name,
                       learned: bool, lastSent: int)

  /**
   A DEST line written to link `over`. The route it is about leads over link `route`; if the line says that
   it is dead, `route` is the link it led over until then, or the one that reported it dead if it led nowhere.
   */
  datatype Announce = Announce(over: nat, overName: Name, about: Name, rtt: int, route: nat, alive: bool)

  type Conns = map<nat, Conn>
  type Links = seq<Option<Link>>

  // ---------------------------------------------------------------- order of names

  predicate Before(a: Name, b: Name) {
    if b == [] then false else if a == [] then true
    else if a[0] != b[0] then a[0] < b[0] else Before(a[1..], b[1..])
  }

  lemma {:induction false} BeforeTotal(a: Name, b: Name)
    ensures a == b || Before(a, b) || Before(b, a)
    ensures !(Before(a, b) && Before(b, a)) && (a == b ==> !Before(a, b))
  {
    if a != [] && b != [] && a[0] == b[0] {
      BeforeTotal(a[1..], b[1..]);
      assert a == [a[0]] + a[1..] && b == [b[0]] + b[1..];
    }
  }

  lemma {:induction false} BeforeTransitive(a: Name, b: Name, c: Name)
    requires Before(a, b) && Before(b, c)
    ensures Before(a, c)
  {
    if a != [] && a[0] == b[0] && b[0] == c[0] {
      BeforeTransitive(a[1..], b[1..], c[1..]);
    }
  }

  // ---------------------------------------------------------------- presence

  /**
   Loop protection: users without a `via` are exactly those of our own host, every other live user
   came over a live neighbour, and all users of one host came over the same one.
   */
  ghost predicate PresenceOk(me: Name, conns: Conns) {
    && (forall u :: u in conns && conns[u].kind == User ==> (conns[u].via.None? <==> conns[u].host == me))
    && (forall u :: u in conns && conns[u].kind == User && conns[u].via.Some? ==>
          conns[u].via.value in conns && conns[conns[u].via.value].kind == Host)
    && (forall u, v :: u in conns && v in conns && conns[u].kind == User && conns[v].kind == User &&
                       conns[u].host == conns[v].host ==>
          conns[u].via == conns[v].via)
    && (forall c :: c in conns && (conns[c].kind == Host || conns[c].kind == Unknown) ==> conns[c].via.None?)
  }

  // ---------------------------------------------------------------- links

  predicate IsLink(links: Links, s: int) {
    0 <= s < |links| && links[s].Some?
  }

  predicate Live(links: Links, conns: Conns, s: int) {
    && IsLink(links, s) && links[s].value.conn.Some?
    && links[s].value.conn.value in conns && conns[links[s].value.conn.value].kind == Host
  }

  predicate Attached(links: Links, c: nat) {
    exists s :: 0 <= s < |links| && links[s].Some? && links[s].value.conn == Some(c)
  }

  /**
   Names and connections of links are unique, a link's host connection bears its name, and every
   host connection but `but` is that of a link.
   */
  ghost predicate LinksOk(links: Links, conns: Conns, but: Option<nat>) {
    && (forall s, t :: IsLink(links, s) && IsLink(links, t) && s != t ==>
          && links[s].value.name != links[t].value.name
          && (links[s].value.conn.Some? ==> links[s].value.conn != links[t].value.conn))
    && (forall s :: IsLink(links, s) ==> LinkOk(links[s].value, conns))
    && (forall c :: c in conns && conns[c].kind == Host && Some(c) != but ==> Attached(links, c))
  }

  predicate LinkOk(l: Link, conns: Conns) {
    && l.tx >= 0 && l.rx >= -1
    && (l.conn.Some? ==>
          && l.conn.value in conns
          && (conns[l.conn.value].kind == Host ==> conns[l.conn.value].name == l.name))
  }

  // ---------------------------------------------------------------- chains of backup links

  /** The two neighbours of a link in its chain. */
  datatype Ends = Ends(primary: Option<nat>, backup: Option<nat>)

  function EndsOf(links: Links): map<nat, Ends> {
    map s | 0 <= s < |links| && links[s].Some? :: Ends(links[s].value.primary, links[s].value.backup)
  }

  /** Where a link stands: the chain it belongs to, and its rank in it. */
  datatype Place = Place(chain: nat, rank: int)

  /** The primary of a link is a link whose backup it is. */
  predicate UpOk(ends: map<nat, Ends>, s: nat) {
    s in ends && (ends[s].primary.Some? ==>
      ends[s].primary.value in ends && ends[ends[s].primary.value].backup == Some(s))
  }

  predicate DownOk(ends: map<nat, Ends>, s: nat) {
    s in ends && (ends[s].backup.Some? ==>
      ends[s].backup.value in ends && ends[ends[s].backup.value].primary == Some(s))
  }

  /** `primary` and `backup` are inverse to each other and stay within the table. */
  ghost predicate Inverse(ends: map<nat, Ends>) {
    && (forall s {:trigger UpOk(ends, s)} :: s in ends ==> UpOk(ends, s))
    && (forall s {:trigger DownOk(ends, s)} :: s in ends ==> DownOk(ends, s))
  }

  predicate Below(place: map<nat, Place>, a: nat, b: nat) {
    a in place && b in place && place[a].chain == place[b].chain && place[a].rank < place[b].rank
  }

  /** Going to the primary lowers the rank and stays in the chain: so walking either way ends. */
  predicate RankOk(ends: map<nat, Ends>, place: map<nat, Place>, s: nat) {
    s in ends && (ends[s].primary.Some? ==> Below(place, ends[s].primary.value, s))
  }

  /** Of two links of one chain, the lower is met by walking up from the other, and the other by walking down. */
  predicate GapOk(ends: map<nat, Ends>, place: map<nat, Place>, a: nat, b: nat) {
    && a in ends && b in ends && place.Keys == ends.Keys
    && (a != b && place[a].chain == place[b].chain ==> place[a].rank != place[b].rank)
    && (Below(place, a, b) ==>
          && ends[b].primary.Some? && ends[b].primary.value in ends
          && place[a].rank <= place[ends[b].primary.value].rank
          && ends[a].backup.Some? && ends[a].backup.value in ends
          && place[ends[a].backup.value].rank <= place[b].rank)
  }

  ghost predicate Ranked(ends: map<nat, Ends>, place: map<nat, Place>) {
    && place.Keys == ends.Keys
    && (forall s {:trigger RankOk(ends, place, s)} :: s in ends ==> RankOk(ends, place, s))
    && (forall a, b {:trigger GapOk(ends, place, a, b)} :: a in ends && b in ends ==> GapOk(ends, place, a, b))
  }

  ghost predicate ChainsOk(ends: map<nat, Ends>, place: map<nat, Place>) {
    Inverse(ends) && Ranked(ends, place)
  }

  /** At most one link of a chain is live. */
  ghost predicate OneLive(links: Links, conns: Conns, place: map<nat, Place>) {
    forall a, b :: Live(links, conns, a) && Live(links, conns, b) && a != b && a in place && b in place ==>
      place[a].chain != place[b].chain
  }

  // ---------------------------------------------------------------- destinations

  ghost predicate Sorted(dests: seq<Dest>) {
    forall i, j :: 0 <= i < j < |dests| ==> Before(dests[i].name, dests[j].name)
  }

  /** A route is alive in all respects or in none; `but` may be a link that was just lost. */
  ghost predicate RouteOk(d: Dest, links: Links, conns: Conns, but: Option<nat>) {
    && d.rtt >= 0 && d.lastSent >= 0 && (d.link.None? ==> d.lastSent == 0)
    && (d.rtt != 0 <==> d.link.Some?) && (d.connected <==> d.link.Some?)
    && (d.link.Some? ==> IsLink(links, d.link.value) && (d.link == but || Live(links, conns, d.link.value)))
  }

  ghost predicate RoutesOk(dests: seq<Dest>, links: Links, conns: Conns, but: Option<nat>) {
    Sorted(dests) && forall i :: 0 <= i < |dests| ==> RouteOk(dests[i], links, conns, but)
  }

  /** Split horizon, and rtt 0 for dead routes only. */
  predicate AnnounceOk(a: Announce) {
    a.about != a.overName && a.route != a.over && a.rtt >= 0 && (a.rtt == 0 <==> !a.alive)
  }

  predicate AllAnnounceOk(sent: seq<Announce>) {
    forall i :: 0 <= i < |sent| ==> AnnounceOk(sent[i])
  }

  /** The measured and reported times of a link are not negative, save for "not reported yet". */
  ghost predicate TimesOk(links: Links) {
    forall s :: IsLink(links, s) ==> links[s].value.tx >= 0 && links[s].value.rx >= -1
  }

  /** The time a link adds to a route announced over it. */
  function Estimate(l: Link): (t: int)
    requires l.tx >= 0 && l.rx >= -1
    ensures t >= 0
  {
    if l.rx == -1 then l.tx else (l.tx + l.rx) / 2
  }

  /** The entry a report over link `p` makes of an old one; `None` when a better route over another link stays. */
  function Report(was: Option<Dest>, p: nat, name: Name, rtt: int, hops: int, neighbour: Name, learned: bool): Option<Dest> {
    if was.Some? && was.value.link.Some? && was.value.link != Some(p) && was.value.rtt != 0 && rtt >= was.value.rtt then None
    else if rtt == 0 then Some(Dest(name, None, 0, false, 0, "", learned, 0))
    else Some(Dest(name, Some(p), rtt, true, hops + 1, neighbour, learned, rtt))
  }

  /** A route over another link whose announced time is off by a third, now that neighbour `p` has a new one. */
  predicate Moved(d: Dest, links: Links, p: nat, name: Name, rtt: int, lastSent: int) {
    && d.rtt != 0 && d.link.Some? && d.link != Some(p) && d.name != name
    && IsLink(links, d.link.value) && links[d.link.value].value.name != name
    && (if rtt > lastSent then rtt - lastSent else lastSent - rtt) > (d.lastSent + lastSent) / 3
  }

  /** What neighbour `p` is told again of the first `n` entries. */
  function Restated(dests: seq<Dest>, links: Links, p: nat, name: Name, rtt: int, lastSent: int, n: nat): seq<Announce>
    requires n <= |dests|
  {
    if n == 0 then []
    else Restated(dests, links, p, name, rtt, lastSent, n - 1) + RestatedOne(dests[n - 1], links, p, name, rtt, lastSent)
  }

  function RestatedOne(d: Dest, links: Links, p: nat, name: Name, rtt: int, lastSent: int): seq<Announce> {
    if Moved(d, links, p, name, rtt, lastSent) then [Announce(p, name, d.name, d.rtt + rtt, d.link.value, true)] else []
  }

  /** An entry after that. */
  function Settling(d: Dest, links: Links, p: nat, name: Name, rtt: int, lastSent: int): Dest {
    if Moved(d, links, p, name, rtt, lastSent) then d.(lastSent := d.rtt) else d
  }

  /** The first `n` entries have been gone through. */
  ghost predicate RestatedTo(was: seq<Dest>, now: seq<Dest>, sent0: seq<Announce>, sent: seq<Announce>, links: Links, p: nat,
                             name: Name, rtt: int, lastSent: int, n: nat)
  {
    && |now| == |was| && n <= |was| && sent == sent0 + Restated(was, links, p, name, rtt, lastSent, n)
    && (forall k :: 0 <= k < |was| ==> now[k] == if k < n then Settling(was[k], links, p, name, rtt, lastSent) else was[k])
  }

  lemma {:induction false} RestatedMore(was: seq<Dest>, now: seq<Dest>, sent0: seq<Announce>, sent: seq<Announce>, links: Links, p: nat,
                                        name: Name, rtt: int, lastSent: int, n: nat)
    requires RestatedTo(was, now, sent0, sent, links, p, name, rtt, lastSent, n) && n < |was|
    ensures RestatedTo(was, now[n := Settling(now[n], links, p, name, rtt, lastSent)], sent0,
                       sent + RestatedOne(now[n], links, p, name, rtt, lastSent), links, p, name, rtt, lastSent, n + 1)
  {}

  /** The hop count and neighbour of a report: what it leaves out is kept from the live entry. */
  function RouteDetail(was: Option<Dest>, from: Name, rtt: int, hops: int, neighbour: Name): (r: (int, Name))
    ensures rtt < 1 ==> r == (0, [])
    ensures rtt >= 1 && hops >= 1 ==> r.0 == hops && (neighbour != [] ==> r.1 == neighbour)
    ensures rtt >= 1 && neighbour == [] ==> r.0 >= 1
  {
    var live := was.Some? && was.value.link.Some? && was.value.rtt != 0;
    if rtt < 1 then (0, [])
    else if neighbour == [] then
      (if hops >= 1 then hops else if was.Some? && was.value.hops > 1 then was.value.hops - 1 else 1,
       if live then was.value.neighbour else from)
    else if live && hops < 1 then (was.value.hops - 1, was.value.neighbour)
    else (hops, neighbour)
  }

  /** The link a route led over before a report over link `p`; `p` itself if it led nowhere. */
  function RouteBefore(was: Option<Dest>, p: nat): nat {
    if was.Some? && was.value.link.Some? then was.value.link.value else p
  }

  /** What is said over link `s` of a report over link `p`; `before` is the link the route led over until then. */
  function Said(links: Links, conns: Conns, p: nat, name: Name, rtt: int, before: nat, s: int): seq<Announce>
    requires TimesOk(links) && IsLink(links, p)
  {
    if s != p && Live(links, conns, s) && links[s].value.name != name &&
       (rtt == 0 || links[s].value.name != links[p].value.name)
    then [if rtt == 0 then Announce(s, links[s].value.name, name, 0, before, false)
          else Announce(s, links[s].value.name, name, rtt + Estimate(links[s].value), p, true)]
    else []
  }

  /** What is said over the first `n` links. */
  function SaidTo(links: Links, conns: Conns, p: nat, name: Name, rtt: int, before: nat, n: nat): seq<Announce>
    requires TimesOk(links) && IsLink(links, p) && n <= |links|
  {
    if n == 0 then []
    else SaidTo(links, conns, p, name, rtt, before, n - 1) + Said(links, conns, p, name, rtt, before, n - 1)
  }

  /** If only the link a route leads over may declare it dead, every line is sound. */
  lemma {:induction false} SaidToOk(links: Links, conns: Conns, p: nat, name: Name, rtt: int, before: nat, n: nat)
    requires TimesOk(links) && IsLink(links, p) && n <= |links| && rtt >= 0 && (rtt == 0 ==> before == p)
    ensures AllAnnounceOk(SaidTo(links, conns, p, name, rtt, before, n))
  {
    if n > 0 {
      SaidToOk(links, conns, p, name, rtt, before, n - 1);
    }
  }

  /**
   A line is sound exactly if it does not tell the link the route led over that it is dead, and if a
   reported time and the time of the link do not cancel out.
   */
  lemma {:induction false} SaidExact(links: Links, conns: Conns, p: nat, name: Name, rtt: int, before: nat, s: nat)
    requires TimesOk(links) && IsLink(links, p) && Said(links, conns, p, name, rtt, before, s) != []
    ensures AllAnnounceOk(Said(links, conns, p, name, rtt, before, s)) <==>
            if rtt == 0 then before != s else rtt + Estimate(links[s].value) > 0
  {
    var line := Said(links, conns, p, name, rtt, before, s)[0];
    assert AllAnnounceOk(Said(links, conns, p, name, rtt, before, s)) <==> AnnounceOk(line);
  }

  // ---------------------------------------------------------------- who has to be told what

  /** A live neighbour other than `p` hears of a report over link `p`, unless it is about itself. */
  predicate MustHear(links: Links, conns: Conns, p: nat, name: Name, rtt: int, s: int) {
    && IsLink(links, p) && s != p && Live(links, conns, s) && links[s].value.name != name
    && (rtt == 0 || links[s].value.name != links[p].value.name)
  }

  /** What it hears: rtt 0 of a dead route, and else the rtt plus the time of its own link. */
  predicate RightLine(a: Announce, links: Links, conns: Conns, p: nat, name: Name, rtt: int, before: nat) {
    && MustHear(links, conns, p, name, rtt, a.over) && a.overName == links[a.over].value.name && a.about == name
    && var l := links[a.over].value;
       if rtt == 0 then a.rtt == 0 && !a.alive && a.route == before
       else a.rtt == rtt + (if l.rx == -1 then l.tx else (l.tx + l.rx) / 2) && a.alive && a.route == p
  }

  /** Exactly those who have to hear of it have been told, once each, and what is right. */
  ghost predicate ToldRight(news: seq<Announce>, links: Links, conns: Conns, p: nat, name: Name, rtt: int, before: nat) {
    && (forall i :: 0 <= i < |news| ==> RightLine(news[i], links, conns, p, name, rtt, before))
    && (forall i, j :: 0 <= i < j < |news| ==> news[i].over < news[j].over)
    && (forall s: nat :: MustHear(links, conns, p, name, rtt, s) ==> exists i :: 0 <= i < |news| && news[i].over == s)
  }

  lemma {:induction false} SaidRight(links: Links, conns: Conns, p: nat, name: Name, rtt: int, before: nat, s: nat)
    requires TimesOk(links) && IsLink(links, p)
    ensures var news := Said(links, conns, p, name, rtt, before, s);
            && |news| == (if MustHear(links, conns, p, name, rtt, s) then 1 else 0)
            && (forall i :: 0 <= i < |news| ==> RightLine(news[i], links, conns, p, name, rtt, before) && news[i].over == s)
  {
    var news := Said(links, conns, p, name, rtt, before, s);
    if news != [] {
      assert news[0].over == s && RightLine(news[0], links, conns, p, name, rtt, before);
    }
  }

  /** The same among the first `n` links. */
  ghost predicate ToldTo(news: seq<Announce>, links: Links, conns: Conns, p: nat, name: Name, rtt: int, before: nat, n: nat) {
    && (forall i :: 0 <= i < |news| ==> RightLine(news[i], links, conns, p, name, rtt, before))
    && (forall i :: 0 <= i < |news| ==> news[i].over < n)
    && (forall i, j :: 0 <= i < j < |news| ==> news[i].over < news[j].over)
    && (forall s: nat :: s < n && MustHear(links, conns, p, name, rtt, s) ==> exists i :: 0 <= i < |news| && news[i].over == s)
  }

  lemma {:induction false} ToldOneMore(front: seq<Announce>, last: seq<Announce>, links: Links, conns: Conns, p: nat, name: Name, rtt: int,
                                       before: nat, n: nat)
    requires ToldTo(front, links, conns, p, name, rtt, before, n)
    requires |last| == (if MustHear(links, conns, p, name, rtt, n) then 1 else 0)
    requires forall i :: 0 <= i < |last| ==> RightLine(last[i], links, conns, p, name, rtt, before) && last[i].over == n
    ensures ToldTo(front + last, links, conns, p, name, rtt, before, n + 1)
  {
    var news := front + last;
    forall s: nat | s < n + 1 && MustHear(links, conns, p, name, rtt, s) ensures exists i :: 0 <= i < |news| && news[i].over == s {
      if s < n {
        var i :| 0 <= i < |front| && front[i].over == s;
        assert news[i].over == s;
      } else {
        assert news[|front|] == last[0];
      }
    }
  }

  lemma {:induction false} SaidToRight(links: Links, conns: Conns, p: nat, name: Name, rtt: int, before: nat, n: nat)
    requires TimesOk(links) && IsLink(links, p) && n <= |links|
    ensures ToldTo(SaidTo(links, conns, p, name, rtt, before, n), links, conns, p, name, rtt, before, n)
  {
    if n > 0 {
      SaidToRight(links, conns, p, name, rtt, before, n - 1);
      SaidRight(links, conns, p, name, rtt, before, n - 1);
      var front, last := SaidTo(links, conns, p, name, rtt, before, n - 1), Said(links, conns, p, name, rtt, before, n - 1);
      ToldOneMore(front, last, links, conns, p, name, rtt, before, n - 1);
    }
  }

  lemma {:induction false} SaidIsRight(links: Links, conns: Conns, p: nat, name: Name, rtt: int, before: nat)
    requires TimesOk(links) && IsLink(links, p)
    ensures ToldRight(SaidTo(links, conns, p, name, rtt, before, |links|), links, conns, p, name, rtt, before)
  {
    SaidToRight(links, conns, p, name, rtt, before, |links|);
  }

  // ---------------------------------------------------------------- what a report does

  /** The report is a new time of a live neighbour of whom a time has been told before. */
  predicate Restates(links: Links, conns: Conns, p: nat, name: Name, rtt: int, lastSent: int) {
    rtt != 0 && lastSent != 0 && Live(links, conns, p) && links[p].value.name == name
  }

  /** A live route over another link, of which neighbour `name` was told a time that is off by a third. */
  predicate OffByThird(d: Dest, links: Links, p: nat, name: Name, rtt: int, lastSent: int) {
    && d.rtt != 0 && d.link.Some? && d.link.value != p && d.name != name
    && IsLink(links, d.link.value) && links[d.link.value].value.name != name
    && (3 * (rtt - lastSent) > d.lastSent + lastSent || 3 * (lastSent - rtt) > d.lastSent + lastSent)
  }

  predicate CorrectLine(a: Announce, d: Dest, p: nat, name: Name, rtt: int) {
    a.over == p && a.overName == name && a.about == d.name && a.rtt == d.rtt + rtt && d.link == Some(a.route) && a.alive
  }

  /** A line that corrects the time told of one of the first `n` entries. */
  ghost predicate Corrects(a: Announce, dests: seq<Dest>, links: Links, p: nat, name: Name, rtt: int, lastSent: int, n: nat) {
    exists i :: 0 <= i < n <= |dests| && OffByThird(dests[i], links, p, name, rtt, lastSent) && CorrectLine(a, dests[i], p, name, rtt)
  }

  /** The neighbour has been told the new time of exactly those routes, of each once. */
  ghost predicate Corrected(news: seq<Announce>, dests: seq<Dest>, links: Links, p: nat, name: Name, rtt: int, lastSent: int, n: nat) {
    && n <= |dests|
    && (forall k {:trigger Corrects(news[k], dests, links, p, name, rtt, lastSent, n)} :: 0 <= k < |news| ==>
          Corrects(news[k], dests, links, p, name, rtt, lastSent, n))
    && (forall j, k :: 0 <= j < k < |news| ==> news[j].about != news[k].about)
    && (forall i :: 0 <= i < n && OffByThird(dests[i], links, p, name, rtt, lastSent) ==>
          exists k :: 0 <= k < |news| && news[k].about == dests[i].name)
  }

  lemma {:induction false} MovedByThird(d: Dest, links: Links, p: nat, name: Name, rtt: int, lastSent: int)
    ensures Moved(d, links, p, name, rtt, lastSent) <==> OffByThird(d, links, p, name, rtt, lastSent)
  {}

  lemma {:induction false} RestatedRight(dests: seq<Dest>, links: Links, p: nat, name: Name, rtt: int, lastSent: int, n: nat)
    requires Sorted(dests) && n <= |dests|
    ensures Corrected(Restated(dests, links, p, name, rtt, lastSent, n), dests, links, p, name, rtt, lastSent, n)
  {
    if n > 0 {
      RestatedRight(dests, links, p, name, rtt, lastSent, n - 1);
      OneRestated(dests[n - 1], links, p, name, rtt, lastSent);
      var front, last := Restated(dests, links, p, name, rtt, lastSent, n - 1), RestatedOne(dests[n - 1], links, p, name, rtt, lastSent);
      CorrectedMore(front, last, dests, links, p, name, rtt, lastSent, n - 1);
    }
  }

  lemma {:induction false} OneRestated(d: Dest, links: Links, p: nat, name: Name, rtt: int, lastSent: int)
    ensures var news := RestatedOne(d, links, p, name, rtt, lastSent);
            if OffByThird(d, links, p, name, rtt, lastSent) then |news| == 1 && CorrectLine(news[0], d, p, name, rtt) else news == []
  {
    MovedByThird(d, links, p, name, rtt, lastSent);
  }

  lemma {:induction false} NotCorrectedYet(a: Announce, dests: seq<Dest>, links: Links, p: nat, name: Name, rtt: int, lastSent: int, n: nat)
    requires Sorted(dests) && n < |dests| && Corrects(a, dests, links, p, name, rtt, lastSent, n)
    ensures a.about != dests[n].name
  {
    var i :| 0 <= i < n && OffByThird(dests[i], links, p, name, rtt, lastSent) && CorrectLine(a, dests[i], p, name, rtt);
    BeforeTotal(dests[i].name, dests[n].name);
  }

  lemma {:induction false} CorrectedMore(news: seq<Announce>, more: seq<Announce>, dests: seq<Dest>, links: Links, p: nat, name: Name,
                                         rtt: int, lastSent: int, n: nat)
    requires Sorted(dests) && n < |dests| && Corrected(news, dests, links, p, name, rtt, lastSent, n)
    requires if OffByThird(dests[n], links, p, name, rtt, lastSent) then |more| == 1 && CorrectLine(more[0], dests[n], p, name, rtt)
             else more == []
    ensures Corrected(news + more, dests, links, p, name, rtt, lastSent, n + 1)
  {
    var all := news + more;
    forall k | 0 <= k < |all| ensures Corrects(all[k], dests, links, p, name, rtt, lastSent, n + 1) {
      if k < |news| {
        assert Corrects(news[k], dests, links, p, name, rtt, lastSent, n);
      } else {
        assert CorrectLine(all[k], dests[n], p, name, rtt);
      }
    }
    forall j, k | 0 <= j < k < |all| ensures all[j].about != all[k].about {
      if k == |news| {
        NotCorrectedYet(news[j], dests, links, p, name, rtt, lastSent, n);
      }
    }
    forall i | 0 <= i < n + 1 && OffByThird(dests[i], links, p, name, rtt, lastSent)
      ensures exists k :: 0 <= k < |all| && all[k].about == dests[i].name
    {
      if i < n {
        var k :| 0 <= k < |news| && news[k].about == dests[i].name;
        assert all[k] == news[k];
      } else {
        assert all[|news|] == more[0];
      }
    }
  }

  /** The lines about a report: corrections for a neighbour with a new time, and then those who have to hear of it are told. */
  ghost predicate Announced(sent0: seq<Announce>, sent: seq<Announce>, dests: seq<Dest>, links: Links, conns: Conns, p: nat, name: Name,
                            rtt: int, lastSent: int, before: nat)
  {
    && sent0 <= sent
    && exists m :: |sent0| <= m <= |sent| && ToldRight(sent[m..], links, conns, p, name, rtt, before) &&
         if Restates(links, conns, p, name, rtt, lastSent) then Corrected(sent[|sent0|..m], dests, links, p, name, rtt, lastSent, |dests|)
         else m == |sent0|
  }

  /** The entries for other names: the time told of a corrected one is noted, all else is as it was. */
  ghost predicate OthersAfter(before: seq<Dest>, after: seq<Dest>, links: Links, conns: Conns, p: nat, name: Name, rtt: int, lastSent: int) {
    if Restates(links, conns, p, name, rtt, lastSent) then
      && |after| == |before|
      && forall i :: 0 <= i < |before| && before[i].name != name ==>
           after[i] == if OffByThird(before[i], links, p, name, rtt, lastSent) then before[i].(lastSent := before[i].rtt) else before[i]
    else SameOthers(before, after, name)
  }

  ghost function EntryFor(dests: seq<Dest>, name: Name): Option<Dest> {
    var i := FindDest(dests, name, 0);
    if i.Some? then Some(dests[i.value]) else None
  }

  /** The time last told of an entry; none if there is no entry. */
  function LastSent(entry: Option<Dest>): int {
    if entry.Some? then entry.value.lastSent else 0
  }

  /** A shorter route, alive, leads over another link. */
  predicate Better(was: Option<Dest>, p: nat, rtt: int) {
    was.Some? && was.value.rtt != 0 && was.value.rtt <= rtt && was.value.link.Some? && was.value.link.value != p
  }

  /**
   What a report over link `p` does. If a route that is not longer leads over another link, nothing; else the entry for `name`
   is a dead one, or says what was reported, and unless it is merely learned, it is announced.
   */
  ghost predicate Heard(dests0: seq<Dest>, dests: seq<Dest>, sent0: seq<Announce>, sent: seq<Announce>, links: Links, conns: Conns, p: nat,
                        name: Name, rtt: int, hops: int, neighbour: Name, learned: bool)
  {
    var was := EntryFor(dests0, name);
    if Better(was, p, rtt) then dests == dests0 && sent == sent0
    else
      && (if rtt == 0 then Dest(name, None, 0, false, 0, [], learned, 0) in dests
          else Dest(name, Some(p), rtt, true, hops + 1, neighbour, learned, rtt) in dests)
      && if learned && rtt != 0 then sent == sent0 && SameOthers(dests0, dests, name)
         else
           && OthersAfter(dests0, dests, links, conns, p, name, rtt, LastSent(was))
           && Announced(sent0, sent, dests0, links, conns, p, name, rtt, LastSent(was), RouteBefore(was, p))
  }

  /** The corrections and then the lines for the others make the announcement. */
  lemma {:induction false} AnnouncedNow(sent0: seq<Announce>, sent1: seq<Announce>, news: seq<Announce>, dests: seq<Dest>, links: Links,
                                        conns: Conns, p: nat, name: Name, rtt: int, lastSent: int, before: nat)
    requires sent0 <= sent1 && ToldRight(news, links, conns, p, name, rtt, before) && Sorted(dests)
    requires sent1 == if Restates(links, conns, p, name, rtt, lastSent)
                      then sent0 + Restated(dests, links, p, name, rtt, lastSent, |dests|) else sent0
    ensures Announced(sent0, sent1 + news, dests, links, conns, p, name, rtt, lastSent, before) && Wrote(sent1, sent1 + news, Some(p))
  {
    var sent := sent1 + news;
    assert sent[|sent1|..] == news && sent[|sent0|..|sent1|] == sent1[|sent0|..];
    forall i | |sent1| <= i < |sent| ensures sent[i].over != p {
      assert RightLine(news[i - |sent1|], links, conns, p, name, rtt, before);
    }
    if Restates(links, conns, p, name, rtt, lastSent) {
      RestatedRight(dests, links, p, name, rtt, lastSent, |dests|);
      assert sent1[|sent0|..] == Restated(dests, links, p, name, rtt, lastSent, |dests|);
    }
  }

  /** What is announced of others does not depend on the entry itself. */
  lemma {:induction false} AnnouncedOthers(sent0: seq<Announce>, sent: seq<Announce>, dests0: seq<Dest>, dests: seq<Dest>, links: Links,
                                           conns: Conns, p: nat, name: Name, rtt: int, lastSent: int, before: nat)
    requires Announced(sent0, sent, dests, links, conns, p, name, rtt, lastSent, before) && SameOthers(dests0, dests, name)
    ensures Announced(sent0, sent, dests0, links, conns, p, name, rtt, lastSent, before)
  {
    var m :| |sent0| <= m <= |sent| && ToldRight(sent[m..], links, conns, p, name, rtt, before) &&
             if Restates(links, conns, p, name, rtt, lastSent) then Corrected(sent[|sent0|..m], dests, links, p, name, rtt, lastSent, |dests|)
             else m == |sent0|;
    if Restates(links, conns, p, name, rtt, lastSent) {
      CorrectedOthers(sent[|sent0|..m], dests0, dests, links, p, name, rtt, lastSent);
    }
  }

  lemma {:induction false} CorrectedOthers(news: seq<Announce>, dests0: seq<Dest>, dests: seq<Dest>, links: Links, p: nat, name: Name, rtt: int,
                                           lastSent: int)
    requires Corrected(news, dests, links, p, name, rtt, lastSent, |dests|) && SameOthers(dests0, dests, name)
    ensures Corrected(news, dests0, links, p, name, rtt, lastSent, |dests0|)
  {
    forall k | 0 <= k < |news| ensures Corrects(news[k], dests0, links, p, name, rtt, lastSent, |dests0|) {
      assert Corrects(news[k], dests, links, p, name, rtt, lastSent, |dests|);
      var i :| 0 <= i < |dests| && OffByThird(dests[i], links, p, name, rtt, lastSent) && CorrectLine(news[k], dests[i], p, name, rtt);
      assert dests[i] in dests0;
      var j :| 0 <= j < |dests0| && dests0[j] == dests[i];
    }
    forall i | 0 <= i < |dests0| && OffByThird(dests0[i], links, p, name, rtt, lastSent)
      ensures exists k :: 0 <= k < |news| && news[k].about == dests0[i].name
    {
      assert dests0[i] in dests;
      var j :| 0 <= j < |dests| && dests[j] == dests0[i];
      assert OffByThird(dests[j], links, p, name, rtt, lastSent);
    }
  }

  /** A report that is neither a new time of a neighbour nor merely learned: the lines are exactly those about it. */
  lemma {:induction false} AnnouncedPlain(sent0: seq<Announce>, sent: seq<Announce>, dests: seq<Dest>, links: Links, conns: Conns, p: nat,
                                          name: Name, rtt: int, lastSent: int, before: nat)
    requires Announced(sent0, sent, dests, links, conns, p, name, rtt, lastSent, before) && (rtt == 0 || lastSent == 0)
    ensures ToldRight(sent[|sent0|..], links, conns, p, name, rtt, before) && Wrote(sent0, sent, Some(p))
  {
    forall i | |sent0| <= i < |sent| ensures sent[i].over != p {
      assert RightLine(sent[|sent0|..][i - |sent0|], links, conns, p, name, rtt, before);
    }
  }

  /** Why routes die: the link they lead over is lost, or they were only learned and their time is up. */
  datatype Loss = OverLink(p: nat) | Outdated(stale: set<Name>)

  predicate Dying(d: Dest, loss: Loss) {
    d.rtt != 0 && d.link.Some? &&
    match loss
    case OverLink(p) => d.link.value == p
    case Outdated(stale) => d.learned && d.name in stale
  }

  /** A line that tells of one of the first `n` entries that its route is dead. */
  ghost predicate Mourns(a: Announce, dests: seq<Dest>, links: Links, conns: Conns, loss: Loss, n: nat) {
    exists i :: 0 <= i < n <= |dests| && Dying(dests[i], loss) &&
      RightLine(a, links, conns, dests[i].link.value, dests[i].name, 0, dests[i].link.value)
  }

  /** Of each route that dies everybody who has to is told once that it is dead, and nothing else is told. */
  ghost predicate Mourned(news: seq<Announce>, dests: seq<Dest>, links: Links, conns: Conns, loss: Loss, n: nat) {
    && n <= |dests|
    && (forall k {:trigger Mourns(news[k], dests, links, conns, loss, n)} :: 0 <= k < |news| ==> Mourns(news[k], dests, links, conns, loss, n))
    && (forall j, k :: 0 <= j < k < |news| ==> news[j].about != news[k].about || news[j].over != news[k].over)
    && (forall i, s: nat :: 0 <= i < n && Dying(dests[i], loss) && MustHear(links, conns, dests[i].link.value, dests[i].name, 0, s) ==>
          exists k :: 0 <= k < |news| && news[k].about == dests[i].name && news[k].over == s)
  }

  /** Since `sent0` the routes over link `p`, if there is such a link, have been mourned, and nothing else was written. */
  ghost predicate Grieved(sent0: seq<Announce>, sent: seq<Announce>, dests: seq<Dest>, links: Links, conns: Conns, p: Option<nat>) {
    && sent0 <= sent
    && if p.Some? then Mourned(sent[|sent0|..], dests, links, conns, OverLink(p.value), |dests|) else sent == sent0
  }

  /** Who has to hear of the loss of link `p` depends on the other links alone. */
  lemma {:induction false} MournedElsewhere(news: seq<Announce>, dests: seq<Dest>, links0: Links, conns0: Conns, links: Links, conns: Conns, p: nat)
    requires Mourned(news, dests, links, conns, OverLink(p), |dests|) && IsLink(links0, p) && IsLink(links, p)
    requires forall s :: s != p ==> (Live(links0, conns0, s) <==> Live(links, conns, s))
    requires forall s :: s != p && IsLink(links0, s) && IsLink(links, s) ==> links0[s].value.name == links[s].value.name
    ensures Mourned(news, dests, links0, conns0, OverLink(p), |dests|)
  {
    var loss := OverLink(p);
    forall k | 0 <= k < |news| ensures Mourns(news[k], dests, links0, conns0, loss, |dests|) {
      assert Mourns(news[k], dests, links, conns, loss, |dests|);
      var i :| 0 <= i < |dests| && Dying(dests[i], loss) &&
               RightLine(news[k], links, conns, dests[i].link.value, dests[i].name, 0, dests[i].link.value);
      assert RightLine(news[k], links0, conns0, dests[i].link.value, dests[i].name, 0, dests[i].link.value);
    }
    forall i, s: nat | 0 <= i < |dests| && Dying(dests[i], loss) && MustHear(links0, conns0, dests[i].link.value, dests[i].name, 0, s)
      ensures exists k :: 0 <= k < |news| && news[k].about == dests[i].name && news[k].over == s
    {
      assert MustHear(links, conns, dests[i].link.value, dests[i].name, 0, s);
    }
  }

  lemma {:induction false} MournedMore(news: seq<Announce>, more: seq<Announce>, dests: seq<Dest>, links: Links, conns: Conns, loss: Loss,
                                       n: nat)
    requires Sorted(dests) && n < |dests| && Mourned(news, dests, links, conns, loss, n)
    requires if Dying(dests[n], loss) then ToldRight(more, links, conns, dests[n].link.value, dests[n].name, 0, dests[n].link.value)
             else more == []
    ensures Mourned(news + more, dests, links, conns, loss, n + 1)
  {
    var all := news + more;
    forall k | 0 <= k < |all| ensures Mourns(all[k], dests, links, conns, loss, n + 1) {
      if k < |news| {
        assert Mourns(news[k], dests, links, conns, loss, n);
      } else {
        assert RightLine(more[k - |news|], links, conns, dests[n].link.value, dests[n].name, 0, dests[n].link.value);
      }
    }
    forall j, k | 0 <= j < k < |all| ensures all[j].about != all[k].about || all[j].over != all[k].over {
      if j < |news| <= k {
        assert Mourns(news[j], dests, links, conns, loss, n);
        var i :| 0 <= i < n && Dying(dests[i], loss) &&
                 RightLine(news[j], links, conns, dests[i].link.value, dests[i].name, 0, dests[i].link.value);
        BeforeTotal(dests[i].name, dests[n].name);
      } else if j >= |news| {
        assert more[j - |news|].over < more[k - |news|].over;
      }
    }
    forall i, s: nat | 0 <= i < n + 1 && Dying(dests[i], loss) && MustHear(links, conns, dests[i].link.value, dests[i].name, 0, s)
      ensures exists k :: 0 <= k < |all| && all[k].about == dests[i].name && all[k].over == s
    {
      if i < n {
        var k :| 0 <= k < |news| && news[k].about == dests[i].name && news[k].over == s;
        assert all[k] == news[k];
      } else {
        var k :| 0 <= k < |more| && more[k].over == s;
        assert all[|news| + k] == more[k];
      }
    }
  }

  lemma {:induction false} ObituariesMourn(dests: seq<Dest>, links: Links, conns: Conns, p: nat, n: nat)
    requires Sorted(dests) && TimesOk(links) && IsLink(links, p) && n <= |dests|
    ensures Mourned(Obituaries(dests, links, conns, p, n), dests, links, conns, OverLink(p), n)
  {
    if n > 0 {
      ObituariesMourn(dests, links, conns, p, n - 1);
      ObituaryRight(dests[n - 1], links, conns, p);
      var front, last := Obituaries(dests, links, conns, p, n - 1), Obituary(dests[n - 1], links, conns, p);
      MournedMore(front, last, dests, links, conns, OverLink(p), n - 1);
    }
  }

  lemma {:induction false} ObituaryRight(d: Dest, links: Links, conns: Conns, p: nat)
    requires TimesOk(links) && IsLink(links, p)
    ensures var news := Obituary(d, links, conns, p);
            if Dying(d, OverLink(p)) then ToldRight(news, links, conns, d.link.value, d.name, 0, d.link.value) else news == []
  {
    SaidIsRight(links, conns, p, d.name, 0, p);
  }

  /** Lines have been added, none of them to `not`. */
  ghost predicate Wrote(sent0: seq<Announce>, sent: seq<Announce>, not: Option<nat>) {
    sent0 <= sent && forall i :: |sent0| <= i < |sent| ==> Some(sent[i].over) != not
  }

  /** The link itself is told nothing of its loss. */
  lemma {:induction false} GrievedWrote(sent0: seq<Announce>, sent: seq<Announce>, dests: seq<Dest>, links: Links, conns: Conns, p: Option<nat>)
    requires Grieved(sent0, sent, dests, links, conns, p)
    ensures Wrote(sent0, sent, p)
  {
    if p.Some? {
      forall i | |sent0| <= i < |sent| ensures sent[i].over != p.value {
        assert Mourns(sent[|sent0|..][i - |sent0|], dests, links, conns, OverLink(p.value), |dests|);
      }
    }
  }

  /** The entries for other names are the same. */
  ghost predicate SameOthers(before: seq<Dest>, after: seq<Dest>, name: Name) {
    forall d: Dest :: d.name != name ==> (d in before <==> d in after)
  }

  /** An entry after link `p` was lost. */
  function Widowed(d: Dest, p: nat): Dest {
    if d.rtt != 0 && d.link == Some(p) then Dest(d.name, None, 0, false, 0, "", false, 0) else d
  }

  /** The table after link `p` was lost: every route over it is dead, the others are as they were. */
  function Bereft(dests: seq<Dest>, p: nat): (r: seq<Dest>)
    ensures |r| == |dests| && forall i :: 0 <= i < |r| ==> r[i] == Widowed(dests[i], p)
  {
    if dests == [] then [] else Bereft(dests[..|dests| - 1], p) + [Widowed(dests[|dests| - 1], p)]
  }

  /** The first `n` entries have been gone through. */
  ghost predicate BereftTo(was: seq<Dest>, now: seq<Dest>, p: nat, n: nat) {
    && |now| == |was|
    && (forall k :: 0 <= k < |was| ==> now[k] == if k < n then Widowed(was[k], p) else was[k])
  }

  lemma {:induction false} BereftAll(was: seq<Dest>, now: seq<Dest>, p: nat)
    requires BereftTo(was, now, p, |was|)
    ensures now == Bereft(was, p)
  {}

  lemma {:induction false} BereftRoutes(dests: seq<Dest>, links: Links, conns: Conns, p: nat, lost: Option<nat>)
    requires RoutesOk(dests, links, conns, lost)
    ensures RoutesOk(Bereft(dests, p), links, conns, if lost == Some(p) then None else lost)
  {}

  /** What is said when link `p` is lost: rtt 0 for every route over it among the first `n` entries. */
  function Obituaries(dests: seq<Dest>, links: Links, conns: Conns, p: nat, n: nat): seq<Announce>
    requires TimesOk(links) && IsLink(links, p) && n <= |dests|
  {
    if n == 0 then []
    else Obituaries(dests, links, conns, p, n - 1) + Obituary(dests[n - 1], links, conns, p)
  }

  function Obituary(d: Dest, links: Links, conns: Conns, p: nat): seq<Announce>
    requires TimesOk(links) && IsLink(links, p)
  {
    if d.rtt != 0 && d.link == Some(p) then SaidTo(links, conns, p, d.name, 0, p, |links|) else []
  }

  /** Since `sent0` the obituaries of the first `n` entries have been written. */
  ghost predicate Told(sent0: seq<Announce>, sent: seq<Announce>, dests: seq<Dest>, links: Links, conns: Conns, p: nat, n: nat) {
    TimesOk(links) && IsLink(links, p) && n <= |dests| && sent == sent0 + Obituaries(dests, links, conns, p, n)
  }

  lemma {:induction false} ToldOne(sent0: seq<Announce>, sent: seq<Announce>, dests: seq<Dest>, links: Links, conns: Conns, p: nat, n: nat)
    requires Told(sent0, sent, dests, links, conns, p, n) && n < |dests|
    ensures Told(sent0, sent + Obituary(dests[n], links, conns, p), dests, links, conns, p, n + 1)
  {}

  /** An entry after a clean-up for the host `name`. */
  function Cleaned(d: Dest, links: Links, conns: Conns, name: Name): Dest {
    if d.link.Some? && d.connected && Open(links, conns, d.link.value) &&
       conns[links[d.link.value].value.conn.value].name != name
    then d else d.(link := None, rtt := 0, lastSent := 0, connected := false)
  }

  /** The link has a connection of some kind. */
  predicate Open(links: Links, conns: Conns, s: int) {
    IsLink(links, s) && links[s].value.conn.Some? && links[s].value.conn.value in conns
  }

  /** The routes over link `p` are dead, every other live one is as it was, and dead ones stay dead. */
  ghost predicate Cut(before: seq<Dest>, after: seq<Dest>, p: Option<nat>) {
    |after| == |before| && forall i :: 0 <= i < |after| ==> CutAt(before[i], after[i], p)
  }

  /** No live route leads to `name`. */
  ghost predicate Unrouted(dests: seq<Dest>, name: Name) {
    forall i :: 0 <= i < |dests| && dests[i].name == name ==> dests[i].link.None?
  }

  lemma {:induction false} CutUnrouted(before: seq<Dest>, after: seq<Dest>, name: Name)
    requires Cut(before, after, None) && Unrouted(before, name)
    ensures Unrouted(after, name)
  {
    forall i | 0 <= i < |after| && after[i].name == name ensures after[i].link.None? {
      assert CutAt(before[i], after[i], None);
    }
  }

  predicate CutAt(before: Dest, after: Dest, p: Option<nat>) {
    && after.name == before.name
    && (if before.link.Some? && before.link != p then after == before else after.link.None?)
  }

  // ---------------------------------------------------------------- look-ups

  function FindLink(links: Links, name: Name): (r: Option<nat>)
    ensures r.Some? ==> IsLink(links, r.value) && links[r.value].value.name == name
    ensures r.None? ==> forall s :: IsLink(links, s) ==> links[s].value.name != name
  {
    FindLinkFrom(links, name, 0)
  }

  function FindLinkFrom(links: Links, name: Name, from: nat): (r: Option<nat>)
    requires from <= |links|
    ensures r.Some? ==> IsLink(links, r.value) && links[r.value].value.name == name
    ensures r.None? ==> forall s :: from <= s && IsLink(links, s) ==> links[s].value.name != name
    decreases |links| - from
  {
    if from == |links| then None
    else if links[from].Some? && links[from].value.name == name then Some(from)
    else FindLinkFrom(links, name, from + 1)
  }

  function FindFree(links: Links, from: nat): (r: Option<nat>)
    requires from <= |links|
    ensures r.Some? ==> r.value < |links| && links[r.value].None?
    decreases |links| - from
  {
    if from == |links| then None else if links[from].None? then Some(from) else FindFree(links, from + 1)
  }

  function FindDest(dests: seq<Dest>, name: Name, from: nat): (r: Option<nat>)
    requires from <= |dests|
    ensures r.Some? ==> r.value < |dests| && dests[r.value].name == name
    ensures r.None? ==> forall i :: from <= i < |dests| ==> dests[i].name != name
    decreases |dests| - from
  {
    if from == |dests| then None
    else if dests[from].name == name then Some(from)
    else FindDest(dests, name, from + 1)
  }

  lemma {:induction false} SortedInsert(ds: seq<Dest>, i: nat, d: Dest)
    requires Sorted(ds) && i <= |ds|
    requires forall k :: 0 <= k < i ==> Before(ds[k].name, d.name)
    requires forall k :: i <= k < |ds| ==> Before(d.name, ds[k].name)
    ensures Sorted(ds[..i] + [d] + ds[i..])
  {
    var r := ds[..i] + [d] + ds[i..];
    assert forall k :: i < k < |r| ==> r[k] == ds[k - 1];
  }

  /** In a sorted table a name stands once. */
  lemma {:induction false} SortedUnique(ds: seq<Dest>, i: nat, j: nat)
    requires Sorted(ds) && i < |ds| && j < |ds| && ds[i].name == ds[j].name
    ensures i == j
  {
    BeforeTotal(ds[i].name, ds[j].name);
  }

  /** An entry that is kept: it is alive, and is not a learned one whose time is up. */
  predicate Fresh(d: Dest, stale: set<Name>) {
    (d.rtt != 0 || d.link.Some? || d.connected) && !(d.learned && d.name in stale)
  }

  function Kept(dests: seq<Dest>, stale: set<Name>): seq<Dest> {
    if dests == [] then []
    else (if Fresh(dests[0], stale) then [dests[0]] else []) + Kept(dests[1..], stale)
  }

  /** The first `i` entries are kept, the rest is still to be gone through. */
  ghost predicate KeptTo(was: seq<Dest>, now: seq<Dest>, i: nat, stale: set<Name>) {
    i <= |now| && Kept(was, stale) == now[..i] + Kept(now[i..], stale)
  }

  lemma {:induction false} KeptOne(was: seq<Dest>, now: seq<Dest>, i: nat, stale: set<Name>)
    requires KeptTo(was, now, i, stale) && i < |now| && Fresh(now[i], stale)
    ensures KeptTo(was, now, i + 1, stale)
  {
    assert now[i..][0] == now[i] && now[i..][1..] == now[i + 1..];
    assert now[..i + 1] == now[..i] + [now[i]];
  }

  lemma {:induction false} DroppedOne(was: seq<Dest>, now: seq<Dest>, i: nat, stale: set<Name>)
    requires KeptTo(was, now, i, stale) && i < |now| && !Fresh(now[i], stale)
    ensures KeptTo(was, now[..i] + now[i + 1..], i, stale)
  {
    var after := now[..i] + now[i + 1..];
    assert now[i..][0] == now[i] && now[i..][1..] == now[i + 1..];
    assert after[..i] == now[..i] && after[i..] == now[i + 1..];
  }

  lemma {:induction false} KeptAll(was: seq<Dest>, now: seq<Dest>, stale: set<Name>)
    requires KeptTo(was, now, |now|, stale)
    ensures now == Kept(was, stale)
  {
    assert now[..|now|] == now && now[|now|..] == [];
  }

  lemma {:induction false} DropRoutesOk(dests: seq<Dest>, i: nat, links: Links, conns: Conns)
    requires RoutesOk(dests, links, conns, None) && i < |dests|
    ensures RoutesOk(dests[..i] + dests[i + 1..], links, conns, None)
  {
    var r := dests[..i] + dests[i + 1..];
    assert forall k :: 0 <= k < |r| ==> r[k] == dests[if k < i then k else k + 1];
  }

  /** The times of a link after a pong: the measured one smoothed, the reported one as it is. */
  function Ponged(l: Link, reported: int, elapsed: int): (r: Link)
    requires l.tx >= 0
    ensures r.tx >= 1 && r.rx >= 1 && Estimate(r) >= 1
  {
    var measured := if elapsed > 1 then elapsed else 1;
    var rx := if reported < 1 then measured else reported;
    l.(tx := if l.tx != 0 then (5 * l.tx + measured) / 6 else measured, rx := rx)
  }

  // ---------------------------------------------------------------- how the parts change

  /** A link that gets connection `cp`, or loses the one it had. */
  function Relinked(l: Link, cp: Option<nat>, isperm: bool): Link {
    if cp.Some? then l.(conn := cp, rx := 0, tx := 0, permanent := l.permanent || isperm)
    else if l.permanent then l
    else l.(conn := None)
  }

  /** A link without a connection that is dropped for want of use. */
  predicate Expires(l: Link, lockOver: bool, unused: bool) {
    !l.permanent && (lockOver || !l.locked) && unused
  }

  function NewLink(name: Name, cp: Option<nat>, isperm: bool): Link {
    Link(name, cp, None, None, isperm, false, 0, 0)
  }

  /** The slot an update of the link `name` goes to, if there is room. */
  function SlotFor(links: Links, name: Name): Option<nat> {
    if FindLink(links, name).Some? then FindLink(links, name) else FindFree(links, 0)
  }

  function Relink(links: Links, name: Name, cp: Option<nat>, isperm: bool): Links {
    var s := SlotFor(links, name);
    if s.None? then links
    else links[s.value := Some(if links[s.value].Some? then Relinked(links[s.value].value, cp, isperm)
                               else NewLink(name, cp, isperm))]
  }

  /** The table after host `name` was let in over `cp`. */
  function Welcomed(links: Links, name: Name, cp: nat): Links {
    var s := SlotFor(links, name);
    var after := Relink(links, name, Some(cp), false);
    if s.None? then links else after[s.value := Some(after[s.value].value.(tx := 3, rx := -1))]
  }

  /** No other link of the chain of `s` is live. */
  ghost predicate OthersDead(links: Links, conns: Conns, place: map<nat, Place>, s: nat) {
    forall t :: Live(links, conns, t) && t != s && s in place && t in place ==> place[s].chain != place[t].chain
  }

  /** Closing a connection and everything that came over it. */
  function CloseOver(conns: Conns, cp: nat): Conns {
    map c | c in conns :: if c == cp || conns[c].via == Some(cp) then conns[c].(kind := Closed) else conns[c]
  }

  lemma {:induction false} CloseOverPresence(me: Name, conns: Conns, cp: nat)
    requires PresenceOk(me, conns) && cp in conns
    ensures PresenceOk(me, CloseOver(conns, cp))
  {}

  /** Adding a user over `cp` when no user of that host came another way. */
  lemma {:induction false} JoinPresence(me: Name, conns: Conns, id: nat, cp: nat, name: Name, host: Name, time: int)
    requires PresenceOk(me, conns) && id !in conns && cp in conns && conns[cp].kind == Host && host != me
    requires forall u :: u in conns && conns[u].kind == User && conns[u].host == host ==> conns[u].via == Some(cp)
    ensures PresenceOk(me, conns[id := Conn(User, name, host, Some(cp), time)])
  {}

  // ---------------------------------------------------------------- admission of a host

  /** The link that holds connection `c`. */
  function FindHolder(links: Links, c: nat, from: nat): (r: Option<nat>)
    requires from <= |links|
    ensures r.Some? ==> IsLink(links, r.value) && links[r.value].value.conn == Some(c)
    ensures r.None? ==> forall s :: from <= s && IsLink(links, s) ==> links[s].value.conn != Some(c)
    decreases |links| - from
  {
    if from == |links| then None
    else if links[from].Some? && links[from].value.conn == Some(c) then Some(from)
    else FindHolder(links, c, from + 1)
  }

  /** The link a host that calls itself `name` over `cp` stands for: the one of that name, or the one that called it. */
  function Own(links: Links, cp: nat, name: Name): Option<nat> {
    if FindLink(links, name).Some? then FindLink(links, name) else FindHolder(links, cp, 0)
  }

  /** A host that was called under one name does not answer with the name of another link. */
  predicate NoClash(links: Links, cp: nat, name: Name) {
    forall s, t :: 0 <= s < |links| && 0 <= t < |links| && links[s].Some? && links[t].Some? &&
                   links[s].value.conn == Some(cp) && links[t].value.name == name ==>
      s == t
  }

  datatype Verdict = Refused | WrongPassword | Locked | Outranked | Reorganised | KnownElsewhere | TableFull | Accepted

  /** The link has proved to work, or is too young to tell. */
  predicate Working(links: Links, conns: Conns, s: int, now: int) {
    Live(links, conns, s) && (links[s].value.tx != 0 || now - conns[links[s].value.conn.value].time < 120)
  }

  /** What becomes of a host that calls itself `name` over connection `cp`. */
  ghost function Admission(me: Name, conns: Conns, links: Links, dests: seq<Dest>, place: map<nat, Place>,
                           cp: nat, name: Name, allowed: bool, authentic: bool, now: int): Verdict
    requires cp in conns
  {
    var own := Own(links, cp, name);
    var chain := if own.Some? && !Live(links, conns, own.value) then ChainVerdict(links, conns, place, own.value, now)
                 else Accepted;
    if !allowed || name == me || conns[cp].kind != Unknown then Refused
    else if !authentic then WrongPassword
    else if chain != Accepted then chain
    else if RoutedElsewhere(dests, name, own) then KnownElsewhere
    else if own.None? && FindFree(links, 0).None? then TableFull
    else Accepted
  }

  /** What the chain of link `s` says to its being connected; a reconnect is not asked. */
  ghost function ChainVerdict(links: Links, conns: Conns, place: map<nat, Place>, s: nat, now: int): Verdict
    requires IsLink(links, s)
  {
    if links[s].value.locked then Locked
    else if WorksBelow(links, conns, place, s, now) then Outranked
    else if !OthersDead(links, conns, place, s) then Reorganised
    else Accepted
  }

  /** A link of higher priority in the chain of `s` works. */
  ghost predicate WorksBelow(links: Links, conns: Conns, place: map<nat, Place>, s: nat, now: int) {
    exists t: nat :: Below(place, t, s) && Working(links, conns, t, now)
  }

  /** A live route to `name` leads over another link than `own`. */
  ghost predicate RoutedElsewhere(dests: seq<Dest>, name: Name, own: Option<nat>) {
    exists i :: 0 <= i < |dests| && dests[i].name == name && dests[i].link.Some? && dests[i].link != own
  }

  predicate SameChain(place: map<nat, Place>, a: nat, b: nat) {
    a in place && b in place && place[a].chain == place[b].chain
  }

  /** Connection `c` is that of a live link of the chain of `own`, or came over it. */
  ghost predicate OfChain(conns: Conns, links: Links, place: map<nat, Place>, own: Option<nat>, c: nat) {
    exists t: nat :: Live(links, conns, t) && own.Some? && SameChain(place, t, own.value) && c in conns &&
      (links[t].value.conn == Some(c) || conns[c].via == links[t].value.conn)
  }

  /** Besides `cp`, at most connections of the chain of `own` have been closed. */
  ghost predicate OnlyChain(conns0: Conns, links0: Links, place: map<nat, Place>, own: Option<nat>, cp: nat, conns: Conns) {
    && conns.Keys == conns0.Keys
    && forall c :: c in conns && c != cp ==>
         conns[c] == conns0[c] || (conns[c] == conns0[c].(kind := Closed) && OfChain(conns0, links0, place, own, c))
  }

  /** All connections but `cp` are as they were. */
  ghost predicate OnlyThis(conns0: Conns, conns: Conns, cp: nat) {
    conns.Keys == conns0.Keys && forall c :: c in conns && c != cp ==> conns[c] == conns0[c]
  }

  /** Slot `s` does not belong to the chain of `own`. */
  predicate Apart(place: map<nat, Place>, own: Option<nat>, s: nat) {
    !(own.Some? && SameChain(place, s, own.value))
  }

  /** At most links of the chain of `own` have changed. */
  ghost predicate LinksWithin(before: Links, after: Links, place: map<nat, Place>, own: Option<nat>) {
    |after| == |before| && forall s: nat :: s < |before| && Apart(place, own, s) ==> after[s] == before[s]
  }

  /** Of the live routes, save to `name`, none is new, and at most those over the chain of `own` are gone. */
  ghost predicate RoutesWithin(before: seq<Dest>, after: seq<Dest>, place: map<nat, Place>, own: Option<nat>, name: Name) {
    && (forall d :: d in after && d.link.Some? && d.name != name ==> d in before)
    && (forall d :: d in before && d.link.Some? && d.name != name && Apart(place, own, d.link.value) ==> d in after)
  }

  lemma {:induction false} CutWithin(before: seq<Dest>, after: seq<Dest>, p: Option<nat>, place: map<nat, Place>, own: Option<nat>, name: Name)
    requires Cut(before, after, p) && (p.Some? ==> !Apart(place, own, p.value))
    ensures RoutesWithin(before, after, place, own, name)
  {
    forall d | d in after && d.link.Some? ensures d in before {
      var i :| 0 <= i < |after| && after[i] == d;
      assert CutAt(before[i], after[i], p);
    }
    forall d | d in before && d.link.Some? && Apart(place, own, d.link.value) ensures d in after {
      var i :| 0 <= i < |before| && before[i] == d;
      assert CutAt(before[i], after[i], p);
    }
  }

  lemma {:induction false} RoutesWithinThen(before: seq<Dest>, mid: seq<Dest>, after: seq<Dest>, place: map<nat, Place>, own: Option<nat>, name: Name)
    requires RoutesWithin(before, mid, place, own, name) && RoutesWithin(mid, after, place, None, name)
    ensures RoutesWithin(before, after, place, own, name)
  {
    forall d | d in before && d.link.Some? && d.name != name && Apart(place, own, d.link.value) ensures d in after {
      assert d in mid && Apart(place, None, d.link.value);
    }
  }

  lemma {:induction false} OthersWithin(before: seq<Dest>, after: seq<Dest>, place: map<nat, Place>, name: Name)
    requires SameOthers(before, after, name)
    ensures RoutesWithin(before, after, place, None, name)
  {}

  /** The table in which the caller's link, found or made, bears its name and has its connection and the first times. */
  function Enrolled(links: Links, cp: nat, name: Name): Links {
    var own := Own(links, cp, name);
    var slot := if own.Some? then own else FindFree(links, 0);
    if slot.None? then links
    else
      var l := if links[slot.value].Some? then links[slot.value].value else Link([], None, None, None, false, false, 0, 0);
      links[slot.value := Some(l.(name := name, conn := Some(cp), rx := -1, tx := 3))]
  }

  lemma {:induction false} OnlyChainThen(conns0: Conns, links0: Links, place: map<nat, Place>, own: Option<nat>, cp: nat,
                                         mid: Conns, conns: Conns)
    requires OnlyChain(conns0, links0, place, own, cp, mid) && OnlyThis(mid, conns, cp)
    ensures OnlyChain(conns0, links0, place, own, cp, conns)
  {}

  lemma {:induction false} OnlyThisChain(conns0: Conns, links0: Links, place: map<nat, Place>, own: Option<nat>, cp: nat, conns: Conns)
    requires OnlyThis(conns0, conns, cp)
    ensures OnlyChain(conns0, links0, place, own, cp, conns)
  {}

  /** Closing a live link of the chain of `own` stays within it. */
  lemma {:induction false} CloseOverChain(conns: Conns, links: Links, place: map<nat, Place>, own: nat, cp: nat, t: nat)
    requires Live(links, conns, t) && SameChain(place, t, own)
    ensures OnlyChain(conns, links, place, Some(own), cp, CloseOver(conns, links[t].value.conn.value))
  {
    var after := CloseOver(conns, links[t].value.conn.value);
    forall c | c in after && c != cp
      ensures after[c] == conns[c] || (after[c] == conns[c].(kind := Closed) && OfChain(conns, links, place, Some(own), c))
    {
      if after[c] != conns[c] {
        assert links[t].value.conn == Some(c) || conns[c].via == links[t].value.conn;
      }
    }
  }

  /** A name given to `cp` and to its link does not change what belongs to the chain. */
  lemma {:induction false} OnlyChainNamed(conns0: Conns, named: Conns, links0: Links, links: Links, place: map<nat, Place>,
                                          own: Option<nat>, cp: nat, conns: Conns)
    requires OnlyThis(conns0, named, cp) && cp in conns0 && conns0[cp].kind != Host && named[cp].kind != Host
    requires |links| == |links0| && forall s :: 0 <= s < |links| ==>
               links[s].Some? == links0[s].Some? && (links[s].Some? ==> links[s].value.conn == links0[s].value.conn)
    requires OnlyChain(named, links, place, own, cp, conns)
    ensures OnlyChain(conns0, links0, place, own, cp, conns)
  {
    forall c | c in conns && c != cp && conns[c] != conns0[c] ensures OfChain(conns0, links0, place, own, c) {
      assert OfChain(named, links, place, own, c);
      var t: nat :| Live(links, named, t) && own.Some? && SameChain(place, t, own.value) && c in named &&
                    (links[t].value.conn == Some(c) || named[c].via == links[t].value.conn);
      assert Live(links0, conns0, t);
    }
  }
}
