/**
 The events at a host, and what each does to its connections, its link table and its destinations: `Shows`
 relates the state after an event to the state before.
 */
module Effects {
  import opened Common
  import opened ServerState
  import opened Chains
  import opened LinkSteps
  import opened Greeting

  /** What a neighbour, or somebody who has just connected, says. */
  datatype Command =
    | HostLine(name: Name, allowed: bool, authentic: bool, learned: bool)
    | NameLine(user: Name)
    | UserLine(user: Name, host: Name, time: int, duplicate: bool)
    | PartLine(user: Name, host: Name, which: Option<nat>)
    | QuitLine(who: Option<Name>, host: Name, accept: bool)
    | DestLine(name: Name, rtt: int, hops: int, neighbour: Name, learned: bool)
    | PongLine(reported: int, elapsed: int, learned: bool)

  /** What happens at a host: a line from connection `cp`, connections that come and go, periodic work, and configuration. */
  datatype Event =
    | Line(cp: nat, command: Command, now: int)
    | Connected(now: int)
    | Calling(slot: nat, now: int)
    | Lost(cp: nat)
    | Cleaning(late: set<nat>)
    | Aging(stale: set<Name>)
    | Silent(slot: nat)
    | Idle(slot: nat, lockOver: bool, unused: bool)
    | Configured(name: Name, primary: Name, room: bool)
    | Replaced(name: Name, primary: Name)
    | Deleted(name: Name)

  /** The connections after the live one of link `p`, if it has one, was closed. */
  function DroppedConns(links: Links, conns: Conns, p: nat): Conns {
    if Live(links, conns, p) then CloseOver(conns, links[p].value.conn.value) else conns
  }

  /** The link table after that. */
  function DroppedLinks(links: Links, conns: Conns, p: nat): Links {
    if Live(links, conns, p) then Relink(links, links[p].value.name, None, false) else links
  }

  /** Since `sent0` the new neighbour has been told exactly the routes it has to be told, and the others have been told of it. */
  ghost predicate GreetedBy(sent0: seq<Announce>, sent: seq<Announce>, dests: seq<Dest>, links: Links, conns: Conns, cp: nat, name: Name,
                            learned: bool)
  {
    sent0 <= sent && FindLink(links, name).Some? &&
    var slot := FindLink(links, name).value;
    Greeted(sent, |sent0|, dests, links, cp, slot, name) && (!learned ==> ToldLast(sent, |sent0|, links, conns, slot, name))
  }

  /** The last lines, none from before `from`, tell those who have to hear of it that `name` is a neighbour. */
  ghost predicate ToldLast(sent: seq<Announce>, from: nat, links: Links, conns: Conns, slot: nat, name: Name) {
    exists m :: from <= m <= |sent| && ToldRight(sent[m..], links, conns, slot, name, 1, slot)
  }

  /** A dead route was last told as dead. */
  lemma {:induction false} UnroutedEntry(dests: seq<Dest>, links: Links, conns: Conns, name: Name)
    requires RoutesOk(dests, links, conns, None) && Unrouted(dests, name)
    ensures var i := FindDest(dests, name, 0); i.Some? ==> dests[i.value].lastSent == 0 && dests[i.value].link.None?
  {
    var i := FindDest(dests, name, 0);
    if i.Some? {
      assert RouteOk(dests[i.value], links, conns, None);
    }
  }

  predicate IsLocked(links: Links, s: nat) {
    IsLink(links, s) && links[s].value.locked
  }

  /** A live link may be put behind another chain only if no link of that is live. */
  ghost predicate MoveOk(links: Links, conns: Conns, place: map<nat, Place>, p: nat, named: Option<nat>) {
    IsLink(links, p) && links[p].value.primary.None? && named.Some? && Live(links, conns, p) ==>
      ChainDead(links, conns, place, named.value)
  }

  /** A link line that keeps the chains, and one live link in each: a new name, or one that may be added again. */
  ghost predicate LinkLineOk(links: Links, conns: Conns, place: map<nat, Place>, name: Name, primary: Name, room: bool) {
    var p := FindLink(links, name);
    p.Some? && room ==>
      && Readdable(EndsOf(links), place, p.value, Named(links, p.value, primary))
      && MoveOk(links, conns, place, p.value, Named(links, p.value, primary))
  }

  /** Should the link in this slot be dropped, it has no neighbour in a chain. */
  predicate ExpiryOk(links: Links, slot: nat, lockOver: bool, unused: bool) {
    IsLink(links, slot) && links[slot].value.conn.None? && Expires(links[slot].value, lockOver, unused) ==>
      links[slot].value.primary.None? && links[slot].value.backup.None?
  }

  /** A new link stands in `slot`: behind the end of the chain of `primary`, if there is such a link. */
  ghost predicate Configures(was: Links, links: Links, place: map<nat, Place>, name: Name, primary: Name, slot: nat) {
    && IsLink(links, slot) && links[slot].value.name == name && slot < |was|
    && var p := FindLink(was, primary);
       if p.None? || primary == [] then links == was[slot := Some(NewLink(name, None, true))]
       else
         && Backs(links, place, slot, p.value) && p.value != slot
         && (was[p.value].value.backup.None? ==>
               links == Linked(was[slot := Some(NewLink(name, None, true))], slot, p.value))
  }

  /** When a link has gone, its name is free, and its slot too. */
  lemma {:induction false} SeveredName(links: Links, after: Links, conns: Conns, x: nat)
    requires Severed(links, after, x) && LinksOk(links, conns, None)
    ensures FindLink(after, links[x].value.name).None? && FindFree(after, 0).Some?
  {
    var name := links[x].value.name;
    forall s | IsLink(after, s) ensures after[s].value.name != name {
      assert after[s] == SeveredAt(links, x, s) && IsLink(links, s) && IsLink(links, x);
    }
    assert after[x].None?;
    FreeExists(after, 0, x);
  }

  lemma {:induction false} FreeExists(links: Links, from: nat, x: nat)
    requires from <= x < |links| && links[x].None?
    ensures FindFree(links, from).Some?
    decreases |links| - from
  {
    if links[from].Some? {
      FreeExists(links, from + 1, x);
    }
  }

  /** Link `p` is the last of the chain of link `s`. */
  ghost predicate Backs(links: Links, place: map<nat, Place>, p: nat, s: nat) {
    && p in place && s in place && place[p].chain == place[s].chain
    && IsLink(links, p) && links[p].value.primary.Some? && links[p].value.backup.None?
  }

  /** A new link does not change which link bears another name. */
  lemma {:induction false} SameLink(was: Links, links: Links, conns: Conns, p: nat, name: Name)
    requires LinksOk(links, conns, None) && p < |was| && was[p].None? && IsLink(links, p)
    requires links == was[p := links[p]] && links[p].value.name != name
    ensures FindLink(was, name) == FindLink(links, name)
  {
    var a, b := FindLink(was, name), FindLink(links, name);
    if a.Some? {
      assert IsLink(links, a.value);
    }
    if b.Some? {
      assert IsLink(was, b.value) && IsLink(links, b.value);
    }
  }

  /** The host `name` is our neighbour over `cp`: its link holds the connection, and the route to it is one hop. */
  ghost predicate Established(me: Name, links: Links, conns: Conns, dests: seq<Dest>, cp: nat, name: Name, learned: bool) {
    && cp in conns && conns[cp].kind == Host && conns[cp].name == name
    && FindLink(links, name).Some?
    && var s := FindLink(links, name).value;
       links[s].value.conn == Some(cp) && links[s].value.tx == 3 && links[s].value.rx == -1 &&
       Dest(name, Some(s), 1, true, 1, me, learned, 1) in dests
  }

  lemma {:induction false} ReplacedOthers(ds: seq<Dest>, i: nat, d: Dest)
    requires i < |ds| && ds[i].name == d.name
    ensures SameOthers(ds, ds[i := d], d.name)
  {
    forall e: Dest | e.name != d.name ensures e in ds <==> e in ds[i := d] {
      if e in ds {
        var k :| 0 <= k < |ds| && ds[k] == e;
        assert ds[i := d][k] == e;
      }
    }
  }

  lemma {:induction false} InsertedOthers(ds: seq<Dest>, i: nat, d: Dest)
    requires i <= |ds|
    ensures SameOthers(ds, ds[..i] + [d] + ds[i..], d.name)
  {
    assert ds == ds[..i] + ds[i..];
  }

  lemma {:induction false} FindAt(ds: seq<Dest>, i: nat)
    requires Sorted(ds) && i < |ds|
    ensures FindDest(ds, ds[i].name, 0) == Some(i)
  {
    var at := FindDest(ds, ds[i].name, 0);
    SortedUnique(ds, at.value, i);
  }

  /** The table after the times told of corrected entries were noted. */
  ghost predicate SettledAll(before: seq<Dest>, after: seq<Dest>, links: Links, conns: Conns, p: nat, name: Name, rtt: int, lastSent: int) {
    && |after| == |before|
    && forall i :: 0 <= i < |before| ==>
         after[i] == if Restates(links, conns, p, name, rtt, lastSent) && OffByThird(before[i], links, p, name, rtt, lastSent)
                     then before[i].(lastSent := before[i].rtt) else before[i]
  }

  lemma {:induction false} AllSettled(before: seq<Dest>, after: seq<Dest>, links: Links, conns: Conns, p: nat, name: Name, rtt: int, lastSent: int)
    requires |after| == |before| && forall i :: 0 <= i < |before| ==>
               after[i] == if Restates(links, conns, p, name, rtt, lastSent) then Settling(before[i], links, p, name, rtt, lastSent) else before[i]
    ensures SettledAll(before, after, links, conns, p, name, rtt, lastSent)
  {
    forall i | 0 <= i < |before|
      ensures after[i] == if Restates(links, conns, p, name, rtt, lastSent) && OffByThird(before[i], links, p, name, rtt, lastSent)
                          then before[i].(lastSent := before[i].rtt) else before[i]
    {
      MovedByThird(before[i], links, p, name, rtt, lastSent);
    }
  }

  /** Entering and announcing: what both do together. */
  lemma {:induction false} HeardNow(dests0: seq<Dest>, mid: seq<Dest>, dests: seq<Dest>, sent0: seq<Announce>, sent: seq<Announce>,
                                    links: Links, conns: Conns, p: nat, entry: Dest, rtt: int, lastSent: int, before: nat)
    requires entry in mid && SameOthers(dests0, mid, entry.name) && lastSent == LastSent(EntryFor(dests0, entry.name))
    requires var at := FindDest(dests0, entry.name, 0); at.Some? ==> mid == dests0[at.value := entry]
    requires SettledAll(mid, dests, links, conns, p, entry.name, rtt, lastSent)
    requires Announced(sent0, sent, mid, links, conns, p, entry.name, rtt, lastSent, before)
    ensures entry in dests && OthersAfter(dests0, dests, links, conns, p, entry.name, rtt, lastSent)
    ensures Announced(sent0, sent, dests0, links, conns, p, entry.name, rtt, lastSent, before)
    ensures rtt == 0 ==> dests == mid
  {
    AnnouncedOthers(sent0, sent, dests0, mid, links, conns, p, entry.name, rtt, lastSent, before);
    EnteredNow(dests0, mid, dests, links, conns, p, entry, rtt, lastSent);
  }

  lemma {:induction false} EnteredNow(dests0: seq<Dest>, mid: seq<Dest>, dests: seq<Dest>, links: Links, conns: Conns, p: nat, entry: Dest,
                                      rtt: int, lastSent: int)
    requires entry in mid && SameOthers(dests0, mid, entry.name) && lastSent == LastSent(EntryFor(dests0, entry.name))
    requires var at := FindDest(dests0, entry.name, 0); at.Some? ==> mid == dests0[at.value := entry]
    requires SettledAll(mid, dests, links, conns, p, entry.name, rtt, lastSent)
    ensures entry in dests && OthersAfter(dests0, dests, links, conns, p, entry.name, rtt, lastSent) && (rtt == 0 ==> dests == mid)
  {
    var i :| 0 <= i < |mid| && mid[i] == entry;
    assert dests[i] == entry;
    if !Restates(links, conns, p, entry.name, rtt, lastSent) {
      assert dests == mid;
    }
  }

  /** A first report is not a new time of a known neighbour. */
  lemma {:induction false} HeardFirst(dests0: seq<Dest>, dests: seq<Dest>, sent0: seq<Announce>, sent: seq<Announce>, links: Links,
                                      conns: Conns, p: nat, name: Name, rtt: int, hops: int, neighbour: Name, learned: bool)
    requires Heard(dests0, dests, sent0, sent, links, conns, p, name, rtt, hops, neighbour, learned)
    requires LastSent(EntryFor(dests0, name)) == 0 && (EntryFor(dests0, name).Some? ==> EntryFor(dests0, name).value.link.None?) && rtt > 0
    ensures Dest(name, Some(p), rtt, true, hops + 1, neighbour, learned, rtt) in dests
    ensures SameOthers(dests0, dests, name) && Wrote(sent0, sent, Some(p))
    ensures !learned ==> ToldRight(sent[|sent0|..], links, conns, p, name, rtt, p)
  {
    if !learned {
      AnnouncedPlain(sent0, sent, dests0, links, conns, p, name, rtt, 0, p);
    }
  }

  // ---------------------------------------------------------------- what an event does

  /** A host at one moment. */
  datatype Snapshot = Snapshot(me: Name, conns: Conns, links: Links, dests: seq<Dest>, sent: seq<Announce>, place: map<nat, Place>,
                               nextId: nat)

  /** Nothing has happened. */
  ghost predicate Still(a: Snapshot, b: Snapshot) {
    b.conns == a.conns && b.links == a.links && b.dests == a.dests && b.sent == a.sent
  }

  /** Connection `cp` and everything that came over it is closed, and nothing else. */
  ghost predicate ClosedOver(a: Conns, b: Conns, cp: nat) {
    && b.Keys == a.Keys
    && forall c :: c in a ==> b[c] == if c == cp || a[c].via == Some(cp) then a[c].(kind := Closed) else a[c]
  }

  /** A link whose connection is lost: one that was not configured forgets it. It is locked if it was taken for a loop. */
  predicate LinkLost(a: Links, b: Links, p: nat, locks: bool) {
    && IsLink(a, p)
    && var l := a[p].value;
       b == a[p := Some(l.(conn := if l.permanent then l.conn else None, locked := l.locked || locks))]
  }

  /** A neighbour is gone, with everything that came over it and every route over its link, and the others have been told so. */
  ghost predicate NeighbourGone(a: Snapshot, b: Snapshot, cp: nat, locks: bool) {
    var p := FindHolder(a.links, cp, 0);
    && p.Some? && ClosedOver(a.conns, b.conns, cp) && LinkLost(a.links, b.links, p.value, locks)
    && Cut(a.dests, b.dests, p) && Grieved(a.sent, b.sent, a.dests, a.links, a.conns, p)
  }

  /** The time of a link, one way. */
  function OneWay(l: Link): int {
    if l.rx == -1 then l.tx else (l.tx + l.rx) / 2
  }

  /** A host that no live route led to is learned from a sign-on: it is one hop behind neighbour `cp`. */
  ghost predicate Learnt(a: Snapshot, b: Snapshot, cp: nat, host: Name) {
    var p := FindHolder(a.links, cp, 0);
    p.Some? && IsLink(a.links, p.value) && cp in a.conns && b.sent == a.sent &&
    if Reached(a, host) then b.dests == a.dests
    else
      var rtt := 1 + OneWay(a.links[p.value].value);
      Dest(host, p, rtt, true, 2, a.conns[cp].name, true, rtt) in b.dests && SameOthers(a.dests, b.dests, host)
  }

  /** A live route leads to `host`. */
  ghost predicate Reached(a: Snapshot, host: Name) {
    exists d :: d in a.dests && d.name == host && d.link.Some?
  }

  /** It leads over the link that holds connection `cp`. */
  ghost predicate ReachedOver(a: Snapshot, host: Name, cp: nat) {
    exists d :: d in a.dests && d.name == host && d.link.Some? && IsLink(a.links, d.link.value) && a.links[d.link.value].value.conn == Some(cp)
  }

  /** Neighbour `cp` speaks for a host that cannot be behind it: ourselves, or one that is reached or has users another way. */
  ghost predicate Looping(a: Snapshot, cp: nat, host: Name) {
    || host == a.me || (Reached(a, host) && !ReachedOver(a, host, cp))
    || exists c :: c in a.conns && a.conns[c].kind == User && a.conns[c].host == host && a.conns[c].via != Some(cp)
  }

  /** Of those who came from `host`, whoever came last came over `cp`. */
  ghost predicate LastOver(a: Snapshot, host: Name, cp: nat) {
    forall c :: c in a.conns && a.conns[c].via.Some? && a.conns[c].host == host && a.conns[c].via != Some(cp) ==>
      exists k :: k in a.conns && a.conns[k].via.Some? && a.conns[k].host == host && k > c
  }

  /** The users that a quit is about are gone, and nobody else. */
  ghost predicate QuitGone(a: Conns, b: Conns, cp: nat, who: Option<Name>, host: Name) {
    && b.Keys == a.Keys
    && forall c :: c in a ==>
         b[c] == if a[c].kind == User && a[c].via == Some(cp) && a[c].host == host && (who == Some(a[c].name) || who.None?)
                 then a[c].(kind := Closed) else a[c]
  }

  ghost predicate UserEffect(a: Snapshot, b: Snapshot, cp: nat, user: Name, host: Name, time: int, duplicate: bool) {
    if Looping(a, cp, host) then NeighbourGone(a, b, cp, true)
    else
      && b.links == a.links && Learnt(a, b, cp, host)
      && b.conns == if duplicate then a.conns else a.conns[a.nextId := Conn(User, user, host, Some(cp), time)]
  }

  ghost predicate PartEffect(a: Snapshot, b: Snapshot, cp: nat, host: Name, which: Option<nat>) {
    if Looping(a, cp, host) then NeighbourGone(a, b, cp, true)
    else
      && b.links == a.links && b.dests == a.dests && b.sent == a.sent
      && b.conns == if which.Some? && which.value in a.conns then a.conns[which.value := a.conns[which.value].(kind := Closed)] else a.conns
  }

  ghost predicate QuitEffect(a: Snapshot, b: Snapshot, cp: nat, who: Option<Name>, host: Name, accept: bool)
    requires cp in a.conns
  {
    if who == Some([]) || host == [] then Still(a, b)
    else if (who.None? && host == a.conns[cp].name) || host == a.me then
      if who.None? && accept then NeighbourGone(a, b, cp, false) else Still(a, b)
    else if (if Reached(a, host) then ReachedOver(a, host, cp) else LastOver(a, host, cp)) then
      b.links == a.links && b.dests == a.dests && b.sent == a.sent && QuitGone(a.conns, b.conns, cp, who, host)
    else Still(a, b)
  }

  ghost predicate DestEffect(a: Snapshot, b: Snapshot, cp: nat, name: Name, rtt: int, hops: int, neighbour: Name, learned: bool)
    requires cp in a.conns
  {
    var own := FindHolder(a.links, cp, 0);
    if name == a.me || (Reached(a, name) && !ReachedOver(a, name, cp)) then NeighbourGone(a, b, cp, true)
    else
      var detail := RouteDetail(EntryFor(a.dests, name), a.conns[cp].name, rtt, hops, neighbour);
      && b.conns == a.conns && b.links == a.links && own.Some? && !Better(EntryFor(a.dests, name), own.value, rtt)
      && Heard(a.dests, b.dests, a.sent, b.sent, a.links, a.conns, own.value, name, rtt, detail.0, detail.1, learned)
  }

  /** A live route leads to `name`: over link `s` in time `rtt`, or over another one in no more than that. */
  ghost predicate HasRoute(dests: seq<Dest>, name: Name, s: nat, rtt: int) {
    exists d :: d in dests && d.name == name && d.link.Some? && 1 <= d.rtt <= rtt && (d.link == Some(s) ==> d.rtt == rtt)
  }

  /** Smoothed times, each at least 1; the neighbour's new time is reported, and a live route to it is no longer than its link. */
  ghost predicate PongEffect(a: Snapshot, b: Snapshot, cp: nat, reported: int, elapsed: int, learned: bool) {
    var h := FindHolder(a.links, cp, 0);
    h.Some? && IsLink(a.links, h.value) && IsLink(b.links, h.value) &&
    var k, l, measured := a.links[h.value].value, b.links[h.value].value, if elapsed > 1 then elapsed else 1;
    && b.conns == a.conns && b.links == a.links[h.value := Some(k.(tx := l.tx, rx := l.rx))]
    && l.rx == (if reported < 1 then measured else reported) && l.tx >= 1
    && (if k.tx == 0 then l.tx == measured else 6 * l.tx <= 5 * k.tx + measured < 6 * l.tx + 6)
    && var rtt := (l.tx + l.rx) / 2;
       && Heard(a.dests, b.dests, a.sent, b.sent, b.links, a.conns, h.value, k.name, rtt, 0, a.me, learned)
       && HasRoute(b.dests, k.name, h.value, rtt)
  }

  /** A live link of the chain of `own` has made way: it is closed and locked. */
  ghost predicate MadeWay(a: Snapshot, b: Snapshot, own: nat) {
    exists t: nat :: Live(a.links, a.conns, t) && SameChain(a.place, t, own) && IsLocked(b.links, t) && !Live(b.links, b.conns, t)
  }

  /** The caller has to go; besides it, at most the chain of its link is touched. */
  ghost predicate Rejected(a: Snapshot, b: Snapshot, cp: nat, own: Option<nat>, name: Name, v: Verdict) {
    && cp in b.conns && b.conns[cp].kind == Closed && OnlyChain(a.conns, a.links, a.place, own, cp, b.conns)
    && LinksWithin(a.links, b.links, a.place, own) && RoutesWithin(a.dests, b.dests, a.place, own, name)
    && (v == Locked || v == Outranked ==> OnlyThis(a.conns, b.conns, cp) && b.dests == a.dests && b.sent == a.sent)
    && (v == Reorganised ==> own.Some? && OthersDead(b.links, b.conns, a.place, own.value) && MadeWay(a, b, own.value))
    && (v == KnownElsewhere && own.Some? && !Live(a.links, a.conns, own.value) ==> IsLocked(b.links, own.value))
  }

  /** The caller is our neighbour. */
  ghost predicate Joined(a: Snapshot, b: Snapshot, cp: nat, name: Name, learned: bool) {
    && OnlyChain(a.conns, a.links, a.place, Own(a.links, cp, name), cp, b.conns) && b.links == Enrolled(a.links, cp, name)
    && RoutesWithin(a.dests, b.dests, a.place, Own(a.links, cp, name), name)
    && Established(a.me, b.links, b.conns, b.dests, cp, name, learned)
    && GreetedBy(a.sent, b.sent, b.dests, b.links, b.conns, cp, name, learned)
  }

  /** What becomes of a host that calls itself by a name. */
  ghost predicate HostEffect(a: Snapshot, b: Snapshot, cp: nat, line: Command, now: int)
    requires line.HostLine? && cp in a.conns
  {
    match Admission(a.me, a.conns, a.links, a.dests, a.place, cp, line.name, line.allowed, line.authentic, now)
    case Refused => Still(a, b)
    case WrongPassword => b.conns == a.conns[cp := a.conns[cp].(name := line.name)] && b.links == a.links &&
                          b.dests == a.dests && b.sent == a.sent
    case Accepted => Joined(a, b, cp, line.name, line.learned)
    case v => Rejected(a, b, cp, Own(a.links, cp, line.name), line.name, v)
  }

  /** A line is obeyed according to what the connection is, and ignored if it does not fit. */
  ghost predicate LineEffect(a: Snapshot, b: Snapshot, cp: nat, line: Command, now: int) {
    if cp in a.conns && a.conns[cp].kind == Host then
      match line
      case UserLine(user, host, time, duplicate) => UserEffect(a, b, cp, user, host, time, duplicate)
      case PartLine(user, host, which) => PartEffect(a, b, cp, host, which)
      case QuitLine(who, host, accept) => QuitEffect(a, b, cp, who, host, accept)
      case DestLine(name, rtt, hops, neighbour, learned) => DestEffect(a, b, cp, name, rtt, hops, neighbour, learned)
      case PongLine(reported, elapsed, learned) => PongEffect(a, b, cp, reported, elapsed, learned)
      case _ => Still(a, b)
    else if cp in a.conns && a.conns[cp].kind == Unknown then
      match line
      case HostLine(_, _, _, _) => HostEffect(a, b, cp, line, now)
      case NameLine(user) => b.conns == a.conns[cp := a.conns[cp].(kind := User, name := user, host := a.me)] &&
                             b.links == a.links && b.dests == a.dests && b.sent == a.sent
      case _ => Still(a, b)
    else Still(a, b)
  }

  ghost predicate LostEffect(a: Snapshot, b: Snapshot, cp: nat) {
    if cp !in a.conns then Still(a, b)
    else if a.conns[cp].kind == Host then NeighbourGone(a, b, cp, false)
    else b.conns == a.conns[cp := a.conns[cp].(kind := Closed)] && b.links == a.links && b.dests == a.dests && b.sent == a.sent
  }

  ghost predicate CallEffect(a: Snapshot, b: Snapshot, slot: nat, now: int) {
    if IsLink(a.links, slot) && a.links[slot].value.conn.None? && !a.links[slot].value.locked then
      && b.conns == a.conns[a.nextId := Conn(Unknown, [], [], None, now)] && b.dests == a.dests && b.sent == a.sent
      && b.links == a.links[slot := Some(a.links[slot].value.(conn := Some(a.nextId)))]
    else Still(a, b)
  }

  /** Closed connections go, and calls that nobody answered, and nobody else; the links that held one have none. */
  ghost predicate CleaningEffect(a: Snapshot, b: Snapshot, late: set<nat>) {
    && (forall c :: c in b.conns <==>
          c in a.conns && a.conns[c].kind != Closed && !(a.conns[c].kind == Unknown && c in late && Attached(a.links, c)))
    && (forall c :: c in b.conns ==> b.conns[c] == a.conns[c])
    && LinksFreed(a.links, b.links, b.conns) && b.dests == a.dests && b.sent == a.sent
  }

  /** Dead entries go, and learned ones whose time is up, and no others; of those that were alive the neighbours are told. */
  ghost predicate AgingEffect(a: Snapshot, b: Snapshot, stale: set<Name>) {
    && b.conns == a.conns && b.links == a.links && a.sent <= b.sent
    && Mourned(b.sent[|a.sent|..], a.dests, a.links, a.conns, Outdated(stale), |a.dests|)
    && forall d :: d in b.dests <==> d in a.dests && (d.rtt != 0 || d.link.Some? || d.connected) && !(d.learned && d.name in stale)
  }

  ghost predicate SilentEffect(a: Snapshot, b: Snapshot, slot: nat) {
    if Live(a.links, a.conns, slot) then
      && b.conns == a.conns && b.links == a.links[slot := Some(a.links[slot].value.(rx := 0, tx := 0))]
      && Cut(a.dests, b.dests, Some(slot)) && Grieved(a.sent, b.sent, a.dests, b.links, a.conns, Some(slot))
    else Still(a, b)
  }

  ghost predicate IdleEffect(a: Snapshot, b: Snapshot, slot: nat, lockOver: bool, unused: bool) {
    if IsLink(a.links, slot) && a.links[slot].value.conn.None? then
      var l := a.links[slot].value;
      && b.conns == a.conns && b.dests == a.dests && b.sent == a.sent
      && b.links == a.links[slot := if !l.permanent && (lockOver || !l.locked) && unused then None
                                    else Some(l.(locked := l.locked && !lockOver))]
    else Still(a, b)
  }

  ghost predicate ConfiguredEffect(a: Snapshot, b: Snapshot, name: Name, primary: Name, room: bool) {
    var p, free := FindLink(a.links, name), FindFree(a.links, 0);
    && b.conns == a.conns && b.dests == a.dests && b.sent == a.sent
    && if p.Some? then
         b.links == if room && ChainsOk(EndsOf(a.links), a.place) && (Named(a.links, p.value, primary).Some? ==>
                                  Named(a.links, p.value, primary).value != p.value)
                    then Readded(a.links, a.place, p.value, Named(a.links, p.value, primary)) else a.links
       else if free.Some? then Configures(a.links, b.links, b.place, name, primary, free.value)
       else b.links == a.links
  }

  /** The routes over a link that was live are gone, and the others have been told. */
  ghost predicate Dropped(a: Snapshot, b: Snapshot, p: nat) {
    if Live(a.links, a.conns, p) then Cut(a.dests, b.dests, Some(p)) && Grieved(a.sent, b.sent, a.dests, a.links, a.conns, Some(p))
    else b.dests == a.dests && b.sent == a.sent
  }

  ghost predicate DeletedEffect(a: Snapshot, b: Snapshot, name: Name) {
    var p := FindLink(a.links, name);
    if p.None? then Still(a, b)
    else
      && b.conns == DroppedConns(a.links, a.conns, p.value) && Dropped(a, b, p.value)
      && Unlinked(DroppedLinks(a.links, a.conns, p.value), b.links, p.value)
  }

  /** The old link is cut off and dropped, which leaves the table `mid`, and a new one configured in the first free slot. */
  ghost predicate Replaces(a: Snapshot, b: Snapshot, name: Name, primary: Name, mid: Links) {
    var p := FindLink(a.links, name);
    && (if p.None? then mid == a.links && b.conns == a.conns && b.dests == a.dests && b.sent == a.sent
        else
          && b.conns == DroppedConns(a.links, a.conns, p.value) && Dropped(a, b, p.value)
          && Severed(DroppedLinks(a.links, a.conns, p.value), mid, p.value))
    && (if FindFree(mid, 0).Some? then Configures(mid, b.links, b.place, name, primary, FindFree(mid, 0).value) else b.links == mid)
  }

  ghost predicate ReplacedEffect(a: Snapshot, b: Snapshot, name: Name, primary: Name) {
    exists mid: Links :: Replaces(a, b, name, primary, mid)
  }

  /** What event `e` does: state `b` after it, in terms of state `a` before. */
  ghost predicate Shows(e: Event, a: Snapshot, b: Snapshot) {
    match e
    case Line(cp, command, now) => LineEffect(a, b, cp, command, now)
    case Connected(now) => b.conns == a.conns[a.nextId := Conn(Unknown, [], [], None, now)] && b.links == a.links &&
                           b.dests == a.dests && b.sent == a.sent
    case Calling(slot, now) => CallEffect(a, b, slot, now)
    case Lost(cp) => LostEffect(a, b, cp)
    case Cleaning(late) => CleaningEffect(a, b, late)
    case Aging(stale) => AgingEffect(a, b, stale)
    case Silent(slot) => SilentEffect(a, b, slot)
    case Idle(slot, lockOver, unused) => IdleEffect(a, b, slot, lockOver, unused)
    case Configured(name, primary, room) => ConfiguredEffect(a, b, name, primary, room)
    case Replaced(name, primary) => ReplacedEffect(a, b, name, primary)
    case Deleted(name) => DeletedEffect(a, b, name)
  }

  /** `trace` are the states a host passes through in the first `n` events. */
  ghost predicate Traced(events: seq<Event>, trace: seq<Snapshot>, n: nat) {
    n <= |events| && |trace| == n + 1 && forall i :: 0 <= i < n ==> Shows(events[i], trace[i], trace[i + 1])
  }

  // ---------------------------------------------------------------- steps towards it

  /** How a host is reached, as its route says it. */
  lemma {:induction false} ReachedMeans(a: Snapshot, host: Name, cp: nat)
    requires LinksOk(a.links, a.conns, None) && RoutesOk(a.dests, a.links, a.conns, None) && cp in a.conns && a.conns[cp].kind == Host
    ensures Reached(a, host) <==> RoutedElsewhere(a.dests, host, None)
    ensures Reached(a, host) && !ReachedOver(a, host, cp) <==> RoutedElsewhere(a.dests, host, FindHolder(a.links, cp, 0))
  {
    HolderIsOwn(a.links, a.conns, cp);
    var own := FindHolder(a.links, cp, 0);
    if Reached(a, host) {
      var d :| d in a.dests && d.name == host && d.link.Some?;
      var i :| 0 <= i < |a.dests| && a.dests[i] == d;
      assert RouteOk(d, a.links, a.conns, None);
      if !ReachedOver(a, host, cp) {
        assert a.links[d.link.value].value.conn != Some(cp);
      }
    }
    if ReachedOver(a, host, cp) && RoutedElsewhere(a.dests, host, own) {
      var d :| d in a.dests && d.name == host && d.link.Some? && IsLink(a.links, d.link.value) && a.links[d.link.value].value.conn == Some(cp);
      var i :| 0 <= i < |a.dests| && a.dests[i] == d;
      var j :| 0 <= j < |a.dests| && a.dests[j].name == host && a.dests[j].link.Some? && a.dests[j].link != own;
      SortedUnique(a.dests, i, j);
    }
  }

  lemma {:induction false} LoopingMeans(a: Snapshot, host: Name, cp: nat)
    requires LinksOk(a.links, a.conns, None) && RoutesOk(a.dests, a.links, a.conns, None) && cp in a.conns && a.conns[cp].kind == Host
    ensures Looping(a, cp, host) <==> Loops(a.me, a.conns, a.links, a.dests, cp, host)
    ensures Reached(a, host) <==> RoutedElsewhere(a.dests, host, None)
  {
    ReachedMeans(a, host, cp);
  }

  lemma {:induction false} BehindMeans(a: Snapshot, host: Name, cp: nat)
    requires LinksOk(a.links, a.conns, None) && RoutesOk(a.dests, a.links, a.conns, None) && cp in a.conns && a.conns[cp].kind == Host
    ensures Behind(a.conns, a.links, a.dests, cp, host) <==> if Reached(a, host) then ReachedOver(a, host, cp) else LastOver(a, host, cp)
  {
    ReachedMeans(a, host, cp);
    var from := set c | c in a.conns && a.conns[c].via.Some? && a.conns[c].host == host;
    if from != {} {
      var last := Latest(from);
      forall k | k in a.conns && a.conns[k].via.Some? && a.conns[k].host == host ensures k <= last {
        assert k in from;
      }
      assert IsNewest(a.conns, host, last);
      assert LastOver(a, host, cp) ==> a.conns[last].via == Some(cp);
    }
    if (forall c :: IsNewest(a.conns, host, c) ==> a.conns[c].via == Some(cp)) && from != {} {
      var last := Latest(from);
      forall c | c in from && a.conns[c].via != Some(cp) ensures exists k :: k in from && k > c {
        assert last in from && last >= c && last != c;
      }
    }
  }

  lemma {:induction false} Latest(s: set<nat>) returns (m: nat)
    requires s != {}
    ensures m in s && forall k :: k in s ==> k <= m
  {
    var one :| one in s;
    m := one;
    if s != {one} {
      var rest := Latest(s - {one});
      m := if rest > one then rest else one;
      assert forall k :: k in s ==> k == one || k in s - {one};
    }
  }

  /** Where there is nothing yet, who may come is accepted. */
  lemma {:induction false} FirstCaller(a: Snapshot, b: Snapshot, name: Name, now: int)
    requires a.me != name && 0 in a.conns && a.conns[0].kind == Unknown && a.links == [None, None] && a.dests == []
    requires LineEffect(a, b, 0, HostLine(name, true, true, false), now)
    ensures 0 in b.conns && b.conns[0].kind == Host && b.conns[0].name == name
    ensures b.links == [Some(Link(name, Some(0), None, None, false, false, -1, 3)), None]
  {
    assert FindLinkFrom(a.links, name, 2).None?;
    assert FindHolder(a.links, 0, 1) == FindHolder(a.links, 0, 2) == None;
    assert Own(a.links, 0, name).None? && FindFree(a.links, 0) == Some(0);
    assert Admission(a.me, a.conns, a.links, a.dests, a.place, 0, name, true, true, now) == Accepted;
  }

  lemma {:induction false} TracedOn(events: seq<Event>, trace: seq<Snapshot>, n: nat, b: Snapshot)
    requires Traced(events, trace, n) && n < |events| && Shows(events[n], trace[n], b)
    ensures Traced(events, trace + [b], n + 1)
  {
    var on := trace + [b];
    forall i | 0 <= i < n + 1 ensures Shows(events[i], on[i], on[i + 1]) {
      assert on[i] == trace[i] && (i < n ==> on[i + 1] == trace[i + 1]);
    }
  }

  /** That `cp` and its link have got a name before does not matter to a rejection. */
  lemma {:induction false} RejectedBefore(a: Snapshot, m: Snapshot, b: Snapshot, cp: nat, own: Option<nat>, name: Name, v: Verdict)
    requires Rejected(m, b, cp, own, name, v) && OnlyThis(a.conns, m.conns, cp)
    requires cp in a.conns && a.conns[cp].kind != Host && m.conns[cp].kind != Host
    requires m.dests == a.dests && m.sent == a.sent && m.place == a.place && LinksWithin(a.links, m.links, a.place, own)
    requires forall s :: 0 <= s < |a.links| ==>
               m.links[s].Some? == a.links[s].Some? && (a.links[s].Some? ==> m.links[s].value.conn == a.links[s].value.conn)
    ensures Rejected(a, b, cp, own, name, v)
  {
    OnlyChainNamed(a.conns, m.conns, a.links, m.links, a.place, own, cp, b.conns);
    assert forall s :: Live(m.links, m.conns, s) <==> Live(a.links, a.conns, s);
    if v == Reorganised {
      var t: nat :| Live(m.links, m.conns, t) && SameChain(m.place, t, own.value) && IsLocked(b.links, t) && !Live(b.links, b.conns, t);
      assert Live(a.links, a.conns, t);
    }
  }

  lemma {:induction false} RejectedRenamed(a: Snapshot, m: Snapshot, b: Snapshot, cp: nat, mine: nat, name: Name, v: Verdict)
    requires IsLink(a.links, mine) && m.links == a.links[mine := Some(a.links[mine].value.(name := name))] && SameChain(a.place, mine, mine)
    requires m.conns == a.conns && m.dests == a.dests && m.sent == a.sent && m.place == a.place && cp in a.conns && a.conns[cp].kind != Host
    requires Rejected(m, b, cp, Some(mine), name, v)
    ensures Rejected(a, b, cp, Some(mine), name, v)
  {
    RejectedBefore(a, m, b, cp, Some(mine), name, v);
  }

  /** The caller has to call again, since link `t` of its chain made way. */
  lemma {:induction false} RejectedNow(a: Snapshot, b: Snapshot, cp: nat, mine: nat, t: nat, name: Name)
    requires Live(a.links, a.conns, t) && SameChain(a.place, t, mine) && OneLive(a.links, a.conns, a.place)
    requires var c := CloseOver(a.conns, a.links[t].value.conn.value); cp in c && b.conns == c[cp := c[cp].(kind := Closed)]
    requires IsLocked(b.links, t) && b.links == a.links[t := b.links[t]] && Cut(a.dests, b.dests, Some(t))
    requires forall s :: Live(b.links, b.conns, s) ==> s != t && Live(a.links, a.conns, s)
    ensures Rejected(a, b, cp, Some(mine), name, Reorganised)
  {
    CloseOverChain(a.conns, a.links, a.place, mine, cp, t);
    OnlyChainThen(a.conns, a.links, a.place, Some(mine), cp, CloseOver(a.conns, a.links[t].value.conn.value), b.conns);
    CutWithin(a.dests, b.dests, Some(t), a.place, Some(mine), name);
    forall s | Live(b.links, b.conns, s) && s != mine && mine in a.place && s in a.place ensures a.place[mine].chain != a.place[s].chain {
      assert Live(a.links, a.conns, s) && s != t;
    }
  }

  /** That a caller has given its name does not matter to what becomes of it. */
  lemma {:induction false} NamedShows(a: Snapshot, m: Snapshot, b: Snapshot, cp: nat, name: Name, learned: bool, now: int)
    requires cp in a.conns && a.conns[cp].kind == Unknown && m == a.(conns := a.conns[cp := a.conns[cp].(name := name)]) && name != a.me
    requires var v := Admission(m.me, m.conns, m.links, m.dests, m.place, cp, name, true, true, now);
             if v == Accepted then Joined(m, b, cp, name, learned) else Rejected(m, b, cp, Own(m.links, cp, name), name, v)
    ensures HostEffect(a, b, cp, HostLine(name, true, true, learned), now)
    ensures Admission(a.me, a.conns, a.links, a.dests, a.place, cp, name, true, true, now) ==
            Admission(m.me, m.conns, m.links, m.dests, m.place, cp, name, true, true, now)
  {
    AdmissionNamed(a.me, a.conns, a.links, a.dests, a.place, cp, name, now);
    var own := Own(a.links, cp, name);
    var v := Admission(m.me, m.conns, m.links, m.dests, m.place, cp, name, true, true, now);
    if v == Accepted {
      OnlyChainNamed(a.conns, m.conns, a.links, a.links, a.place, own, cp, b.conns);
    } else {
      RejectedBefore(a, m, b, cp, own, name, v);
    }
  }

  /** A caller that is sent away after the search. */
  lemma {:induction false} RejectedAfter(a: Snapshot, m: Snapshot, b: Snapshot, cp: nat, name: Name, mine: Option<nat>, v: Verdict)
    requires Searched(a.conns, a.links, a.dests, m.conns, m.links, m.dests, cp, name, mine)
    requires m.place == a.place && a.place.Keys == EndsOf(m.links).Keys && (v == KnownElsewhere || v == TableFull)
    requires cp in b.conns && b.conns[cp].kind == Closed && OnlyThis(m.conns, b.conns, cp)
    requires LinksWithin(m.links, b.links, m.place, mine) && RoutesWithin(m.dests, b.dests, m.place, None, name)
    requires v == KnownElsewhere && mine.Some? ==> IsLocked(b.links, mine.value)
    ensures Rejected(a, b, cp, Own(a.links, cp, name), name, v)
  {
    var own := Own(a.links, cp, name);
    SearchedOnlyChain(a.conns, a.links, a.dests, m.conns, m.links, m.dests, a.place, cp, name, mine);
    OnlyChainThen(a.conns, a.links, a.place, own, cp, m.conns, b.conns);
    SearchedWithin(a.conns, a.links, a.dests, m.conns, m.links, m.dests, a.place, cp, name, mine);
    RoutesWithinThen(a.dests, m.dests, b.dests, a.place, own, name);
  }

  /** A caller that is let in after the search. */
  lemma {:induction false} JoinedAfter(a: Snapshot, m: Snapshot, b: Snapshot, cp: nat, name: Name, mine: Option<nat>, learned: bool)
    requires Searched(a.conns, a.links, a.dests, m.conns, m.links, m.dests, cp, name, mine) && LinksOk(m.links, m.conns, None)
    requires m.place == a.place && a.place.Keys == EndsOf(m.links).Keys && m.me == a.me && OnlyThis(m.conns, b.conns, cp)
    requires if Own(a.links, cp, name).Some? then Wrote(a.sent, m.sent, Own(a.links, cp, name)) else m.sent == a.sent
    requires RoutesWithin(m.dests, b.dests, m.place, None, name) && b.links == Welcomed(m.links, name, cp)
    requires Established(m.me, b.links, b.conns, b.dests, cp, name, learned) && FindLink(b.links, name) == SlotFor(m.links, name)
    requires GreetedBy(m.sent, b.sent, b.dests, b.links, b.conns, cp, name, learned)
    ensures Joined(a, b, cp, name, learned)
  {
    var own := Own(a.links, cp, name);
    SearchedOnlyChain(a.conns, a.links, a.dests, m.conns, m.links, m.dests, a.place, cp, name, mine);
    OnlyChainThen(a.conns, a.links, a.place, own, cp, m.conns, b.conns);
    SearchedWithin(a.conns, a.links, a.dests, m.conns, m.links, m.dests, a.place, cp, name, mine);
    RoutesWithinThen(a.dests, m.dests, b.dests, a.place, own, name);
    SearchedEnrolled(a.conns, a.links, a.dests, m.conns, m.links, m.dests, cp, name, mine);
    GreetedSince(a.sent, m.sent, b.sent, b.dests, b.links, b.conns, cp, name, learned);
  }

  /** What was written before, but not to the new neighbour, does not matter. */
  lemma {:induction false} GreetedSince(sent0: seq<Announce>, sent1: seq<Announce>, sent: seq<Announce>, dests: seq<Dest>, links: Links,
                                        conns: Conns, cp: nat, name: Name, learned: bool)
    requires GreetedBy(sent1, sent, dests, links, conns, cp, name, learned) && Wrote(sent0, sent1, FindLink(links, name))
    ensures GreetedBy(sent0, sent, dests, links, conns, cp, name, learned)
  {
    var slot := FindLink(links, name).value;
    GreetedStill(sent0, sent1, sent, sent, dests, links, dests, links, cp, slot, name);
    if !learned {
      var m :| |sent1| <= m <= |sent| && ToldRight(sent[m..], links, conns, slot, name, 1, slot);
      assert |sent0| <= m;
    }
  }

  /** What is told when host `cp` goes; nobody else is a host any more or any less. */
  ghost predicate LostNews(sent0: seq<Announce>, sent: seq<Announce>, dests: seq<Dest>, links: Links, conns: Conns, cp: nat) {
    cp in conns && Grieved(sent0, sent, dests, links, conns[cp := conns[cp].(kind := Closed)], FindLink(links, conns[cp].name))
  }

  lemma {:induction false} NewsOfLoss(sent0: seq<Announce>, sent: seq<Announce>, dests: seq<Dest>, links: Links, locked: Links, conns: Conns,
                                      cp: nat, p: nat)
    requires LostNews(sent0, sent, dests, locked, conns, cp) && LinksOk(links, conns, None) && IsLink(links, p)
    requires conns[cp].kind == Host && FindLink(locked, conns[cp].name) == Some(p) && links[p].value.conn == Some(cp)
    requires locked == links[p := Some(links[p].value.(locked := locked[p].value.locked))]
    ensures Grieved(sent0, sent, dests, links, conns, Some(p))
  {
    var after := conns[cp := conns[cp].(kind := Closed)];
    forall s | s != p ensures Live(links, conns, s) <==> Live(locked, after, s) {
      assert IsLink(links, s) && IsLink(links, p) ==> links[s].value.conn != Some(cp);
    }
    MournedElsewhere(sent[|sent0|..], dests, links, conns, locked, after, p);
  }

  lemma {:induction false} NoRoute(dests: seq<Dest>, host: Name)
    requires !RoutedElsewhere(dests, host, None)
    ensures var was := EntryFor(dests, host); was.Some? ==> was.value.link.None?
  {}

  /** Link `s` has new times, and the neighbour a new rtt. */
  ghost predicate Retimed(a: Snapshot, b: Snapshot, s: nat, l: Link, learned: bool) {
    && b.conns == a.conns && s < |a.links| && b.links == a.links[s := Some(l)]
    && Heard(a.dests, b.dests, a.sent, b.sent, b.links, a.conns, s, l.name, (l.tx + l.rx) / 2, 0, a.me, learned)
    && HasRoute(b.dests, l.name, s, (l.tx + l.rx) / 2)
  }

  lemma {:induction false} RetimedNow(a: Snapshot, b: Snapshot, s: nat, l: Link, learned: bool)
    requires b.conns == a.conns && s < |a.links| && b.links == a.links[s := Some(l)] && l.tx >= 1 && l.rx >= 1
    requires RoutesOk(b.dests, b.links, b.conns, None)
    requires Heard(a.dests, b.dests, a.sent, b.sent, b.links, a.conns, s, l.name, (l.tx + l.rx) / 2, 0, a.me, learned)
    ensures Retimed(a, b, s, l, learned)
  {
    NeighbourRoute(a.dests, b.dests, a.sent, b.sent, b.links, b.conns, s, l.name, (l.tx + l.rx) / 2, a.me, learned);
  }

  lemma {:induction false} PongShows(a: Snapshot, b: Snapshot, cp: nat, s: nat, reported: int, elapsed: int, learned: bool)
    requires FindHolder(a.links, cp, 0) == Some(s) && IsLink(a.links, s) && a.links[s].value.tx >= 0
    requires Retimed(a, b, s, Ponged(a.links[s].value, reported, elapsed), learned)
    ensures PongEffect(a, b, cp, reported, elapsed, learned)
  {}

  /** How far the sweep over the destinations has come: `i` entries are kept, and the rest is still to be gone through. */
  ghost predicate Aged(was: seq<Dest>, dests: seq<Dest>, news: seq<Announce>, links: Links, conns: Conns, i: nat, stale: set<Name>) {
    && KeptTo(was, dests, i, stale) && RoutesOk(was, links, conns, None)
    && |dests| - i <= |was| && dests[i..] == was[|was| - (|dests| - i)..]
    && Mourned(news, was, links, conns, Outdated(stale), |was| - (|dests| - i))
  }

  ghost predicate AgedSince(was: seq<Dest>, dests: seq<Dest>, sent0: seq<Announce>, sent: seq<Announce>, links: Links, conns: Conns,
                            i: nat, stale: set<Name>)
  {
    sent0 <= sent && Aged(was, dests, sent[|sent0|..], links, conns, i, stale)
  }

  lemma {:induction false} NoneAged(dests: seq<Dest>, sent: seq<Announce>, links: Links, conns: Conns, stale: set<Name>)
    requires RoutesOk(dests, links, conns, None)
    ensures AgedSince(dests, dests, sent, sent, links, conns, 0, stale)
  {
    assert dests[..0] == [] && dests[0..] == dests;
  }

  lemma {:induction false} AgedKept(was: seq<Dest>, dests: seq<Dest>, news: seq<Announce>, links: Links, conns: Conns, i: nat, stale: set<Name>)
    requires Aged(was, dests, news, links, conns, i, stale) && i < |dests| && Fresh(dests[i], stale)
    ensures Aged(was, dests, news, links, conns, i + 1, stale)
  {
    var n := |was| - (|dests| - i);
    KeptOne(was, dests, i, stale);
    assert was[n..][0] == dests[i..][0] && dests[i + 1..] == dests[i..][1..] && was[n + 1..] == was[n..][1..];
    NothingMore(was, news, links, conns, n, stale);
  }

  lemma {:induction false} NothingMore(was: seq<Dest>, news: seq<Announce>, links: Links, conns: Conns, n: nat, stale: set<Name>)
    requires Sorted(was) && n < |was| && Fresh(was[n], stale) && Mourned(news, was, links, conns, Outdated(stale), n)
    ensures Mourned(news, was, links, conns, Outdated(stale), n + 1)
  {
    MournedMore(news, [], was, links, conns, Outdated(stale), n);
    assert news + [] == news;
  }

  lemma {:induction false} AgedDropped(was: seq<Dest>, dests: seq<Dest>, news: seq<Announce>, more: seq<Announce>, links: Links, conns: Conns,
                                       i: nat, stale: set<Name>)
    requires Aged(was, dests, news, links, conns, i, stale) && i < |dests| && !Fresh(dests[i], stale)
    requires var d := dests[i];
             if d.learned && d.link.Some? then ToldRight(more, links, conns, d.link.value, d.name, 0, d.link.value) else more == []
    ensures Aged(was, dests[..i] + dests[i + 1..], news + more, links, conns, i, stale)
  {
    var n, after := |was| - (|dests| - i), dests[..i] + dests[i + 1..];
    DroppedOne(was, dests, i, stale);
    assert was[n..][0] == dests[i..][0] && after[i..] == dests[i..][1..] && was[n + 1..] == was[n..][1..];
    OneMourned(was, news, more, links, conns, n, stale);
  }

  lemma {:induction false} AgedOn(was: seq<Dest>, dests: seq<Dest>, sent0: seq<Announce>, sent1: seq<Announce>, more: seq<Announce>, links: Links,
                                  conns: Conns, i: nat, stale: set<Name>)
    requires AgedSince(was, dests, sent0, sent1, links, conns, i, stale) && i < |dests| && !Fresh(dests[i], stale)
    requires var d := dests[i];
             if d.learned && d.link.Some? then ToldRight(more, links, conns, d.link.value, d.name, 0, d.link.value) else more == []
    ensures AgedSince(was, dests[..i] + dests[i + 1..], sent0, sent1 + more, links, conns, i, stale)
  {
    AgedDropped(was, dests, sent1[|sent0|..], more, links, conns, i, stale);
    SuffixGrows(sent0, sent1, more);
  }

  lemma {:induction false} SuffixGrows(sent0: seq<Announce>, sent1: seq<Announce>, more: seq<Announce>)
    requires |sent0| <= |sent1|
    ensures (sent1 + more)[|sent0|..] == sent1[|sent0|..] + more
  {}

  lemma {:induction false} OneMourned(was: seq<Dest>, news: seq<Announce>, more: seq<Announce>, links: Links, conns: Conns, n: nat, stale: set<Name>)
    requires RoutesOk(was, links, conns, None) && n < |was| && !Fresh(was[n], stale)
    requires Mourned(news, was, links, conns, Outdated(stale), n)
    requires var d := was[n];
             if d.learned && d.link.Some? then ToldRight(more, links, conns, d.link.value, d.name, 0, d.link.value) else more == []
    ensures Mourned(news + more, was, links, conns, Outdated(stale), n + 1)
  {
    assert RouteOk(was[n], links, conns, None);
    MournedMore(news, more, was, links, conns, Outdated(stale), n);
  }

  lemma {:induction false} AgedShows(a: Snapshot, b: Snapshot, stale: set<Name>)
    requires AgedSince(a.dests, b.dests, a.sent, b.sent, a.links, a.conns, |b.dests|, stale) && b.conns == a.conns && b.links == a.links
    ensures AgingEffect(a, b, stale)
  {
    KeptAll(a.dests, b.dests, stale);
    KeptMembers(a.dests, stale);
  }

  lemma {:induction false} CloseOverClosed(conns: Conns, cp: nat)
    requires cp in conns
    ensures ClosedOver(conns, CloseOver(conns, cp), cp)
  {}

  /** The link of a lost host, as its name finds it. */
  lemma {:induction false} RelinkLoses(links: Links, name: Name, p: nat, was: Links, locks: bool)
    requires FindLink(links, name) == Some(p) && IsLink(was, p)
    requires links == was[p := Some(was[p].value.(locked := was[p].value.locked || locks))]
    ensures LinkLost(was, Relink(links, name, None, false), p, locks)
  {}

  lemma {:induction false} KeptMembers(dests: seq<Dest>, stale: set<Name>)
    ensures forall d :: d in Kept(dests, stale) <==> d in dests && Fresh(d, stale)
  {
    if dests != [] {
      KeptMembers(dests[1..], stale);
      assert dests == [dests[0]] + dests[1..];
    }
  }

  lemma {:induction false} SilentShows(a: Snapshot, b: Snapshot, slot: nat)
    requires Live(a.links, a.conns, slot) && RoutesOk(a.dests, a.links, a.conns, None)
    requires b.conns == a.conns && b.links == a.links[slot := Some(a.links[slot].value.(rx := 0, tx := 0))] && b.dests == Bereft(a.dests, slot)
    requires Grieved(a.sent, b.sent, a.dests, b.links, a.conns, Some(slot))
    ensures SilentEffect(a, b, slot)
  {
    BereftCut(a.dests, a.links, a.conns, slot);
  }

  lemma {:induction false} BereftCut(dests: seq<Dest>, links: Links, conns: Conns, p: nat)
    requires RoutesOk(dests, links, conns, None)
    ensures Cut(dests, Bereft(dests, p), Some(p))
  {
    forall i | 0 <= i < |dests| ensures CutAt(dests[i], Bereft(dests, p)[i], Some(p)) {
      assert RouteOk(dests[i], links, conns, None);
    }
  }

  /** After a report over its link the route to a neighbour is alive and no longer than that. */
  lemma {:induction false} NeighbourRoute(dests0: seq<Dest>, dests: seq<Dest>, sent0: seq<Announce>, sent: seq<Announce>, links: Links,
                                          conns: Conns, s: nat, name: Name, rtt: int, me: Name, learned: bool)
    requires Heard(dests0, dests, sent0, sent, links, conns, s, name, rtt, 0, me, learned) && rtt >= 1
    requires RoutesOk(dests, links, conns, None)
    ensures HasRoute(dests, name, s, rtt)
  {
    if Better(EntryFor(dests0, name), s, rtt) {
      var i := FindDest(dests, name, 0).value;
      assert RouteOk(dests[i], links, conns, None) && dests[i] in dests;
    } else {
      assert Dest(name, Some(s), rtt, true, 1, me, learned, rtt) in dests;
    }
  }
}
