/**
 The link and presence machine of one conversd host: what the commands of a neighbour, link loss and
 the periodic work do to the connections, the link table and the destinations. `Valid` holds after
 every step; `Run` says so for any sequence of steps.
 */
module Server {
  import opened Common
  import opened ServerState
  import opened Chains
  import opened LinkSteps
  import opened Greeting
  import opened Effects

  class Server {
    const me: Name
    var conns: Conns
    var links: Links
    var dests: seq<Dest>
    var sent: seq<Announce>
    var nextId: nat
    ghost var place: map<nat, Place>
    ghost var nextChain: nat
    ghost var log: seq<Event>   // the events so far

    /** `unlinked` may be a host connection without a link, `lost` a link whose connection was just lost. */
    ghost predicate NetworkOk(unlinked: Option<nat>, lost: Option<nat>)
      reads this
    {
      TableOk(links, conns, place, nextChain, unlinked) && RoutesOk(dests, links, conns, lost) && AllAnnounceOk(sent)
    }

    ghost predicate ValidBut(unlinked: Option<nat>)
      reads this
    {
      PresenceOk(me, conns) && (forall c :: c in conns ==> c < nextId) && NetworkOk(unlinked, None)
    }

    ghost function Now(): Snapshot
      reads this
    {
      Snapshot(me, conns, links, dests, sent, place, nextId)
    }

    /** What every run keeps. */
    ghost predicate Valid()
      reads this
    {
      ValidBut(None)
    }

    // -------------------------------------------------------------- destinations

    /** The place of a new name: in front of the first greater one. */
    method InsertionPoint(name: Name) returns (i: nat)
      requires Sorted(dests)
      requires forall k :: 0 <= k < |dests| ==> dests[k].name != name
      ensures i <= |dests|
      ensures forall k :: 0 <= k < i ==> Before(dests[k].name, name)
      ensures forall k :: i <= k < |dests| ==> Before(name, dests[k].name)
    {
      i := 0;
      while i < |dests| && !Before(name, dests[i].name)
        invariant i <= |dests|
        invariant forall k :: 0 <= k < i ==> Before(dests[k].name, name)
      {
        BeforeTotal(name, dests[i].name);
        i := i + 1;
      }
      forall k | i < k < |dests| ensures Before(name, dests[k].name) {
        BeforeTransitive(name, dests[i].name, dests[k].name);
      }
    }

    /** Puts an entry where its name stands, or where it belongs. */
    method Put(d: Dest, ghost lost: Option<nat>)
      requires RoutesOk(dests, links, conns, lost) && RouteOk(d, links, conns, lost)
      modifies this`dests
      ensures RoutesOk(dests, links, conns, lost) && d in dests
      ensures match FindDest(old(dests), d.name, 0)
              case Some(i) => dests == old(dests)[i := d]
              case None => exists i :: 0 <= i <= |old(dests)| && dests == old(dests)[..i] + [d] + old(dests)[i..]
      ensures SameOthers(old(dests), dests, d.name)
    {
      var at := FindDest(dests, d.name, 0);
      if at.Some? {
        ReplacedOthers(dests, at.value, d);
        dests := dests[at.value := d];
        assert dests[at.value] == d;
      } else {
        var i := InsertionPoint(d.name);
        SortedInsert(dests, i, d);
        InsertedOthers(dests, i, d);
        dests := dests[..i] + [d] + dests[i..];
        assert dests[i] == d;
      }
    }

    /** Tells the other neighbours about a route that link `p` reported. */
    method Tell(p: nat, name: Name, rtt: int, before: nat)
      requires TimesOk(links) && IsLink(links, p) && rtt >= 0 && (rtt == 0 ==> before == p) && AllAnnounceOk(sent)
      modifies this`sent
      ensures sent == old(sent) + SaidTo(links, conns, p, name, rtt, before, |links|) && AllAnnounceOk(sent)
      ensures ToldRight(sent[|old(sent)|..], links, conns, p, name, rtt, before)
    {
      SaidIsRight(links, conns, p, name, rtt, before);
      SaidToOk(links, conns, p, name, rtt, before, |links|);
      var news := [];
      for s := 0 to |links|
        invariant news == SaidTo(links, conns, p, name, rtt, before, s)
      {
        if links[s].Some? && s != p && links[s].value.name != name &&
           !(rtt != 0 && links[p].value.name == links[s].value.name)
        {
          var l := links[s].value;
          if l.conn.Some? && l.conn.value in conns && conns[l.conn.value].kind == Host {
            if rtt != 0 {
              news := news + [Announce(s, l.name, name, rtt + Estimate(l), p, true)];
            } else {
              news := news + [Announce(s, l.name, name, 0, before, false)];
            }
          }
        }
      }
      sent := sent + news;
    }

    /** After a new time for neighbour `p`: tells it the routes over other links whose estimate moved by a third. */
    method Reestimate(p: nat, name: Name, rtt: int, lastSent: int, ghost lost: Option<nat>)
      requires RoutesOk(dests, links, conns, lost) && AllAnnounceOk(sent)
      requires IsLink(links, p) && links[p].value.name == name && rtt > 0 && lastSent >= 0
      modifies this`dests, this`sent
      ensures RoutesOk(dests, links, conns, lost) && AllAnnounceOk(sent)
      ensures sent == old(sent) + Restated(old(dests), links, p, name, rtt, lastSent, |old(dests)|)
      ensures |dests| == |old(dests)|
      ensures forall i :: 0 <= i < |dests| ==> dests[i] == Settling(old(dests)[i], links, p, name, rtt, lastSent)
    {
      ghost var was := dests;
      for i := 0 to |dests|
        invariant RoutesOk(dests, links, conns, lost) && AllAnnounceOk(sent)
        invariant RestatedTo(was, dests, old(sent), sent, links, p, name, rtt, lastSent, i)
      {
        RestatedMore(was, dests, old(sent), sent, links, p, name, rtt, lastSent, i);
        Restate(i, p, name, rtt, lastSent, lost);
      }
    }

    /** One route is told again, if it has moved. */
    method Restate(i: nat, p: nat, name: Name, rtt: int, lastSent: int, ghost lost: Option<nat>)
      requires RoutesOk(dests, links, conns, lost) && AllAnnounceOk(sent)
      requires IsLink(links, p) && links[p].value.name == name && rtt > 0 && lastSent >= 0 && i < |dests|
      modifies this`dests, this`sent
      ensures RoutesOk(dests, links, conns, lost) && AllAnnounceOk(sent)
      ensures sent == old(sent) + RestatedOne(old(dests)[i], links, p, name, rtt, lastSent)
      ensures dests == old(dests)[i := Settling(old(dests)[i], links, p, name, rtt, lastSent)]
    {
      var d := dests[i];
      assert RouteOk(d, links, conns, lost);
      if d.rtt != 0 && d.link.Some? && d.link != Some(p) && d.name != name && links[d.link.value].value.name != name {
        var moved := if rtt > lastSent then rtt - lastSent else lastSent - rtt;
        if moved > (d.lastSent + lastSent) / 3 {
          sent := sent + [Announce(p, name, d.name, d.rtt + rtt, d.link.value, true)];
          dests := dests[i := d.(lastSent := d.rtt)];
        }
      }
    }

    /** The entry for `name`, if there is one. */
    ghost function EntryOf(name: Name): Option<Dest>
      reads this
    {
      EntryFor(dests, name)
    }

    /** Enters a report over link `p`, unless a better route over another link stays. */
    method Enter(p: nat, name: Name, rtt: int, hops: int, neighbour: Name, learned: bool, ghost lost: Option<nat>)
      returns (entered: bool, lastSent: int, before: nat)
      requires RoutesOk(dests, links, conns, lost)
      requires IsLink(links, p) && rtt >= 0 && (rtt > 0 ==> Live(links, conns, p))
      modifies this`dests
      ensures RoutesOk(dests, links, conns, lost) && lastSent >= 0 && before == RouteBefore(old(EntryOf(name)), p)
      ensures var entry := Report(old(EntryOf(name)), p, name, rtt, hops, neighbour, learned);
              && entered == entry.Some? && (if entered then entry.value in dests else dests == old(dests))
              && (entered && FindDest(old(dests), name, 0).Some? ==>
                    dests == old(dests)[FindDest(old(dests), name, 0).value := entry.value])
      ensures SameOthers(old(dests), dests, name) && (lastSent == LastSent(old(EntryOf(name))) || !entered)
    {
      var at := FindDest(dests, name, 0);
      entered, lastSent, before := false, 0, p;
      if at.Some? {
        var d := dests[at.value];
        if d.link.Some? {
          before := d.link.value;
        }
        if d.link.Some? && d.link != Some(p) && d.rtt != 0 && rtt >= d.rtt {
          return;
        }
        lastSent := d.lastSent;
      }
      var entry := if rtt == 0 then Dest(name, None, 0, false, 0, "", learned, 0)
                   else Dest(name, Some(p), rtt, true, hops + 1, neighbour, learned, rtt);
      Put(entry, lost);
      entered := true;
    }

    /** A report about `name` over link `p`: the entry changes, and the neighbours that may hear of it do. */
    method UpdateDestinations(p: nat, name: Name, rtt: int, hops: int, neighbour: Name, learned: bool,
                              ghost lost: Option<nat>)
      requires RoutesOk(dests, links, conns, lost) && AllAnnounceOk(sent) && TimesOk(links)
      requires IsLink(links, p) && rtt >= 0 && (rtt > 0 ==> Live(links, conns, p))
      requires rtt == 0 ==> RouteBefore(EntryOf(name), p) == p
      modifies this`dests, this`sent
      ensures RoutesOk(dests, links, conns, lost) && AllAnnounceOk(sent)
      ensures Heard(old(dests), dests, old(sent), sent, links, conns, p, name, rtt, hops, neighbour, learned)
      ensures rtt == 0 ==> sent == old(sent) + SaidTo(links, conns, p, name, 0, p, |links|)
      ensures var at := FindDest(old(dests), name, 0);
              rtt == 0 && at.Some? ==> dests == old(dests)[at.value := Dest(name, None, 0, false, 0, [], learned, 0)]
    {
      var entered, lastSent, before := Enter(p, name, rtt, hops, neighbour, learned, lost);
      if !entered || (learned && rtt != 0) {
        return;
      }
      ghost var entry, mid := Report(old(EntryOf(name)), p, name, rtt, hops, neighbour, learned).value, dests;
      Spread(p, name, rtt, lastSent, before, lost);
      HeardNow(old(dests), mid, dests, old(sent), sent, links, conns, p, entry, rtt, lastSent, before);
    }

    /** What is written about a report that was entered. */
    method Spread(p: nat, name: Name, rtt: int, lastSent: int, before: nat, ghost lost: Option<nat>)
      requires RoutesOk(dests, links, conns, lost) && AllAnnounceOk(sent) && TimesOk(links)
      requires IsLink(links, p) && rtt >= 0 && lastSent >= 0 && (rtt == 0 ==> before == p)
      modifies this`dests, this`sent
      ensures RoutesOk(dests, links, conns, lost) && AllAnnounceOk(sent)
      ensures Announced(old(sent), sent, old(dests), links, conns, p, name, rtt, lastSent, before)
      ensures rtt == 0 ==> sent == old(sent) + SaidTo(links, conns, p, name, 0, p, |links|)
      ensures SettledAll(old(dests), dests, links, conns, p, name, rtt, lastSent)
    {
      ghost var was := dests;
      if rtt != 0 && lastSent != 0 && Live(links, conns, p) && links[p].value.name == name {
        Reestimate(p, name, rtt, lastSent, lost);
      }
      AllSettled(was, dests, links, conns, p, name, rtt, lastSent);
      SaidIsRight(links, conns, p, name, rtt, before);
      AnnouncedNow(old(sent), sent, SaidTo(links, conns, p, name, rtt, before, |links|), was, links, conns, p, name, rtt, lastSent, before);
      Tell(p, name, rtt, before);
    }

    // -------------------------------------------------------------- links

    /** Every route over link `p` dies, and the other neighbours are told. */
    method DropRoutes(p: nat, ghost lost: Option<nat>)
      requires RoutesOk(dests, links, conns, lost) && AllAnnounceOk(sent) && TimesOk(links) && IsLink(links, p)
      modifies this`dests, this`sent
      ensures dests == Bereft(old(dests), p)
      ensures sent == old(sent) + Obituaries(old(dests), links, conns, p, |old(dests)|)
      ensures Grieved(old(sent), sent, old(dests), links, conns, Some(p))
      ensures AllAnnounceOk(sent)
      ensures RoutesOk(dests, links, conns, if lost == Some(p) then None else lost)
    {
      ghost var was := dests;
      for i := 0 to |dests|
        invariant BereftTo(was, dests, p, i)
        invariant Told(old(sent), sent, was, links, conns, p, i)
        invariant RoutesOk(dests, links, conns, lost) && AllAnnounceOk(sent)
      {
        ToldOne(old(sent), sent, was, links, conns, p, i);
        DropRoute(i, p, lost);
      }
      BereftAll(was, dests, p);
      ObituariesMourn(was, links, conns, p, |was|);
      BereftRoutes(was, links, conns, p, lost);
    }

    method DropRoute(i: nat, p: nat, ghost lost: Option<nat>)
      requires RoutesOk(dests, links, conns, lost) && AllAnnounceOk(sent) && TimesOk(links) && IsLink(links, p)
      requires i < |dests|
      modifies this`dests, this`sent
      ensures dests == old(dests)[i := Widowed(old(dests)[i], p)]
      ensures sent == old(sent) + Obituary(old(dests)[i], links, conns, p)
      ensures RoutesOk(dests, links, conns, lost) && AllAnnounceOk(sent)
    {
      var d := dests[i];
      if d.rtt != 0 && d.link == Some(p) {
        FindAt(dests, i);
        UpdateDestinations(p, d.name, 0, 0, d.neighbour, false, lost);
      }
    }

    /** Writes a slot of the link table. A link in a free slot starts a chain of its own. */
    method Store(p: nat, l: Link, ghost unlinked: Option<nat>)
      requires NetworkOk(unlinked, None) && Fits(links, conns, p, l) && SameEnds(links, p, l)
      requires links[p].Some? && Live(links[p := Some(l)], conns, p) ==> OthersDead(links, conns, place, p)
      modifies this`links, this`place, this`nextChain
      ensures links == old(links)[p := Some(l)]
      ensures NetworkOk(if l.conn == unlinked then None else unlinked, None)
      ensures place == PlacedAt(old(links), old(place), old(nextChain), p)
    {
      SetTable(links, conns, dests, place, nextChain, unlinked, p, l);
      place := PlacedAt(links, place, nextChain, p);
      nextChain := nextChain + 1;
      links := links[p := Some(l)];
    }

    /**
     The link `name` gets connection `cp`, or has lost the one it had: the routes over it die first.
     Without such a link a free slot is taken.
     */
    method UpdatePermlinks(name: Name, cp: Option<nat>, isperm: bool, ghost lost: Option<nat>)
      returns (slot: Option<nat>)
      requires NetworkOk(cp, lost)
      requires lost.Some? ==> lost == FindLink(links, name)
      requires cp.Some? ==> cp.value in conns && conns[cp.value].kind == Host && conns[cp.value].name == name
      requires forall s :: IsLink(links, s) && links[s].value.name != name && cp.Some? ==> links[s].value.conn != cp
      requires var p := FindLink(links, name);
               p.Some? ==>
                 && (Live(links, conns, p.value) ==> links[p.value].value.conn == cp)
                 && (cp.Some? ==> OthersDead(links, conns, place, p.value))
      modifies this`links, this`dests, this`sent, this`place, this`nextChain
      ensures slot == SlotFor(old(links), name)
      ensures links == Relink(old(links), name, cp, isperm)
      ensures FindLink(old(links), name).Some? ==> place == old(place) && dests == Bereft(old(dests), slot.value)
      ensures FindLink(old(links), name).None? ==> dests == old(dests)
      ensures Grieved(old(sent), sent, old(dests), old(links), conns, FindLink(old(links), name))
      ensures slot.None? ==> place == old(place)
      ensures slot.Some? && cp.Some? ==> IsLink(links, slot.value) && links[slot.value].value.conn == cp
      ensures NetworkOk(if slot.Some? then None else cp, None)
    {
      slot := FindLink(links, name);
      if slot.Some? {
        Refresh(slot.value, name, cp, isperm, lost);
        return;
      }
      slot := FindFree(links, 0);
      if slot.Some? {
        UpdateFits(links, conns, cp, slot.value, name, cp, isperm);
        Store(slot.value, NewLink(name, cp, isperm), cp);
      }
    }

    /** The link in slot `p` gets a connection, or has lost the one it had. */
    method Refresh(p: nat, name: Name, cp: Option<nat>, isperm: bool, ghost lost: Option<nat>)
      requires NetworkOk(cp, lost) && FindLink(links, name) == Some(p) && (lost.Some? ==> lost == Some(p))
      requires cp.Some? ==> cp.value in conns && conns[cp.value].kind == Host && conns[cp.value].name == name
      requires forall s :: IsLink(links, s) && links[s].value.name != name && cp.Some? ==> links[s].value.conn != cp
      requires Live(links, conns, p) ==> links[p].value.conn == cp
      requires cp.Some? ==> OthersDead(links, conns, place, p)
      modifies this`links, this`dests, this`sent, this`place, this`nextChain
      ensures links == Relink(old(links), name, cp, isperm) && IsLink(links, p) && (cp.Some? ==> links[p].value.conn == cp)
      ensures place == old(place) && dests == Bereft(old(dests), p)
      ensures Grieved(old(sent), sent, old(dests), old(links), conns, Some(p)) && NetworkOk(None, None)
    {
      DropRoutes(p, lost);
      UpdateFits(links, conns, cp, p, name, cp, isperm);
      Store(p, Relinked(links[p].value, cp, isperm), cp);
    }

    /** Resets the routes that are not alive or lead over a connection named like `cp`. */
    method RouteCleanup(cp: nat)
      requires RoutesOk(dests, links, conns, None) && cp in conns
      modifies this`dests
      ensures RoutesOk(dests, links, conns, None) && |dests| == |old(dests)|
      ensures forall i :: 0 <= i < |dests| ==> dests[i] == Cleaned(old(dests)[i], links, conns, conns[cp].name)
    {
      for i := 0 to |dests|
        invariant |dests| == |old(dests)| && RoutesOk(dests, links, conns, None)
        invariant forall k :: 0 <= k < i ==> dests[k] == Cleaned(old(dests)[k], links, conns, conns[cp].name)
        invariant forall k :: i <= k < |dests| ==> dests[k] == old(dests)[k]
      {
        var d := dests[i];
        assert RouteOk(d, links, conns, None);
        if d.link.None? || !d.connected || links[d.link.value].value.conn.None? ||
           conns[links[d.link.value].value.conn.value].name == conns[cp].name
        {
          dests := dests[i := d.(link := None, rtt := 0, lastSent := 0, connected := false)];
        }
      }
    }

    /** Closes a connection; with a host goes everything that came over it. */
    method Bye(cp: nat, ghost unlinked: Option<nat>)
      requires ValidBut(unlinked) && cp in conns
      requires unlinked.Some? ==> unlinked == Some(cp) && conns[cp].kind == Host && !Attached(links, cp) &&
                                  SlotFor(links, conns[cp].name).None?
      modifies this`conns, this`links, this`dests, this`sent, this`place, this`nextChain
      ensures Valid() && place == old(place)
      ensures conns == if old(conns)[cp].kind == Host then CloseOver(old(conns), cp)
                       else old(conns)[cp := old(conns)[cp].(kind := Closed)]
      ensures old(conns)[cp].kind != Host ==> links == old(links) && dests == old(dests) && sent == old(sent)
      ensures old(conns)[cp].kind == Host ==>
                && links == Relink(old(links), old(conns)[cp].name, None, false)
                && Cut(old(dests), dests, FindLink(old(links), old(conns)[cp].name))
                && LostNews(old(sent), sent, old(dests), old(links), old(conns), cp)
    {
      if conns[cp].kind == Host {
        ByeHost(cp, unlinked);
      } else {
        Close(cp);
      }
    }

    /** Closes a connection that is not a host's. */
    method Close(cp: nat)
      requires Valid() && cp in conns && conns[cp].kind != Host
      modifies this`conns
      ensures Valid() && conns == old(conns)[cp := old(conns)[cp].(kind := Closed)]
    {
      ghost var was := conns;
      CloseOnePresence(me, conns, cp);
      conns := conns[cp := conns[cp].(kind := Closed)];
      SameHostsTable(links, was, conns, place, nextChain, dests);
    }

    /** Closes everything that came over `cp`. */
    method CloseUsers(cp: nat)
      modifies this`conns
      ensures conns.Keys == old(conns).Keys
      ensures forall c :: c in conns ==>
                conns[c] == if old(conns)[c].via == Some(cp) then old(conns)[c].(kind := Closed) else old(conns)[c]
    {
      var todo := conns.Keys;
      while todo != {}
        invariant conns.Keys == old(conns).Keys && todo <= conns.Keys
        invariant forall c :: c in todo ==> conns[c] == old(conns)[c]
        invariant forall c :: c in conns && c !in todo ==>
                    conns[c] == if old(conns)[c].via == Some(cp) then old(conns)[c].(kind := Closed) else old(conns)[c]
        decreases |todo|
      {
        var c :| c in todo;
        if conns[c].via == Some(cp) {
          conns := conns[c := conns[c].(kind := Closed)];
        }
        todo := todo - {c};
      }
    }

    /** A host connection is closed and its link told so. */
    method Unhook(cp: nat, ghost unlinked: Option<nat>)
      requires NetworkOk(unlinked, None) && cp in conns && conns[cp].kind == Host
      requires unlinked.Some? ==> unlinked == Some(cp) && !Attached(links, cp) && SlotFor(links, conns[cp].name).None?
      modifies this`conns, this`links, this`dests, this`sent, this`place, this`nextChain
      ensures NetworkOk(None, None) && place == old(place)
      ensures conns == old(conns)[cp := old(conns)[cp].(kind := Closed)]
      ensures links == Relink(old(links), conns[cp].name, None, false)
      ensures Grieved(old(sent), sent, old(dests), old(links), conns, FindLink(old(links), conns[cp].name))
      ensures var p := FindLink(old(links), conns[cp].name);
              p == FindLink(links, conns[cp].name) && dests == if p.Some? then Bereft(old(dests), p.value) else old(dests)
    {
      ghost var lost := FindLink(links, conns[cp].name);
      if unlinked.None? {
        OwnLink(links, conns, None, cp);
      }
      LoseHost(links, conns, place, dests, cp, unlinked, lost);
      RelinkLost(links, conns[cp].name);
      conns := conns[cp := conns[cp].(kind := Closed)];
      var slot := UpdatePermlinks(conns[cp].name, None, false, lost);
      if lost.Some? {
        UniqueLink(links, conns, None, lost.value, conns[cp].name);
      }
    }

    method ByeHost(cp: nat, ghost unlinked: Option<nat>)
      requires ValidBut(unlinked) && cp in conns && conns[cp].kind == Host
      requires unlinked.Some? ==> unlinked == Some(cp) && !Attached(links, cp) && SlotFor(links, conns[cp].name).None?
      modifies this`conns, this`links, this`dests, this`sent, this`place, this`nextChain
      ensures Valid() && place == old(place)
      ensures conns == CloseOver(old(conns), cp) && links == Relink(old(links), old(conns)[cp].name, None, false)
      ensures LostNews(old(sent), sent, old(dests), old(links), old(conns), cp)
      ensures Cut(old(dests), dests, FindLink(old(links), old(conns)[cp].name))
    {
      ghost var conns0, links0, before := conns, links, dests;
      TakeDown(cp, unlinked);
      Tidy(cp, before, links0, conns0);
    }

    /** A host and its users go. */
    method TakeDown(cp: nat, ghost unlinked: Option<nat>)
      requires ValidBut(unlinked) && cp in conns && conns[cp].kind == Host
      requires unlinked.Some? ==> unlinked == Some(cp) && !Attached(links, cp) && SlotFor(links, conns[cp].name).None?
      modifies this`conns, this`links, this`dests, this`sent, this`place, this`nextChain
      ensures Valid() && place == old(place) && conns == CloseOver(old(conns), cp)
      ensures conns[cp].name == old(conns)[cp].name
      ensures links == Relink(old(links), conns[cp].name, None, false)
      ensures LostNews(old(sent), sent, old(dests), old(links), old(conns), cp)
      ensures var p := FindLink(old(links), conns[cp].name);
              p == FindLink(links, conns[cp].name) && dests == if p.Some? then Bereft(old(dests), p.value) else old(dests)
    {
      ghost var conns0 := conns;
      Unhook(cp, unlinked);
      TakeUsers(cp, conns0);
    }

    /** With a closed host go its users. */
    method TakeUsers(cp: nat, ghost was: Conns)
      requires NetworkOk(None, None) && PresenceOk(me, was) && cp in was && conns == was[cp := was[cp].(kind := Closed)]
      requires forall c :: c in conns ==> c < nextId
      modifies this`conns
      ensures Valid() && conns == CloseOver(was, cp)
    {
      ghost var mid := conns;
      CloseUsers(cp);
      CloseOverSteps(me, was, mid, conns, cp);
      SameHostsOk(links, mid, conns, place, dests, None, None);
    }

    /** The clean-up after a host: nothing but the routes over its link is cut. */
    method Tidy(cp: nat, ghost before: seq<Dest>, ghost links0: Links, ghost conns0: Conns)
      requires Valid() && cp in conns
      requires var p := FindLink(links, conns[cp].name); dests == if p.Some? then Bereft(before, p.value) else before
      requires RoutesOk(before, links0, conns0, None)
      modifies this`dests
      ensures Valid() && Cut(before, dests, FindLink(links, conns[cp].name))
    {
      ghost var bereft := dests;
      RouteCleanup(cp);
      CleanedCut(before, bereft, dests, links, conns, conns[cp].name, FindLink(links, conns[cp].name), links0, conns0);
    }

    // -------------------------------------------------------------- admission of a host

    /** Rewrites a link without touching its connection or its chain. */
    method Amend(s: nat, l: Link)
      requires Valid() && IsLink(links, s) && LinkOk(l, conns) && SameEnds(links, s, l)
      requires l.conn == links[s].value.conn
      requires forall t :: IsLink(links, t) && t != s ==> links[t].value.name != l.name
      modifies this`links, this`place, this`nextChain
      ensures Valid() && links == old(links)[s := Some(l)] && place == old(place)
    {
      Store(s, l, None);
    }

    /** The nearest live link of higher priority in the chain of `s`. */
    method LiveUp(s: nat) returns (r: Option<nat>)
      requires ChainsOk(EndsOf(links), place) && LinksOk(links, conns, None) && IsLink(links, s)
      ensures r.Some? ==> Live(links, conns, r.value) && Below(place, r.value, s)
      ensures r.None? ==> forall t: nat :: Below(place, t, s) ==> !Live(links, conns, t)
    {
      ghost var ends := EndsOf(links);
      assert s in ends && s in place;
      var at := s;
      while links[at].value.primary.Some?
        invariant IsLink(links, at) && at in ends && (at == s || Below(place, at, s))
        invariant forall t: nat :: Below(place, t, s) ==> Below(place, t, at) || !Live(links, conns, t)
        decreases Lower(place, at)
      {
        WalkUp(ends, place, at);
        var up := links[at].value.primary.value;
        if links[up].value.conn.Some? && conns[links[up].value.conn.value].kind == Host {
          return Some(up);
        }
        at := up;
      }
      WalkEnds(ends, place, at);
      r := None;
    }

    /** The nearest live link of lower priority in the chain of `s`. */
    method LiveDown(s: nat) returns (r: Option<nat>)
      requires ChainsOk(EndsOf(links), place) && LinksOk(links, conns, None) && IsLink(links, s)
      ensures r.Some? ==> Live(links, conns, r.value) && Below(place, s, r.value)
      ensures r.None? ==> forall t: nat :: Below(place, s, t) ==> !Live(links, conns, t)
    {
      ghost var ends := EndsOf(links);
      assert s in ends && s in place;
      var at := s;
      while links[at].value.backup.Some?
        invariant IsLink(links, at) && at in ends && (at == s || Below(place, s, at))
        invariant forall t: nat :: Below(place, s, t) ==> Below(place, at, t) || !Live(links, conns, t)
        decreases Higher(place, at)
      {
        WalkDown(ends, place, at);
        var down := links[at].value.backup.value;
        if links[down].value.conn.Some? && conns[links[down].value.conn.value].kind == Host {
          return Some(down);
        }
        at := down;
      }
      WalkEnds(ends, place, at);
      r := None;
    }

    /** The name a connection gave itself, before it is anything. */
    method SetName(cp: nat, name: Name)
      requires Valid() && cp in conns && conns[cp].kind == Unknown
      modifies this`conns
      ensures Valid() && conns == old(conns)[cp := old(conns)[cp].(name := name)]
    {
      ghost var was := conns;
      NameOk(me, conns, cp, name);
      conns := conns[cp := conns[cp].(name := name)];
      SameHostsTable(links, was, conns, place, nextChain, dests);
    }

    /**
     Looks through the link table for the link of the calling host. A live connection it has is closed
     (and then the link does not count as found); a link that called it under another name is renamed.
     */
    method FindSelf(cp: nat, name: Name) returns (mine: Option<nat>)
      requires Valid() && cp in conns && conns[cp].kind == Unknown && NoClash(links, cp, name)
      modifies this`conns, this`links, this`dests, this`sent, this`place, this`nextChain
      ensures Valid() && place == old(place) && cp in conns && conns[cp] == old(conns)[cp]
      ensures Searched(old(conns), old(links), old(dests), conns, links, dests, cp, name, mine)
      ensures if Own(old(links), cp, name).Some? then Wrote(old(sent), sent, Own(old(links), cp, name)) else sent == old(sent)
      ensures mine.Some? ==> sent == old(sent)
    {
      ghost var own := Own(links, cp, name);
      mine := None;
      for i := 0 to |links|
        invariant Valid() && |links| == |old(links)| && place == old(place)
        invariant cp in conns && conns[cp] == old(conns)[cp]
        invariant NoClash(links, cp, name) && Own(links, cp, name) == own
        invariant own.None? || i <= own.value ==>
                    mine.None? && conns == old(conns) && links == old(links) && dests == old(dests) && sent == old(sent)
        invariant own.Some? && own.value < i ==> Wrote(old(sent), sent, own) && (mine.Some? ==> sent == old(sent))
        invariant own.Some? && own.value < i ==>
                    Settled(old(conns), old(links), old(dests), conns, links, dests, own.value, name, mine)
      {
        var hit := Visit(i, cp, name);
        if hit {
          mine := Some(i);
        }
      }
    }

    /** A host calls again: its old connection is closed. */
    method DropOld(i: nat, cp: nat)
      requires Valid() && Live(links, conns, i) && cp in conns && conns[cp].kind == Unknown
      modifies this`conns, this`links, this`dests, this`sent, this`place, this`nextChain
      ensures Valid() && place == old(place) && cp in conns && conns[cp] == old(conns)[cp]
      ensures forall s :: Live(links, conns, s) ==> s != i && Live(old(links), old(conns), s)
      ensures conns == CloseOver(old(conns), old(links)[i].value.conn.value) && Cut(old(dests), dests, Some(i))
      ensures links == old(links)[i := Some(Relinked(old(links)[i].value, None, false))] && Wrote(old(sent), sent, Some(i))
    {
      UniqueLink(links, conns, None, i, links[i].value.name);
      assert LinkOk(links[i].value, conns);
      ghost var a, c := Now(), links[i].value.conn.value;
      Bye(links[i].value.conn.value, None);
      GrievedWrote(a.sent, sent, a.dests, a.links, a.conns[c := a.conns[c].(kind := Closed)], Some(i));
    }

    /** One slot of the search. */
    method Visit(i: nat, cp: nat, name: Name) returns (hit: bool)
      requires Valid() && i < |links| && cp in conns && conns[cp].kind == Unknown && NoClash(links, cp, name)
      modifies this`conns, this`links, this`dests, this`sent, this`place, this`nextChain
      ensures Valid() && place == old(place) && |links| == |old(links)| && cp in conns && conns[cp] == old(conns)[cp]
      ensures NoClash(links, cp, name)
      ensures if Own(old(links), cp, name) == Some(i)
              then Settled(old(conns), old(links), old(dests), conns, links, dests, i, name, if hit then Some(i) else None)
              else !hit && conns == old(conns) && links == old(links) && dests == old(dests) && sent == old(sent)
      ensures Own(old(links), cp, name) == Some(i) ==> Wrote(old(sent), sent, Some(i)) && (hit ==> sent == old(sent))
      ensures Own(links, cp, name) == Own(old(links), cp, name)
    {
      hit := false;
      if links[i].None? {
        return;
      }
      var l := links[i].value;
      if l.conn.Some? && l.conn.value != cp && conns[l.conn.value].kind == Host && l.name == name {
        Resettle(i, cp);
      } else {
        hit := Rename(i, cp, name);
      }
    }

    /** The link of a host that calls again. */
    method Resettle(i: nat, cp: nat)
      requires Valid() && Live(links, conns, i) && cp in conns && conns[cp].kind == Unknown && NoClash(links, cp, links[i].value.name)
      modifies this`conns, this`links, this`dests, this`sent, this`place, this`nextChain
      ensures Valid() && place == old(place) && |links| == |old(links)| && cp in conns && conns[cp] == old(conns)[cp]
      ensures var name := old(links)[i].value.name;
              && Settled(old(conns), old(links), old(dests), conns, links, dests, i, name, None)
              && NoClash(links, cp, name) && Own(old(links), cp, name) == Some(i) && Own(links, cp, name) == Some(i)
      ensures Wrote(old(sent), sent, Some(i))
    {
      UniqueLink(links, conns, None, i, links[i].value.name);
      DropOld(i, cp);
      UniqueLink(links, conns, None, i, links[i].value.name);
    }

    /** A link that is not live: if it called the host, it gets the name the host answers with. */
    method Rename(i: nat, cp: nat, name: Name) returns (hit: bool)
      requires Valid() && IsLink(links, i) && cp in conns && conns[cp].kind == Unknown && NoClash(links, cp, name)
      modifies this`links, this`place, this`nextChain
      ensures Valid() && place == old(place)
      ensures hit == (Own(old(links), cp, name) == Some(i)) && NoClash(links, cp, name) && Own(links, cp, name) == Own(old(links), cp, name)
      ensures links == if hit then old(links)[i := Some(old(links)[i].value.(name := name))] else old(links)
    {
      var l := links[i].value;
      if l.name == name {
        UniqueLink(links, conns, None, i, name);
      }
      if l.conn == Some(cp) && l.name != name {
        Amend(i, l.(name := name));
      }
      hit := links[i].value.name == name;
    }

    /** An old link of the chain makes way: it is closed and locked, and the caller has to call again. */
    method Supersede(cp: nat, t: nat)
      requires Valid() && Live(links, conns, t) && cp in conns && conns[cp].kind == Unknown
      modifies this`conns, this`links, this`dests, this`sent, this`place, this`nextChain
      ensures Valid() && place == old(place) && cp in conns && conns[cp].kind == Closed
      ensures forall s :: Live(links, conns, s) ==> s != t && Live(old(links), old(conns), s)
      ensures IsLink(links, t) && links[t].value.locked
      ensures var c := CloseOver(old(conns), old(links)[t].value.conn.value);
              cp in c && conns == c[cp := c[cp].(kind := Closed)]
      ensures Cut(old(dests), dests, Some(t)) && links == old(links)[t := links[t]]
    {
      DropOld(t, cp);
      LockOut(cp, t);
    }

    method LockOut(cp: nat, t: nat)
      requires Valid() && IsLink(links, t) && cp in conns && conns[cp].kind == Unknown
      modifies this`conns, this`links, this`place, this`nextChain
      ensures Valid() && place == old(place) && conns == old(conns)[cp := old(conns)[cp].(kind := Closed)]
      ensures links == old(links)[t := Some(old(links)[t].value.(locked := true))]
      ensures forall s :: Live(links, conns, s) ==> Live(old(links), old(conns), s)
    {
      Lock(t);
      Close(cp);
    }

    method Lock(s: nat)
      requires Valid() && IsLink(links, s)
      modifies this`links, this`place, this`nextChain
      ensures Valid() && links == old(links)[s := Some(old(links)[s].value.(locked := true))] && place == old(place)
      ensures forall t :: Live(links, conns, t) <==> Live(old(links), conns, t)
    {
      Amend(s, links[s].value.(locked := true));
    }

    /** Asks the lock of link `s`, then the links of higher and of lower priority in its chain. */
    method AskChain(s: nat, now: int) returns (v: Verdict, t: nat)
      requires ChainsOk(EndsOf(links), place) && LinksOk(links, conns, None) && OneLive(links, conns, place)
      requires IsLink(links, s) && !Live(links, conns, s)
      ensures v == ChainVerdict(links, conns, place, s, now)
      ensures v == Reorganised ==> SameChain(place, t, s) && Live(links, conns, t)
    {
      t := s;
      if links[s].value.locked {
        return Locked, s;
      }
      ChainSplit(EndsOf(links), place, s);
      var up := LiveUp(s);
      if up.Some? {
        t := up.value;
        v := if links[t].value.tx != 0 || now - conns[links[t].value.conn.value].time < 120 then Outranked else Reorganised;
        return;
      }
      var down := LiveDown(s);
      if down.Some? {
        return Reorganised, down.value;
      }
      v := Accepted;
    }

    /** What the chain of the caller's link says is done. */
    method CheckChain(cp: nat, mine: nat, now: int) returns (v: Verdict)
      requires Valid() && IsLink(links, mine) && !Live(links, conns, mine) && cp in conns && conns[cp].kind == Unknown
      modifies this`conns, this`links, this`dests, this`sent, this`place, this`nextChain
      ensures Valid() && place == old(place) && cp in conns
      ensures v == ChainVerdict(old(links), old(conns), old(place), mine, now)
      ensures v == Accepted ==> conns == old(conns) && links == old(links) && dests == old(dests) && sent == old(sent)
      ensures v != Accepted ==> Rejected(old(Now()), Now(), cp, Some(mine), old(conns)[cp].name, v)
      ensures v == Accepted || v == Locked || v == Outranked || v == Reorganised
    {
      var t;
      v, t := AskChain(mine, now);
      if v == Reorganised {
        Reorganise(cp, mine, t);
      } else if v == Locked || v == Outranked {
        Decline(cp, mine, v);
      }
    }

    /** The caller alone goes. */
    method Decline(cp: nat, ghost mine: nat, ghost v: Verdict)
      requires Valid() && cp in conns && conns[cp].kind == Unknown && (v == Locked || v == Outranked)
      modifies this`conns
      ensures Valid() && Rejected(old(Now()), Now(), cp, Some(mine), old(conns)[cp].name, v)
    {
      ghost var was := conns;
      Close(cp);
      OnlyThisChain(was, links, place, Some(mine), cp, conns);
    }

    /** The live relative `t` of link `mine` makes way. */
    method Reorganise(cp: nat, mine: nat, t: nat)
      requires Valid() && Live(links, conns, t) && SameChain(place, t, mine) && cp in conns && conns[cp].kind == Unknown
      modifies this`conns, this`links, this`dests, this`sent, this`place, this`nextChain
      ensures Valid() && place == old(place) && Rejected(old(Now()), Now(), cp, Some(mine), old(conns)[cp].name, Reorganised)
    {
      ghost var a := Now();
      Supersede(cp, t);
      RejectedNow(a, Now(), cp, mine, t, a.conns[cp].name);
    }

    /** The connection becomes a host's, and its link is made or found. */
    method Attach(cp: nat, name: Name) returns (slot: Option<nat>)
      requires Valid() && MayJoin(links, conns, place, cp, name)
      modifies this`conns, this`links, this`dests, this`sent, this`place, this`nextChain
      ensures conns == old(conns)[cp := old(conns)[cp].(kind := Host)] && OnlyThis(old(conns), conns, cp)
      ensures slot == SlotFor(old(links), name)
      ensures slot.Some? ==> Valid() && IsLink(links, slot.value) && links[slot.value].value.conn == Some(cp)
      ensures links == Relink(old(links), name, Some(cp), false)
      ensures slot.None? ==> ValidBut(Some(cp)) && links == old(links) && place == old(place)
      ensures Wrote(old(sent), sent, slot) && Cut(old(dests), dests, None)
    {
      ghost var a := Now();
      Promote(cp, name);
      ghost var mid := dests;
      slot := Join(cp, name);
      if slot.Some? {
        JoinCut(a.dests, mid, a.links, a.conns, slot.value);
      }
    }

    /** The link of the new host gets its connection. */
    method Join(cp: nat, name: Name) returns (slot: Option<nat>)
      requires NetworkOk(Some(cp), None) && Joining(links, conns, place, cp, name)
      modifies this`links, this`dests, this`sent, this`place, this`nextChain
      ensures NetworkOk(if slot.Some? then None else Some(cp), None) && slot == SlotFor(old(links), name)
      ensures slot.Some? ==> IsLink(links, slot.value) && links[slot.value].value.conn == Some(cp)
      ensures slot.Some? ==> dests == old(dests) || dests == Bereft(old(dests), slot.value)
      ensures links == Relink(old(links), name, Some(cp), false) && Wrote(old(sent), sent, slot)
      ensures slot.None? ==> links == old(links) && place == old(place) && dests == old(dests)
    {
      ghost var a := Now();
      slot := UpdatePermlinks(name, Some(cp), false, None);
      GrievedWrote(a.sent, sent, a.dests, a.links, conns, FindLink(a.links, name));
    }

    method Promote(cp: nat, name: Name)
      requires Valid() && MayJoin(links, conns, place, cp, name)
      modifies this`conns, this`dests
      ensures conns == old(conns)[cp := old(conns)[cp].(kind := Host)]
      ensures ValidBut(Some(cp)) && Joining(links, conns, place, cp, name)
      ensures Cut(old(dests), dests, None)
    {
      ghost var was, before := conns, dests;
      MakeHost(cp, name);
      RouteCleanup(cp);
      PromoteCut(before, dests, links, was, place, cp, name);
    }

    method MakeHost(cp: nat, name: Name)
      requires Valid() && MayJoin(links, conns, place, cp, name)
      modifies this`conns
      ensures conns == old(conns)[cp := old(conns)[cp].(kind := Host)]
      ensures ValidBut(Some(cp)) && Joining(links, conns, place, cp, name)
    {
      JoinHost(me, links, conns, place, dests, cp, name);
      conns := conns[cp := conns[cp].(kind := Host)];
    }

    /** A new neighbour is told the routes over the other links. */
    method GreetHost(cp: nat, slot: nat)
      requires Valid() && IsLink(links, slot) && links[slot].value.conn == Some(cp)
      requires Unrouted(dests, links[slot].value.name)
      modifies this`sent
      ensures Valid() && old(sent) <= sent
      ensures multiset(sent[|old(sent)|..]) ==
              Owed(dests, links, cp, slot, links[slot].value.name, 0, Beyond(dests), |dests|)
      ensures Greeted(sent, |old(sent)|, dests, links, cp, slot, links[slot].value.name)
    {
      var news := Greet(dests, links, cp, slot, links[slot].value.name, Beyond(dests));
      OwedOk(dests, links, conns, cp, slot, news, Beyond(dests));
      OwedIsGreeting(dests, links, cp, slot, links[slot].value.name, news);
      GreetedAfter(sent, news, dests, links, cp, slot, links[slot].value.name);
      sent := sent + news;
    }

    /** Lets a host in, if there is room in the link table. */
    method Admit(cp: nat, name: Name, learned: bool) returns (v: Verdict)
      requires Valid() && MayJoin(links, conns, place, cp, name)
      requires Unrouted(dests, name)
      modifies this`conns, this`links, this`dests, this`sent, this`place, this`nextChain
      ensures Valid() && cp in conns
      ensures v == if SlotFor(old(links), name).None? then TableFull else Accepted
      ensures v == Accepted ==> Established(me, links, conns, dests, cp, name, learned) && links == Welcomed(old(links), name, cp)
      ensures v == Accepted ==> GreetedBy(old(sent), sent, dests, links, conns, cp, name, learned)
      ensures v == Accepted ==> FindLink(links, name) == SlotFor(old(links), name)
      ensures v == TableFull ==> conns[cp].kind == Closed && links == old(links)
      ensures OnlyThis(old(conns), conns, cp) && RoutesWithin(old(dests), dests, old(place), None, name)
    {
      NobodyOver(me, conns, cp);
      NotHeld(links, conns, place, cp, name);
      ghost var a := Now();
      var slot := Attach(cp, name);
      CutUnrouted(a.dests, dests, name);
      CutWithin(a.dests, dests, None, a.place, None, name);
      ghost var m := Now();
      if slot.None? {
        TurnAway(cp);
        CutWithin(m.dests, dests, None, a.place, None, name);
        v := TableFull;
      } else {
        Introduce(cp, slot.value, name, learned);
        OthersWithin(m.dests, dests, a.place, name);
        GreetedSince(a.sent, m.sent, sent, dests, links, conns, cp, name, learned);
        v := Accepted;
      }
      RoutesWithinThen(a.dests, m.dests, dests, a.place, None, name);
    }

    /** There is no room for a host: it goes alone. */
    method TurnAway(cp: nat)
      requires ValidBut(Some(cp)) && cp in conns && conns[cp].kind == Host && !Attached(links, cp)
      requires SlotFor(links, conns[cp].name).None?
      requires forall c :: c in conns && conns[c].via == Some(cp) ==> conns[c].kind == Closed
      modifies this`conns, this`links, this`dests, this`sent, this`place, this`nextChain
      ensures Valid() && cp in conns && conns[cp].kind == Closed && OnlyThis(old(conns), conns, cp)
      ensures links == old(links) && Cut(old(dests), dests, None)
    {
      Bye(cp, Some(cp));
    }

    /** A report over link `p`, in a sound state. */
    method Hear(p: nat, name: Name, rtt: int, hops: int, neighbour: Name, learned: bool)
      requires Valid() && IsLink(links, p) && rtt >= 0 && (rtt > 0 ==> Live(links, conns, p))
      requires rtt == 0 ==> RouteBefore(EntryOf(name), p) == p
      modifies this`dests, this`sent
      ensures Valid() && Heard(old(dests), dests, old(sent), sent, links, conns, p, name, rtt, hops, neighbour, learned)
    {
      UpdateDestinations(p, name, rtt, hops, neighbour, learned, None);
    }

    /** The new neighbour hears of the others, and the others of it. */
    method Introduce(cp: nat, slot: nat, name: Name, learned: bool)
      requires Valid() && cp in conns && conns[cp].kind == Host && conns[cp].name == name
      requires IsLink(links, slot) && links[slot].value.conn == Some(cp)
      requires Unrouted(dests, name)
      modifies this`links, this`dests, this`sent, this`place, this`nextChain
      ensures Valid() && Established(me, links, conns, dests, cp, name, learned) && FindLink(links, name) == Some(slot)
      ensures links == old(links)[slot := Some(old(links)[slot].value.(tx := 3, rx := -1))] && SameOthers(old(dests), dests, name)
      ensures GreetedBy(old(sent), sent, dests, links, conns, cp, name, learned)
    {
      assert LinkOk(links[slot].value, conns);
      ghost var sent0, links0, dests0 := sent, links, dests;
      GreetHost(cp, slot);
      ghost var sent2 := sent;
      Activate(cp, slot, name, learned);
      GreetedStill(sent0, sent0, sent2, sent, dests0, links0, dests, links, cp, slot, name);
    }

    /** The link gets its first times, and the route to the neighbour its first rtt. */
    method Activate(cp: nat, slot: nat, name: Name, learned: bool)
      requires Valid() && cp in conns && conns[cp].kind == Host && conns[cp].name == name
      requires IsLink(links, slot) && links[slot].value.conn == Some(cp) && links[slot].value.name == name
      requires Unrouted(dests, name)
      modifies this`links, this`dests, this`sent, this`place, this`nextChain
      ensures Valid() && Established(me, links, conns, dests, cp, name, learned) && FindLink(links, name) == Some(slot)
      ensures links == old(links)[slot := Some(old(links)[slot].value.(tx := 3, rx := -1))]
      ensures SameOthers(old(dests), dests, name) && Wrote(old(sent), sent, Some(slot))
      ensures !learned ==> ToldRight(sent[|old(sent)|..], links, conns, slot, name, 1, slot)
    {
      var l := links[slot].value.(tx := 3, rx := -1);
      Amend(slot, l);
      UniqueLink(links, conns, None, slot, name);
      UnroutedEntry(dests, links, conns, name);
      ghost var was, sent0 := dests, sent;
      Hear(slot, name, 1, 0, me, learned);
      HeardFirst(was, dests, sent0, sent, links, conns, slot, name, 1, 0, me, learned);
    }

    /** The end of admission: unless a route to it is known, the caller joins. */
    method Conclude(cp: nat, name: Name, mine: Option<nat>, learned: bool) returns (v: Verdict)
      requires Valid() && MayJoin(links, conns, place, cp, name) && (mine.Some? ==> IsLink(links, mine.value))
      modifies this`conns, this`links, this`dests, this`sent, this`place, this`nextChain
      ensures Valid() && cp in conns
      ensures v == if RoutedElsewhere(old(dests), name, None) then KnownElsewhere
                   else if SlotFor(old(links), name).None? then TableFull else Accepted
      ensures v == Accepted ==> Established(me, links, conns, dests, cp, name, learned) && links == Welcomed(old(links), name, cp)
      ensures v == Accepted ==> GreetedBy(old(sent), sent, dests, links, conns, cp, name, learned)
      ensures v == Accepted ==> FindLink(links, name) == SlotFor(old(links), name)
      ensures v != Accepted ==> conns[cp].kind == Closed && LinksWithin(old(links), links, old(place), mine)
      ensures v == KnownElsewhere && mine.Some? ==> IsLocked(links, mine.value)
      ensures OnlyThis(old(conns), conns, cp) && RoutesWithin(old(dests), dests, old(place), None, name)
    {
      var over := RouteOver(name);
      if over.Some? && links[over.value].value.conn.Some? {
        TurnDown(cp, mine);
        return KnownElsewhere;
      }
      assert !RoutedElsewhere(dests, name, None) && Unrouted(dests, name);
      v := Admit(cp, name, learned);
    }

    /** A caller that is reached another way goes, and its link is locked. */
    method TurnDown(cp: nat, mine: Option<nat>)
      requires Valid() && cp in conns && conns[cp].kind == Unknown && (mine.Some? ==> IsLink(links, mine.value))
      modifies this`conns, this`links, this`place, this`nextChain
      ensures Valid() && conns == old(conns)[cp := old(conns)[cp].(kind := Closed)] && LinksWithin(old(links), links, old(place), mine)
      ensures mine.Some? ==> IsLocked(links, mine.value)
    {
      Close(cp);
      if mine.Some? {
        assert mine.value in EndsOf(links) && !Apart(place, mine, mine.value);
        Lock(mine.value);
      }
    }

    /** The way of a caller that gave its name: its own link, the chain of that, and the routes. */
    method Enlist(cp: nat, name: Name, learned: bool, now: int) returns (v: Verdict)
      requires Valid() && cp in conns && conns[cp].kind == Unknown && conns[cp].name == name
      requires NoClash(links, cp, name) && name != me
      modifies this`conns, this`links, this`dests, this`sent, this`place, this`nextChain
      ensures Valid() && cp in conns
      ensures v == Admission(me, old(conns), old(links), old(dests), old(place), cp, name, true, true, now)
      ensures v != WrongPassword && v != Refused
      ensures if v == Accepted then Joined(old(Now()), Now(), cp, name, learned)
              else Rejected(old(Now()), Now(), cp, Own(old(links), cp, name), name, v)
    {
      ghost var a := Now();
      var mine := FindSelf(cp, name);
      SearchedRoutes(a.conns, a.links, a.dests, conns, links, dests, cp, name, mine);
      SearchedRoom(a.conns, a.links, a.dests, conns, links, dests, cp, name, mine);
      v := Question(cp, name, mine, now, a);
      if v == Accepted {
        ghost var m := Now();
        v := Conclude(cp, name, mine, learned);
        if v == Accepted {
          JoinedAfter(a, m, Now(), cp, name, mine, learned);
        } else {
          RejectedAfter(a, m, Now(), cp, name, mine, v);
        }
      }
    }

    /** After the search the chain of the caller's link is asked, unless it was a reconnect. `a` is the state before the search. */
    method Question(cp: nat, name: Name, mine: Option<nat>, now: int, ghost a: Snapshot) returns (v: Verdict)
      requires Valid() && cp in conns && conns[cp].kind == Unknown && conns[cp].name == name
      requires LinksOk(a.links, a.conns, None) && OneLive(a.links, a.conns, place) && NoClash(a.links, cp, name)
      requires cp in a.conns && a.conns[cp].kind == Unknown && a.place == place && (mine.Some? ==> sent == a.sent)
      requires Searched(a.conns, a.links, a.dests, conns, links, dests, cp, name, mine)
      modifies this`conns, this`links, this`dests, this`sent, this`place, this`nextChain
      ensures Valid() && place == old(place) && cp in conns
      ensures var own := Own(a.links, cp, name);
              v == if own.Some? && !Live(a.links, a.conns, own.value) then ChainVerdict(a.links, a.conns, place, own.value, now)
                   else Accepted
      ensures v == Accepted || v == Locked || v == Outranked || v == Reorganised
      ensures v != Accepted ==> Rejected(a, Now(), cp, Own(a.links, cp, name), name, v)
      ensures v == Accepted ==> conns == old(conns) && links == old(links) && dests == old(dests) && sent == old(sent) &&
                                MayJoin(links, conns, place, cp, name)
    {
      v := Accepted;
      if mine.Some? {
        v := Interview(cp, name, mine.value, now, a);
      }
      if v == Accepted {
        SearchedMayJoin(a.conns, a.links, a.dests, conns, links, dests, place, cp, name, mine);
      }
    }

    /** The chain of the caller's link is asked; the search has given that link the caller's name, and no more. */
    method Interview(cp: nat, name: Name, mine: nat, now: int, ghost a: Snapshot) returns (v: Verdict)
      requires Valid() && cp in conns && conns[cp].kind == Unknown && conns[cp].name == name
      requires IsLink(a.links, mine) && links == a.links[mine := Some(a.links[mine].value.(name := name))] && !Live(links, conns, mine)
      requires conns == a.conns && dests == a.dests && sent == a.sent && place == a.place
      modifies this`conns, this`links, this`dests, this`sent, this`place, this`nextChain
      ensures Valid() && place == old(place) && cp in conns && v == ChainVerdict(a.links, a.conns, a.place, mine, now)
      ensures v == Accepted || v == Locked || v == Outranked || v == Reorganised
      ensures v != Accepted ==> Rejected(a, Now(), cp, Some(mine), name, v)
      ensures v == Accepted ==> conns == old(conns) && links == old(links) && dests == old(dests) && sent == old(sent) &&
                                OthersDead(links, conns, place, mine)
    {
      ghost var m := Now();
      VerdictSame(a.links, conns, links, place, mine, name, now);
      assert mine in EndsOf(links) && SameChain(place, mine, mine);
      v := CheckChain(cp, mine, now);
      if v != Accepted {
        RejectedRenamed(a, m, Now(), cp, mine, name, v);
      }
    }

    /** The HOST command of a connection that calls itself `name`; `learned` if its revision is a dash. */
    method HostCommand(cp: nat, name: Name, allowed: bool, authentic: bool, learned: bool, now: int) returns (v: Verdict)
      requires Valid() && cp in conns && NoClash(links, cp, name)
      modifies this`conns, this`links, this`dests, this`sent, this`place, this`nextChain
      ensures Valid() && HostEffect(old(Now()), Now(), cp, HostLine(name, allowed, authentic, learned), now)
      ensures v == Admission(me, old(conns), old(links), old(dests), old(place), cp, name, allowed, authentic, now)
    {
      if !allowed || name == me || conns[cp].kind != Unknown {
        return Refused;
      }
      v := Identify(cp, name, authentic, learned, now);
    }

    /** A caller that may come gives its name and password. */
    method Identify(cp: nat, name: Name, authentic: bool, learned: bool, now: int) returns (v: Verdict)
      requires Valid() && cp in conns && conns[cp].kind == Unknown && NoClash(links, cp, name) && name != me
      modifies this`conns, this`links, this`dests, this`sent, this`place, this`nextChain
      ensures Valid() && HostEffect(old(Now()), Now(), cp, HostLine(name, true, authentic, learned), now)
      ensures v == Admission(me, old(conns), old(links), old(dests), old(place), cp, name, true, authentic, now)
    {
      ghost var was := conns;
      SetName(cp, name);
      if authentic {
        v := NamedHost(cp, name, learned, now, was);
      } else {
        v := WrongPassword;
      }
    }

    /** A caller that may come has given its name; `was` are the connections before that. */
    method NamedHost(cp: nat, name: Name, learned: bool, now: int, ghost was: Conns) returns (v: Verdict)
      requires Valid() && cp in was && was[cp].kind == Unknown && conns == was[cp := was[cp].(name := name)]
      requires NoClash(links, cp, name) && name != me
      modifies this`conns, this`links, this`dests, this`sent, this`place, this`nextChain
      ensures Valid() && HostEffect(old(Now()).(conns := was), Now(), cp, HostLine(name, true, true, learned), now)
      ensures v == Admission(me, was, old(links), old(dests), old(place), cp, name, true, true, now)
    {
      ghost var m := Now();
      v := Enlist(cp, name, learned, now);
      NamedShows(m.(conns := was), m, Now(), cp, name, learned, now);
    }

    // -------------------------------------------------------------- users and loops

    /** The answer to a loop: the link is locked and its connection closed. */
    method LoopHandler(cp: nat)
      requires Valid() && cp in conns && conns[cp].kind == Host
      modifies this`conns, this`links, this`dests, this`sent, this`place, this`nextChain
      ensures Valid() && place == old(place) && conns == CloseOver(old(conns), cp)
      ensures NeighbourGone(old(Now()), Now(), cp, true)
    {
      HolderIsOwn(links, conns, cp);
      var p := FindLink(links, conns[cp].name);
      ghost var was, mid, conns0, sent0 := links, links[p.value := Some(links[p.value].value.(locked := true))], conns, sent;
      Lock(p.value);
      UniqueLink(links, conns, None, p.value, conns[cp].name);
      CloseOverClosed(conns, cp);
      RelinkLoses(links, conns[cp].name, p.value, was, true);
      Bye(cp, None);
      NewsOfLoss(sent0, sent, old(dests), was, mid, conns0, cp, p.value);
    }

    /** A neighbour goes. */
    method Dismiss(cp: nat)
      requires Valid() && cp in conns && conns[cp].kind == Host
      modifies this`conns, this`links, this`dests, this`sent, this`place, this`nextChain
      ensures Valid() && conns == CloseOver(old(conns), cp) && NeighbourGone(old(Now()), Now(), cp, false)
      ensures links == Relink(old(links), old(conns)[cp].name, None, false)
    {
      HolderIsOwn(links, conns, cp);
      var p := FindLink(links, conns[cp].name);
      CloseOverClosed(conns, cp);
      RelinkLoses(links, conns[cp].name, p.value, links, false);
      ghost var was, conns0, sent0 := links, conns, sent;
      Bye(cp, None);
      NewsOfLoss(sent0, sent, old(dests), was, was, conns0, cp, p.value);
    }

    /** Looks for a user of `host` that did not come over `cp`. */
    method FindStray(cp: nat, host: Name) returns (found: bool)
      ensures found <==> Strays(conns, cp, host)
    {
      var todo := conns.Keys;
      while todo != {}
        invariant todo <= conns.Keys
        invariant forall c :: c in conns && c !in todo ==>
                    !(conns[c].kind == User && conns[c].via != Some(cp) && conns[c].host == host)
        decreases |todo|
      {
        var c :| c in todo;
        if conns[c].kind == User && conns[c].via != Some(cp) && conns[c].host == host {
          return true;
        }
        todo := todo - {c};
      }
      found := false;
    }

    /** The loop check of a sign-on over `cp`. A host that was not known as a destination is learned. */
    method CheckHost(cp: nat, host: Name, learn: bool) returns (ok: bool)
      requires Valid() && cp in conns && conns[cp].kind == Host
      modifies this`conns, this`links, this`dests, this`sent, this`place, this`nextChain
      ensures Valid()
      ensures ok <==> !Loops(me, old(conns), old(links), old(dests), cp, host)
      ensures ok ==> conns == old(conns) && links == old(links) && place == old(place)
      ensures ok ==> if learn then Learnt(old(Now()), Now(), cp, host) else dests == old(dests) && sent == old(sent)
      ensures !ok ==> NeighbourGone(old(Now()), Now(), cp, true)
    {
      HolderIsOwn(links, conns, cp);
      LoopingMeans(Now(), host, cp);
      var p := FindLink(links, conns[cp].name).value;
      if host == me {
        LoopHandler(cp);
        return false;
      }
      var over := RouteOver(host);
      if over.Some? && links[over.value].value.conn.Some? && links[over.value].value.conn != Some(cp) {
        LoopHandler(cp);
        return false;
      }
      var stray := FindStray(cp, host);
      if stray {
        LoopHandler(cp);
        return false;
      }
      if over.None? && learn {
        Learn(cp, p, host);
      }
      ok := true;
    }

    /** A host is learned from a sign-on. */
    method Learn(cp: nat, p: nat, host: Name)
      requires Valid() && cp in conns && FindHolder(links, cp, 0) == Some(p) && Live(links, conns, p)
      requires !Reached(Now(), host) && !RoutedElsewhere(dests, host, None)
      modifies this`dests, this`sent
      ensures Valid() && Learnt(old(Now()), Now(), cp, host)
    {
      NoRoute(dests, host);
      Hear(p, host, Estimate(links[p].value) + 1, 1, conns[cp].name, true);
    }

    /** Closes the users of `host` that came over `cp`. */
    method CloseLeaving(cp: nat, user: Option<Name>, host: Name)
      requires Valid()
      modifies this`conns
      ensures Valid() && UsersGone(old(conns), conns, Leaving(old(conns), cp, user, host))
    {
      ghost var was := conns;
      CloseEach(cp, user, host);
      UsersGoneOk(me, was, conns, Leaving(was, cp, user, host));
      SameHostsTable(links, was, conns, place, nextChain, dests);
    }

    method CloseEach(cp: nat, user: Option<Name>, host: Name)
      modifies this`conns
      ensures UsersGone(old(conns), conns, Leaving(old(conns), cp, user, host))
    {
      ghost var was := conns;
      var todo := conns.Keys;
      while todo != {}
        invariant conns.Keys == was.Keys && todo <= conns.Keys
        invariant forall c :: c in todo ==> conns[c] == was[c]
        invariant forall c :: c in conns && c !in todo ==>
                    conns[c] == if c in Leaving(was, cp, user, host) then was[c].(kind := Closed) else was[c]
        decreases |todo|
      {
        var c :| c in todo;
        if conns[c].kind == User && conns[c].via == Some(cp) && (user.None? || user == Some(conns[c].name)) &&
           conns[c].host == host
        {
          conns := conns[c := conns[c].(kind := Closed)];
        }
        todo := todo - {c};
      }
    }

    /** A sign-on over `cp`: USER with a new channel only, or NJ. */
    method UserJoin(cp: nat, name: Name, host: Name, time: int, duplicate: bool)
      requires Valid() && cp in conns && conns[cp].kind == Host
      modifies this`conns, this`nextId, this`links, this`dests, this`sent, this`place, this`nextChain
      ensures Valid() && UserEffect(old(Now()), Now(), cp, name, host, time, duplicate)
    {
      LoopingMeans(Now(), host, cp);
      var ok := CheckHost(cp, host, true);
      if !ok || duplicate {
        return;
      }
      AddUser(cp, name, host, time);
    }

    method AddUser(cp: nat, name: Name, host: Name, time: int)
      requires Valid() && cp in conns && conns[cp].kind == Host && host != me && !Strays(conns, cp, host)
      modifies this`conns, this`nextId
      ensures Valid() && conns == old(conns)[old(nextId) := Conn(User, name, host, Some(cp), time)]
    {
      ghost var was := conns;
      JoinPresence(me, conns, nextId, cp, name, host, time);
      conns := conns[nextId := Conn(User, name, host, Some(cp), time)];
      nextId := nextId + 1;
      SameHostsTable(links, was, conns, place, nextChain, dests);
    }

    /** A part over `cp`: USER with an old channel only. `which` is the session on that channel, if there is one. */
    method UserPart(cp: nat, name: Name, host: Name, which: Option<nat>)
      requires Valid() && cp in conns && conns[cp].kind == Host
      requires which.Some? ==> which.value in Leaving(conns, cp, Some(name), host)
      modifies this`conns, this`nextId, this`links, this`dests, this`sent, this`place, this`nextChain
      ensures Valid() && PartEffect(old(Now()), Now(), cp, host, which)
    {
      LoopingMeans(Now(), host, cp);
      var ok := CheckHost(cp, host, false);
      if ok && which.Some? {
        Close(which.value);
      }
    }

    /** SQUIT (without a user) and UQUIT. */
    method Quit(cp: nat, user: Option<Name>, host: Name, accept: bool)
      requires Valid() && cp in conns && conns[cp].kind == Host
      modifies this`conns, this`nextId, this`links, this`dests, this`sent, this`place, this`nextChain
      ensures Valid() && QuitEffect(old(Now()), Now(), cp, user, host, accept)
    {
      if user == Some([]) || host == [] {
        return;
      }
      if (user.None? && host == conns[cp].name) || host == me {
        if user.None? && accept {
          Dismiss(cp);
        }
        return;
      }
      BehindMeans(Now(), host, cp);
      var here := TowardsHere(cp, host);
      if here {
        CloseLeaving(cp, user, host);
      }
    }

    /** Whether `host` is, as far as is known, behind `cp`: by its route, or else by where its users came from. */
    method TowardsHere(cp: nat, host: Name) returns (here: bool)
      requires Valid() && cp in conns && conns[cp].kind == Host
      ensures here <==> Behind(conns, links, dests, cp, host)
    {
      HolderIsOwn(links, conns, cp);
      var over := RouteOver(host);
      if over.Some? && links[over.value].value.conn.Some? {
        return links[over.value].value.conn == Some(cp);
      }
      var c := Newest(host);
      here := c.None? || conns[c.value].via == Some(cp);
    }

    /** The remote connection of `host` that stands first in the list of connections: it is the newest one. */
    method Newest(host: Name) returns (c: Option<nat>)
      ensures c.Some? ==> IsNewest(conns, host, c.value)
      ensures c.None? ==> forall k :: k in conns ==> !(conns[k].via.Some? && conns[k].host == host)
    {
      c := None;
      var todo := conns.Keys;
      while todo != {}
        invariant todo <= conns.Keys
        invariant c.Some? ==> c.value in conns && conns[c.value].via.Some? && conns[c.value].host == host
        invariant forall k :: k in conns && k !in todo && conns[k].via.Some? && conns[k].host == host ==> c.Some? && k <= c.value
        decreases |todo|
      {
        var k :| k in todo;
        if conns[k].via.Some? && conns[k].host == host && (c.None? || c.value < k) {
          c := Some(k);
        }
        todo := todo - {k};
      }
    }

    /** The link a live route to `name` leads over. */
    method RouteOver(name: Name) returns (p: Option<nat>)
      requires RoutesOk(dests, links, conns, None)
      ensures p.Some? ==> Live(links, conns, p.value)
      ensures forall own :: RoutedElsewhere(dests, name, own) <==> p.Some? && p != own
    {
      var d := FindDest(dests, name, 0);
      if d.None? {
        return None;
      }
      assert RouteOk(dests[d.value], links, conns, None);
      p := dests[d.value].link;
      forall i | 0 <= i < |dests| && dests[i].name == name ensures i == d.value {
        SortedUnique(dests, i, d.value);
      }
    }

    // -------------------------------------------------------------- the link table

    /**
     A link line of the configuration. A new name takes a free slot; a link that is there already is added again,
     if there is `room` for one more way to reach it.
     */
    method DoLink(name: Name, primary: Name, room: bool) returns (slot: Option<nat>)
      requires Valid() && LinkLineOk(links, conns, place, name, primary, room)
      modifies this`links, this`dests, this`sent, this`place, this`nextChain
      ensures Valid() && dests == old(dests) && sent == old(sent)
      ensures slot == if FindLink(old(links), name).None? then FindFree(old(links), 0)
                      else if room then FindLink(old(links), name) else None
      ensures slot.None? ==> links == old(links) && place == old(place)
      ensures FindLink(old(links), name).None? && slot.Some? ==> Configures(old(links), links, place, name, primary, slot.value)
      ensures FindLink(old(links), name).Some? && slot.Some? ==>
                links == Readded(old(links), old(place), slot.value, Named(old(links), slot.value, primary))
    {
      slot := FindLink(links, name);
      if slot.None? {
        slot := NewConfigured(name, primary);
      } else if room {
        Reconfigure(slot.value, primary);
      } else {
        slot := None;
      }
    }

    /** A link with a new name; with a primary it goes to the end of that link's chain. */
    method NewConfigured(name: Name, primary: Name) returns (slot: Option<nat>)
      requires Valid() && FindLink(links, name).None?
      modifies this`links, this`dests, this`sent, this`place, this`nextChain
      ensures Valid() && slot == FindFree(old(links), 0) && dests == old(dests) && sent == old(sent)
      ensures slot.None? ==> links == old(links) && place == old(place)
      ensures slot.Some? ==> Configures(old(links), links, place, name, primary, slot.value)
    {
      ghost var was := links;
      slot := UpdatePermlinks(name, None, true, None);
      if slot.None? || primary == [] || primary == name {
        return;
      }
      SameLink(was, links, conns, slot.value, primary);
      var p2 := FindLink(links, primary);
      if p2.Some? {
        MakeBackup(slot.value, p2.value);
      }
    }

    method MakeBackup(p: nat, s: nat)
      requires Valid() && IsLink(links, p) && IsLink(links, s) && p != s && !Live(links, conns, p)
      requires links[p].value.primary.None? && links[p].value.backup.None?
      modifies this`links, this`place
      ensures Valid() && Backs(links, place, p, s) && links[p].value.name == old(links)[p].value.name
      ensures old(links)[s].value.backup.None? ==> links == Linked(old(links), p, s)
    {
      var last := ChainEnd(s);
      PutBehind(p, last);
    }

    /** A link that is there is added again: its two pointers are cleared, and set anew behind the link that is named. */
    method Reconfigure(p: nat, primary: Name)
      requires Valid() && IsLink(links, p)
      requires Readdable(EndsOf(links), place, p, Named(links, p, primary)) && MoveOk(links, conns, place, p, Named(links, p, primary))
      modifies this`links, this`place, this`nextChain
      ensures Valid() && links == Readded(old(links), old(place), p, Named(old(links), p, primary))
    {
      var named := Named(links, p, primary);
      assert p in EndsOf(links) && (named.Some? ==> named.value in EndsOf(links));
      if named.Some? && links[p].value.primary.None? {
        MoveBehind(p, named.value);
      } else {
        ReaddOk(EndsOf(links), place, p, named);
        Rewire(p, named);
      }
    }

    /** The links have new places in their chains. */
    method Adopt(ghost newPlace: map<nat, Place>, ghost newNext: nat)
      requires PresenceOk(me, conns) && (forall c :: c in conns ==> c < nextId) && AllAnnounceOk(sent)
      requires TableOk(links, conns, newPlace, newNext, None) && RoutesOk(dests, links, conns, None)
      modifies this`place, this`nextChain
      ensures Valid() && place == newPlace && nextChain == newNext
    {
      place, nextChain := newPlace, newNext;
    }

    /** A link that stood alone goes to the end of the chain of link `s`. */
    method MoveBehind(p: nat, s: nat)
      requires Valid() && IsLink(links, p) && IsLink(links, s) && p != s
      requires links[p].value.primary.None? && links[p].value.backup.None?
      requires Live(links, conns, p) ==> ChainDead(links, conns, place, s)
      modifies this`links, this`place, this`nextChain
      ensures Valid() && links == Readded(old(links), old(place), p, Some(s))
    {
      ghost var moved := RewireBehind(p, s);
      Adopt(moved, nextChain);
    }

    method RewireBehind(p: nat, s: nat) returns (ghost moved: map<nat, Place>)
      requires TableOk(links, conns, place, nextChain, None) && RoutesOk(dests, links, conns, None)
      requires IsLink(links, p) && IsLink(links, s) && p != s
      requires links[p].value.primary.None? && links[p].value.backup.None?
      requires Live(links, conns, p) ==> ChainDead(links, conns, place, s)
      modifies this`links
      ensures TableOk(links, conns, moved, nextChain, None) && RoutesOk(dests, links, conns, None)
      ensures links == Readded(old(links), place, p, Some(s))
    {
      ReaddTable(links, conns, dests, place, nextChain, p, s);
      moved := PlacedBehind(place, p, PlaceBehind(EndsOf(links), place, s, p));
      Rewire(p, Some(s));
    }

    /** The pointers of a link that is added again. */
    method Rewire(p: nat, named: Option<nat>)
      requires IsLink(links, p) && ChainsOk(EndsOf(links), place)
      requires named.Some? ==> IsLink(links, named.value) && named.value != p
      requires Readdable(EndsOf(links), place, p, named)
      modifies this`links
      ensures links == Readded(old(links), place, p, named)
    {
      ghost var ends := EndsOf(links);
      assert p in ends && (named.Some? ==> named.value in ends);
      ghost var was := links;
      links := links[p := Some(links[p].value.(primary := None, backup := None))];
      if named.Some? {
        PlaceBehindIs(ends, place, named.value, p);
        assert UpOk(ends, p);
        var q := WalkBehind(named.value, p, was);
        links := links[p := Some(links[p].value.(primary := Some(q)))];
        links := links[q := Some(links[q].value.(backup := Some(p)))];
      }
    }

    /** The walk down from `q0`, not past a link whose backup is `p`; `was` is the table before `p` was cleared. */
    method WalkBehind(q0: nat, p: nat, ghost was: Links) returns (q: nat)
      requires ChainsOk(EndsOf(was), place) && IsLink(was, p) && IsLink(was, q0) && q0 != p
      requires links == was[p := Some(was[p].value.(primary := None, backup := None))]
      ensures q0 in EndsOf(was) && p in EndsOf(was) && q == PlaceBehind(EndsOf(was), place, q0, p) && IsLink(was, q)
    {
      ghost var ends := EndsOf(was);
      assert q0 in ends && p in ends;
      q := q0;
      while links[q].value.backup.Some?
        invariant IsLink(was, q) && q in ends && q != p && PlaceBehind(ends, place, q, p) == PlaceBehind(ends, place, q0, p)
        decreases Higher(place, q)
      {
        if links[q].value.backup == Some(p) {
          return;
        }
        WalkDown(ends, place, q);
        q := links[q].value.backup.value;
      }
    }

    /** The end of the chain of link `s`. */
    method ChainEnd(s: nat) returns (last: nat)
      requires ChainsOk(EndsOf(links), place) && IsLink(links, s)
      ensures IsLink(links, last) && links[last].value.backup.None?
      ensures if links[s].value.backup.None? then last == s else links[last].value.primary.Some?
      ensures s in place && last in place && place[last].chain == place[s].chain
    {
      ghost var ends := EndsOf(links);
      assert s in ends;
      last := s;
      while links[last].value.backup.Some?
        invariant IsLink(links, last) && last in ends && last in place && place[last].chain == place[s].chain
        invariant if links[s].value.backup.None? then last == s else last == s || links[last].value.primary.Some?
        decreases Higher(place, last)
      {
        WalkDown(ends, place, last);
        assert DownOk(ends, last);
        last := links[last].value.backup.value;
      }
    }

    method PutBehind(p: nat, last: nat)
      requires Valid() && IsLink(links, p) && IsLink(links, last) && p != last && !Live(links, conns, p)
      requires links[p].value.primary.None? && links[p].value.backup.None? && links[last].value.backup.None? && last in place
      modifies this`links, this`place
      ensures Valid() && links == Linked(old(links), p, last)
      ensures place == PlacedBehind(old(place), p, last)
    {
      LinkedTable(links, conns, dests, place, nextChain, p, last);
      Wire(p, last);
      place := PlacedBehind(place, p, last);
    }

    /** The two pointers between a link and the one it becomes the backup of. */
    method Wire(p: nat, last: nat)
      requires IsLink(links, p) && IsLink(links, last)
      modifies this`links
      ensures links == Linked(old(links), p, last)
    {
      links := links[last := Some(links[last].value.(backup := Some(p)))];
      links := links[p := Some(links[p].value.(primary := Some(last)))];
    }

    /** Takes a link that is not live out of the table and out of its chain. */
    method Unlink(x: nat)
      requires Valid() && IsLink(links, x) && !Live(links, conns, x)
      modifies this`links, this`place
      ensures Valid() && Unlinked(old(links), links, x) && place == old(place) - {x}
    {
      ghost var was := links;
      Splice(x);
      UnlinkedOk(was, links, conns, dests, place, nextChain, x);
      place := place - {x};
    }

    /** The pointers around a link that goes. */
    method Splice(x: nat)
      requires IsLink(links, x) && ChainsOk(EndsOf(links), place)
      modifies this`links
      ensures Unlinked(old(links), links, x)
    {
      ghost var ends := EndsOf(links);
      assert UpOk(ends, x) && DownOk(ends, x);
      NotOwnNeighbour(ends, place, x);
      var up, down := links[x].value.primary, links[x].value.backup;
      if up.Some? {
        links := links[up.value := Some(links[up.value].value.(backup := down))];
      }
      if down.Some? {
        links := links[down.value := Some(links[down.value].value.(primary := up))];
      }
      links := links[x := None];
    }

    /** An operator deletes link `name`. */
    method DeleteLink(name: Name) returns (found: bool)
      requires Valid()
      modifies this`conns, this`links, this`dests, this`sent, this`place, this`nextChain
      ensures Valid() && found == FindLink(old(links), name).Some? && DeletedEffect(old(Now()), Now(), name)
    {
      var p := FindLink(links, name);
      if p.None? {
        return false;
      }
      UniqueLink(links, conns, None, p.value, name);
      DropLive(p.value);
      Unlink(p.value);
      found := true;
    }

    /**
     An operator sets link `name` anew: the old one is cut off from its neighbours, its connection closed and its
     slot cleared, and then it is configured afresh. (Closing reads no chain, so here it comes first.)
     */
    method ReplaceLink(name: Name, primary: Name) returns (slot: Option<nat>)
      requires Valid()
      modifies this`conns, this`links, this`dests, this`sent, this`place, this`nextChain
      ensures Valid() && ReplacedEffect(old(Now()), Now(), name, primary)
      ensures slot.Some? ==> IsLink(links, slot.value) && links[slot.value].value.name == name
      ensures FindLink(old(links), name).Some? ==> slot.Some?
    {
      var p := FindLink(links, name);
      if p.Some? {
        UniqueLink(links, conns, None, p.value, name);
        DropLive(p.value);
        Discard(p.value, name);
      }
      ghost var mid := links;
      slot := NewConfigured(name, primary);
      assert Replaces(old(Now()), Now(), name, primary, mid);
    }

    /** Cuts off and drops a link that is not live. */
    method Discard(x: nat, name: Name)
      requires Valid() && IsLink(links, x) && !Live(links, conns, x) && links[x].value.name == name
      modifies this`links, this`place, this`nextChain
      ensures Valid() && Severed(old(links), links, x) && FindLink(links, name).None? && FindFree(links, 0).Some?
    {
      ghost var was := links;
      CutOff(x);
      SeveredName(was, links, conns, x);
      SeveredTable(was, links, conns, dests, place, nextChain, x);
      Adopt(SeveredPlace(place, x, nextChain), nextChain + 1);
    }

    /** Goes through the table and clears every pointer to link `x`, and then its slot. */
    method CutOff(x: nat)
      requires IsLink(links, x)
      modifies this`links
      ensures Severed(old(links), links, x)
    {
      ghost var was := links;
      for s := 0 to |links|
        invariant |links| == |was|
        invariant forall t :: s <= t < |links| ==> links[t] == was[t]
        invariant forall t :: 0 <= t < s && t != x ==> links[t] == SeveredAt(was, x, t)
        invariant IsLink(links, x)
      {
        if links[s].Some? {
          var l := links[s].value;
          links := links[s := Some(l.(primary := if l.primary == Some(x) then None else l.primary,
                                      backup := if l.backup == Some(x) then None else l.backup))];
        }
      }
      links := links[x := None];
    }

    /** Closes the connection of a link, if it is live. */
    method DropLive(p: nat)
      requires Valid() && IsLink(links, p)
      modifies this`conns, this`links, this`dests, this`sent, this`place, this`nextChain
      ensures Valid() && IsLink(links, p) && !Live(links, conns, p)
      ensures conns == DroppedConns(old(links), old(conns), p) && links == DroppedLinks(old(links), old(conns), p)
      ensures Dropped(old(Now()), Now(), p)
    {
      var c := links[p].value.conn;
      assert LinkOk(links[p].value, conns);
      UniqueLink(links, conns, None, p, links[p].value.name);
      if c.Some? && conns[c.value].kind == Host {
        HolderIsOwn(links, conns, c.value);
        Dismiss(c.value);
      }
    }

    /** The periodic work on a link without a connection: a lock that is over, an unused link that was not configured. */
    method ExpireLink(s: nat, lockOver: bool, unused: bool)
      requires Valid() && IsLink(links, s) && links[s].value.conn.None?
      requires Expires(links[s].value, lockOver, unused) ==> links[s].value.primary.None? && links[s].value.backup.None?
      modifies this`links, this`place, this`nextChain
      ensures Valid()
      ensures var l := old(links)[s].value;
              if Expires(l, lockOver, unused)
              then links == old(links)[s := None]
              else links == old(links)[s := Some(l.(locked := l.locked && !lockOver))]
    {
      if links[s].value.locked && lockOver {
        Amend(s, links[s].value.(locked := false));
      }
      if !links[s].value.permanent && !links[s].value.locked && unused {
        Forget(s);
      }
    }

    /** Drops a link that has no neighbour in a chain. */
    method Forget(s: nat)
      requires Valid() && IsLink(links, s) && links[s].value.conn.None?
      requires links[s].value.primary.None? && links[s].value.backup.None?
      modifies this`links, this`place
      ensures Valid() && links == old(links)[s := None] && place == old(place) - {s}
    {
      ghost var after := links[s := None];
      forall t | 0 <= t < |links| ensures after[t] == UnlinkedAt(links, s, t) {
      }
      UnlinkedOk(links, after, conns, dests, place, nextChain, s);
      links, place := links[s := None], place - {s};
    }

    /** A neighbour that did not answer: its times are unknown, and the routes over it die. */
    method LinkTimeout(s: nat)
      requires Valid() && Live(links, conns, s)
      modifies this`links, this`dests, this`sent, this`place, this`nextChain
      ensures Valid() && conns == old(conns)
      ensures SilentEffect(old(Now()), Now(), s)
    {
      ghost var a := Now();
      Forsake(s);
      SilentShows(a, Now(), s);
    }

    method Forsake(s: nat)
      requires Valid() && Live(links, conns, s)
      modifies this`links, this`dests, this`sent, this`place, this`nextChain
      ensures Valid() && links == old(links)[s := Some(old(links)[s].value.(rx := 0, tx := 0))] && dests == Bereft(old(dests), s)
      ensures Grieved(old(sent), sent, old(dests), links, conns, Some(s))
    {
      Amend(s, links[s].value.(rx := 0, tx := 0));
      DropRoutes(s, None);
    }

    // -------------------------------------------------------------- reports from neighbours

    /** A DEST command: a route to our own host, or to one that is reached another way, is a loop. */
    method DestCommand(cp: nat, name: Name, rtt: int, hops: int, neighbour: Name, learned: bool)
      requires Valid() && cp in conns && conns[cp].kind == Host && rtt >= 0
      modifies this`conns, this`links, this`dests, this`sent, this`place, this`nextChain
      ensures Valid() && DestEffect(old(Now()), Now(), cp, name, rtt, hops, neighbour, learned)
    {
      HolderIsOwn(links, conns, cp);
      ReachedMeans(Now(), name, cp);
      var l := FindHolder(links, cp, 0).value;
      var over := RouteOver(name);
      if name == me || (over.Some? && links[over.value].value.conn != Some(cp)) {
        LoopHandler(cp);
        return;
      }
      assert !RoutedElsewhere(dests, name, Some(l));
      var at := FindDest(dests, name, 0);
      var detail := RouteDetail(if at.Some? then Some(dests[at.value]) else None, conns[cp].name, rtt, hops, neighbour);
      Hear(l, name, rtt, detail.0, detail.1, learned);
    }

    /** A PONG: the neighbour's own time, and the time since it was asked. The route to it gets a new rtt. */
    method PongCommand(cp: nat, reported: int, elapsed: int, learned: bool)
      requires Valid() && cp in conns && conns[cp].kind == Host
      modifies this`links, this`dests, this`sent, this`place, this`nextChain
      ensures Valid() && PongEffect(old(Now()), Now(), cp, reported, elapsed, learned)
    {
      HolderIsOwn(links, conns, cp);
      var s := FindHolder(links, cp, 0).value;
      assert LinkOk(links[s].value, conns);
      Pong(cp, s, reported, elapsed, learned);
    }

    method Pong(cp: nat, s: nat, reported: int, elapsed: int, learned: bool)
      requires Valid() && Live(links, conns, s) && FindHolder(links, cp, 0) == Some(s) && links[s].value.tx >= 0
      modifies this`links, this`dests, this`sent, this`place, this`nextChain
      ensures Valid() && PongEffect(old(Now()), Now(), cp, reported, elapsed, learned)
    {
      ghost var a := Now();
      Retime(s, Ponged(links[s].value, reported, elapsed), learned);
      PongShows(a, Now(), cp, s, reported, elapsed, learned);
    }

    /** New times for a live link, and a new rtt for the neighbour. */
    method Retime(s: nat, l: Link, learned: bool)
      requires Valid() && Live(links, conns, s) && l.tx >= 1 && l.rx >= 1
      requires l == links[s].value.(tx := l.tx, rx := l.rx)
      modifies this`links, this`dests, this`sent, this`place, this`nextChain
      ensures Valid() && Retimed(old(Now()), Now(), s, l, learned)
    {
      ghost var a := Now();
      Amend(s, l);
      Hear(s, l.name, (l.tx + l.rx) / 2, 0, me, learned);
      RetimedNow(a, Now(), s, l, learned);
    }

    // -------------------------------------------------------------- connections

    /** Somebody connects to us. */
    method Connect(now: int) returns (id: nat)
      requires Valid()
      modifies this`conns, this`nextId
      ensures Valid() && id == old(nextId) && nextId == id + 1 && id !in old(conns)
      ensures conns == old(conns)[id := Conn(Unknown, [], [], None, now)]
    {
      ghost var was := conns;
      id := nextId;
      ConnectOk(me, conns, id, now);
      conns := conns[id := Conn(Unknown, [], [], None, now)];
      nextId := nextId + 1;
      SameHostsTable(links, was, conns, place, nextChain, dests);
    }

    /** We call the host of a link that has no connection. */
    method Call(s: nat, now: int)
      requires Valid() && IsLink(links, s) && links[s].value.conn.None? && !links[s].value.locked
      modifies this`conns, this`nextId, this`links, this`place, this`nextChain
      ensures Valid() && conns == old(conns)[old(nextId) := Conn(Unknown, [], [], None, now)]
      ensures links == old(links)[s := Some(old(links)[s].value.(conn := Some(old(nextId))))]
    {
      forall t | IsLink(links, t) ensures links[t].value.conn != Some(nextId) {
        assert LinkOk(links[t].value, conns);
      }
      var id := Connect(now);
      Store(s, links[s].value.(conn := Some(id)), None);
    }

    /** A local user signs on. */
    method Login(cp: nat, name: Name)
      requires Valid() && cp in conns && conns[cp].kind == Unknown
      modifies this`conns
      ensures Valid() && conns == old(conns)[cp := old(conns)[cp].(kind := User, name := name, host := me)]
    {
      ghost var was := conns;
      LoginOk(me, conns, cp, name);
      conns := conns[cp := conns[cp].(kind := User, name := name, host := me)];
      SameHostsTable(links, was, conns, place, nextChain, dests);
    }

    /** Frees a connection that is closed, or an outgoing call. */
    method Free(c: nat)
      requires Valid() && c in conns && (conns[c].kind == Closed || conns[c].kind == Unknown)
      modifies this`conns, this`links, this`place, this`nextChain
      ensures Valid() && conns == old(conns) - {c} && Freed(old(links), links, c)
    {
      Detach(c);
      DropConnOk(me, links, conns, place, dests, c);
      conns := conns - {c};
    }

    /** Takes connection `c` from the link that holds it. */
    method Detach(c: nat)
      requires Valid() && c in conns && conns[c].kind != Host
      modifies this`links, this`place, this`nextChain
      ensures Valid() && Freed(old(links), links, c) && !Attached(links, c)
    {
      var s := FindHolder(links, c, 0);
      if s.Some? {
        assert LinkOk(links[s.value].value, conns);
        assert forall t :: IsLink(links, t) && t != s.value ==> links[t].value.conn != Some(c);
        Store(s.value, links[s.value].value.(conn := None), None);
      }
    }

    /** The sweep that frees closed connections. No live user is left without the neighbour it came over. */
    method FreeClosed(late: set<nat>)
      requires Valid()
      modifies this`conns, this`links, this`place, this`nextChain
      ensures Valid() && conns == old(conns) - Swept(old(links), old(conns), late) && LinksFreed(old(links), links, conns)
    {
      NoneFreed(links, conns);
      ghost var links0, conns0 := links, conns;
      var todo := conns.Keys;
      while todo != {}
        invariant Valid() && Sweeping(links0, conns0, links, conns, late, todo)
        decreases |todo|
      {
        var c :| c in todo;
        ghost var links1, conns1 := links, conns;
        Sweep(c, late);
        SweepStep(links0, conns0, links1, conns1, links, conns, late, todo, c);
        todo := todo - {c};
      }
      assert conns == conns0 - Swept(links0, conns0, late);
    }

    /** One connection of the sweep. */
    method Sweep(c: nat, late: set<nat>)
      requires Valid() && c in conns
      modifies this`conns, this`links, this`place, this`nextChain
      ensures Valid()
      ensures conns == if c in Swept(old(links), old(conns), late) then old(conns) - {c} else old(conns)
      ensures forall k: nat :: k != c ==> (Attached(links, k) <==> Attached(old(links), k))
      ensures if c in Swept(old(links), old(conns), late) then Freed(old(links), links, c) else links == old(links)
    {
      if conns[c].kind == Closed || (conns[c].kind == Unknown && c in late && Attached(links, c)) {
        ghost var was := links;
        Free(c);
        FreedAttached(was, links, c);
      }
    }

    /** The sweep over the destinations: dead entries go, and learned ones whose time is up are announced dead first. */
    method ExpireDests(stale: set<Name>)
      requires Valid()
      modifies this`dests, this`sent
      ensures Valid() && AgingEffect(old(Now()), Now(), stale)
    {
      ghost var a := Now();
      Age(stale);
      AgedShows(a, Now(), stale);
    }

    method Age(stale: set<Name>)
      requires Valid()
      modifies this`dests, this`sent
      ensures Valid() && AgedSince(old(dests), dests, old(sent), sent, links, conns, |dests|, stale)
    {
      ghost var was, sent0 := dests, sent;
      var i := 0;
      NoneAged(was, sent0, links, conns, stale);
      while i < |dests|
        invariant Valid() && i <= |dests| && AgedSince(was, dests, sent0, sent, links, conns, i, stale)
        decreases |dests| - i
      {
        if Fresh(dests[i], stale) {
          AgedKept(was, dests, sent[|sent0|..], links, conns, i, stale);
          i := i + 1;
        } else {
          DropAged(i, was, sent0, stale);
        }
      }
    }

    method DropAged(i: nat, ghost was: seq<Dest>, ghost sent0: seq<Announce>, stale: set<Name>)
      requires Valid() && i < |dests| && AgedSince(was, dests, sent0, sent, links, conns, i, stale) && !Fresh(dests[i], stale)
      modifies this`dests, this`sent
      ensures Valid() && |dests| == |old(dests)| - 1 && AgedSince(was, dests, sent0, sent, links, conns, i, stale)
    {
      ghost var before, sent1 := dests, sent;
      ghost var more := DropDest(i);
      AgedOn(was, before, sent0, sent1, more, links, conns, i, stale);
    }

    /** Drops an entry; the neighbours hear of it if it was alive. */
    method DropDest(i: nat) returns (ghost news: seq<Announce>)
      requires Valid() && i < |dests|
      modifies this`dests, this`sent
      ensures Valid() && dests == old(dests)[..i] + old(dests)[i + 1..] && sent == old(sent) + news
      ensures var d := old(dests)[i];
              if d.learned && d.link.Some? then ToldRight(news, links, conns, d.link.value, d.name, 0, d.link.value) else news == []
    {
      var d := dests[i];
      FindAt(dests, i);
      if d.learned && d.link.Some? {
        assert RouteOk(d, links, conns, None);
        ghost var was, sent0 := dests, sent;
        UpdateDestinations(d.link.value, d.name, 0, 0, me, false, None);
        AnnouncedPlain(sent0, sent, was, links, conns, d.link.value, d.name, 0, d.lastSent, d.link.value);
      }
      news := sent[|old(sent)|..];
      DropRoutesOk(dests, i, links, conns);
      dests := dests[..i] + dests[i + 1..];
    }

    // -------------------------------------------------------------- runs

    constructor (name: Name, slots: nat)
      ensures me == name && Valid() && conns == map[] && dests == [] && sent == []
      ensures |links| == slots && (forall s :: 0 <= s < slots ==> links[s].None?) && nextId == 0 && log == []
    {
      me := name;
      conns := map[];
      links := seq(slots, _ => None);
      dests := [];
      sent := [];
      nextId := 0;
      place := map[];
      nextChain := 0;
      log := [];
    }

    /**
     What is taken for granted of an event: times on the wire are not negative, a host that we called does not
     answer with the name of another link, a link line does not break a chain or put a live link behind a live one,
     and a link that expires has no neighbour in a chain.
     */
    ghost predicate Admissible(e: Event)
      reads this
    {
      match e
      case Line(cp, HostLine(name, _, _, _), _) => NoClash(links, cp, name)
      case Line(cp, DestLine(_, rtt, _, _, _), _) => rtt >= 0
      case Line(cp, PartLine(user, host, which), _) =>
        which.Some? ==> which.value in Leaving(conns, cp, Some(user), host)
      case Configured(name, primary, room) => LinkLineOk(links, conns, place, name, primary, room)
      case Idle(slot, lockOver, unused) => ExpiryOk(links, slot, lockOver, unused)
      case _ => true
    }

    /** Finds out whether an event is admissible. */
    method Check(e: Event) returns (ok: bool)
      requires Valid()
      ensures ok <==> Admissible(e)
    {
      match e
      case Line(cp, HostLine(name, _, _, _), _) => ok := NoClash(links, cp, name);
      case Line(cp, DestLine(_, rtt, _, _, _), _) => ok := rtt >= 0;
      case Line(cp, PartLine(user, host, which), _) => ok := which.Some? ==> which.value in Leaving(conns, cp, Some(user), host);
      case Configured(name, primary, room) => ok := CheckLinkLine(name, primary, room);
      case Idle(slot, lockOver, unused) => ok := ExpiryOk(links, slot, lockOver, unused);
      case _ => ok := true;
    }

    /** Whether a link line is harmless: walks the chains in question. */
    method CheckLinkLine(name: Name, primary: Name, room: bool) returns (ok: bool)
      requires Valid()
      ensures ok <==> LinkLineOk(links, conns, place, name, primary, room)
    {
      var p := FindLink(links, name);
      if p.None? || !room {
        return true;
      }
      var l := links[p.value].value;
      assert p.value in EndsOf(links);
      var named := Named(links, p.value, primary);
      if l.backup.Some? {
        return false;
      }
      if named.None? {
        return l.primary.None?;
      }
      if l.primary.Some? {
        ok := StandsAbove(named.value, p.value);
      } else if Live(links, conns, p.value) {
        ok := IsChainDead(named.value);
      } else {
        ok := true;
      }
    }

    /** Whether link `q` stands above link `p` in its chain. */
    method StandsAbove(q: nat, p: nat) returns (yes: bool)
      requires ChainsOk(EndsOf(links), place) && IsLink(links, q) && IsLink(links, p) && q != p
      ensures yes <==> Below(place, q, p)
    {
      ghost var ends := EndsOf(links);
      assert q in ends && p in ends;
      var at := q;
      while links[at].value.backup.Some?
        invariant IsLink(links, at) && at in ends && at != p && (Below(place, q, p) <==> Below(place, at, p))
        decreases Higher(place, at)
      {
        WalkDown(ends, place, at);
        at := links[at].value.backup.value;
        if at == p {
          return true;
        }
        assert Below(place, q, p) <==> Below(place, at, p);
      }
      WalkEnds(ends, place, at);
      yes := false;
    }

    /** Whether no link of the chain of `s` is live. */
    method IsChainDead(s: nat) returns (yes: bool)
      requires ChainsOk(EndsOf(links), place) && LinksOk(links, conns, None) && IsLink(links, s)
      ensures yes <==> ChainDead(links, conns, place, s)
    {
      assert s in EndsOf(links);
      ChainSplit(EndsOf(links), place, s);
      if Live(links, conns, s) {
        return false;
      }
      var up := LiveUp(s);
      var down := LiveDown(s);
      yes := up.None? && down.None?;
    }

    /** A line from a neighbour. */
    method Obey(cp: nat, command: Command)
      requires Valid() && cp in conns && conns[cp].kind == Host && Admissible(Line(cp, command, 0))
      modifies this`conns, this`nextId, this`links, this`dests, this`sent, this`place, this`nextChain
      ensures Valid() && LineEffect(old(Now()), Now(), cp, command, 0)
    {
      match command
      case UserLine(user, host, time, duplicate) => UserJoin(cp, user, host, time, duplicate);
      case PartLine(user, host, which) => UserPart(cp, user, host, which);
      case QuitLine(who, host, accept) => Quit(cp, who, host, accept);
      case DestLine(name, rtt, hops, neighbour, learned) => DestCommand(cp, name, rtt, hops, neighbour, learned);
      case PongLine(reported, elapsed, learned) => PongCommand(cp, reported, elapsed, learned);
      case _ =>
    }

    /** A line from somebody who has just connected. */
    method Receive(cp: nat, command: Command, now: int)
      requires Valid() && cp in conns && conns[cp].kind == Unknown && Admissible(Line(cp, command, now))
      modifies this`conns, this`nextId, this`links, this`dests, this`sent, this`place, this`nextChain
      ensures Valid() && LineEffect(old(Now()), Now(), cp, command, now)
    {
      match command
      case HostLine(name, allowed, authentic, learned) =>
        var v := HostCommand(cp, name, allowed, authentic, learned, now);
      case NameLine(user) => Login(cp, user);
      case _ =>
    }

    /** Connections that come and go. */
    method Attend(e: Event)
      requires Valid() && (e.Connected? || e.Calling? || e.Lost? || e.Cleaning? || e.Aging?)
      modifies this`conns, this`nextId, this`links, this`dests, this`sent, this`place, this`nextChain
      ensures Valid() && Shows(e, old(Now()), Now())
    {
      match e
      case Connected(now) =>
        var id := Connect(now);
      case Calling(slot, now) =>
        if IsLink(links, slot) && links[slot].value.conn.None? && !links[slot].value.locked {
          Call(slot, now);
        }
      case Lost(cp) =>
        if cp in conns && conns[cp].kind == Host {
          Dismiss(cp);
        } else if cp in conns {
          Close(cp);
        }
      case Cleaning(late) => FreeClosed(late);
      case Aging(stale) => ExpireDests(stale);
    }

    /** Periodic work on the links, and their configuration. */
    method Maintain(e: Event)
      requires Valid() && Admissible(e) && (e.Silent? || e.Idle? || e.Configured? || e.Replaced? || e.Deleted?)
      modifies this`conns, this`nextId, this`links, this`dests, this`sent, this`place, this`nextChain
      ensures Valid() && Shows(e, old(Now()), Now())
    {
      match e
      case Silent(slot) =>
        if Live(links, conns, slot) {
          LinkTimeout(slot);
        }
      case Idle(slot, lockOver, unused) =>
        if IsLink(links, slot) && links[slot].value.conn.None? {
          ExpireLink(slot, lockOver, unused);
        }
      case Configured(name, primary, room) =>
        var slot := DoLink(name, primary, room);
      case Replaced(name, primary) =>
        var slot := ReplaceLink(name, primary);
      case Deleted(name) =>
        var found := DeleteLink(name);
    }

    /** One event. Lines are obeyed according to what the connection is. */
    method Perform(e: Event)
      requires Valid() && Admissible(e)
      modifies this
      ensures Valid() && log == old(log) + [e]
      ensures Shows(e, old(Now()), Now())
    {
      log := log + [e];
      if e.Line? {
        Listen(e.cp, e.command, e.now);
      } else if e.Silent? || e.Idle? || e.Configured? || e.Replaced? || e.Deleted? {
        Maintain(e);
      } else {
        Attend(e);
      }
    }

    /** A line from anybody. */
    method Listen(cp: nat, command: Command, now: int)
      requires Valid() && Admissible(Line(cp, command, now))
      modifies this`conns, this`nextId, this`links, this`dests, this`sent, this`place, this`nextChain
      ensures Valid() && LineEffect(old(Now()), Now(), cp, command, now)
    {
      if cp in conns && conns[cp].kind == Host {
        Obey(cp, command);
      } else if cp in conns && conns[cp].kind == Unknown {
        Receive(cp, command, now);
      }
    }

    /** Every run keeps `Valid`, as far as what happens is admissible, and every event of it shows: `trace` are the states passed through. */
    method Run(events: seq<Event>) returns (done: nat, ghost trace: seq<Snapshot>)
      requires Valid()
      modifies this
      ensures Valid() && done <= |events| && log == old(log) + events[..done]
      ensures done < |events| ==> !Admissible(events[done])
      ensures Traced(events, trace, done) && trace[0] == old(Now()) && trace[done] == Now()
    {
      done, trace := 0, [Now()];
      while done < |events|
        invariant Valid() && done <= |events| && log == old(log) + events[..done]
        invariant Traced(events, trace, done) && trace[0] == old(Now()) && trace[done] == Now()
      {
        var ok := Check(events[done]);
        if !ok {
          return;
        }
        trace := Step(events, done, trace);
        done := done + 1;
      }
    }

    /** One event more. */
    method Step(events: seq<Event>, n: nat, ghost trace: seq<Snapshot>) returns (ghost on: seq<Snapshot>)
      requires Valid() && n < |events| && Admissible(events[n]) && Traced(events, trace, n) && trace[n] == Now()
      modifies this
      ensures Valid() && log == old(log) + [events[n]]
      ensures Traced(events, on, n + 1) && on[0] == trace[0] && on[n + 1] == Now()
    {
      Perform(events[n]);
      TracedOn(events, trace, n, Now());
      on := trace + [Now()];
    }
  }

  /**
   Why the expiry of a link with neighbours is not admissible: a host connects under a name that is not
   configured, a link is configured behind it, and the host is lost. These four events are admissible, and
   the state is valid; but if the link of the host, unused now, is dropped, the primary of the other is gone.
   */
  method ExpiryBreaksChain(me: Name, a: Name, b: Name, now: int) returns (h: Server)
    requires me != a && a != b && a != []
    ensures h.Valid() && h.me == me
    ensures h.log == [Connected(now), Line(0, HostLine(a, true, true, false), now), Configured(b, a, true), Lost(0)]
    ensures |h.links| == 2 && h.links[0].Some? && h.links[0].value.conn.None? && Expires(h.links[0].value, false, true)
    ensures !h.Admissible(Idle(0, false, true)) && !Inverse(EndsOf(h.links[0 := None]))
  {
    h := UnconfiguredHost(me, a, now);
    ghost var two := h.log;
    LinkAndLose(h, h.links[0].value, b);
    assert h.log == two + [Configured(b, a, true), Lost(0)];
    assert !h.Admissible(Idle(0, false, true));
  }

  /** The last two events. */
  method LinkAndLose(h: Server, l: Link, b: Name)
    requires h.Valid() && h.links == [Some(l), None] && l.name != b && l.name != []
    requires !l.permanent && !l.locked && l.primary.None? && l.backup.None?
    requires 0 in h.conns && h.conns[0].kind == Host && h.conns[0].name == l.name
    modifies h
    ensures h.Valid() && h.log == old(h.log) + [Configured(b, l.name, true), Lost(0)]
    ensures |h.links| == 2 && h.links[0].Some? && h.links[0].value.conn.None? && Expires(h.links[0].value, false, true)
    ensures !ExpiryOk(h.links, 0, false, true) && !Inverse(EndsOf(h.links[0 := None]))
  {
    ConfigureBehind(h, l, b);
    LostPrimary(l, NewLink(b, None, true));
    LoseFirst(h, l, NewLink(b, None, true));
  }

  /** The fourth event: the host is lost. */
  method LoseFirst(h: Server, l: Link, m: Link)
    requires h.Valid() && 0 in h.conns && h.conns[0].kind == Host && h.conns[0].name == l.name && l.name != m.name
    requires !l.permanent && !l.locked && l.primary.None? && l.backup.None? && h.links == Linked([Some(l), Some(m)], 1, 0)
    modifies h
    ensures h.Valid() && h.log == old(h.log) + [Lost(0)]
    ensures h.links == [Some(l.(conn := None, backup := Some(1))), Some(m.(primary := Some(0)))]
  {
    LostPrimary(l, m);
    h.Perform(Lost(0));
  }

  /** The first two events: somebody connects and turns out to be a host that is not configured. */
  method UnconfiguredHost(me: Name, a: Name, now: int) returns (h: Server)
    requires me != a
    ensures fresh(h) && h.me == me && h.Valid() && 0 in h.conns && h.conns[0].kind == Host && h.conns[0].name == a
    ensures h.links == [Some(Link(a, Some(0), None, None, false, false, -1, 3)), None]
    ensures h.log == [Connected(now), Line(0, HostLine(a, true, true, false), now)]
  {
    h := Newcomer(me, now);
    ghost var before := h.Now();
    h.Perform(Line(0, HostLine(a, true, true, false), now));
    FirstCaller(before, h.Now(), a, now);
  }

  /** The first event: somebody connects to a host that has just started. */
  method Newcomer(me: Name, now: int) returns (h: Server)
    ensures fresh(h) && h.me == me && h.Valid() && h.links == [None, None] && h.dests == [] && h.log == [Connected(now)]
    ensures h.conns == map[0 := Conn(Unknown, [], [], None, now)]
  {
    h := new Server(me, 2);
    h.Perform(Connected(now));
  }

  /** The third event: a link is configured behind the only one there is. */
  method ConfigureBehind(h: Server, l: Link, b: Name)
    requires h.Valid() && h.links == [Some(l), None] && l.name != b && l.name != [] && l.backup.None?
    modifies h
    ensures h.Valid() && h.conns == old(h.conns) && h.log == old(h.log) + [Configured(b, l.name, true)]
    ensures h.links == Linked([Some(l), Some(NewLink(b, None, true))], 1, 0)
  {
    TwoLinks(h.links, l.name);
    TwoLinks(h.links, b);
    assert h.links[1 := Some(NewLink(b, None, true))] == [Some(l), Some(NewLink(b, None, true))];
    h.Perform(Configured(b, l.name, true));
  }

  /** A link that was not configured, with a configured one behind it, loses its connection and is dropped. */
  lemma {:induction false} LostPrimary(l: Link, m: Link)
    requires l.name != m.name && !l.permanent && !l.locked && l.primary.None? && l.backup.None?
    ensures var after := Relink(Linked([Some(l), Some(m)], 1, 0), l.name, None, false);
            && after == [Some(l.(conn := None, backup := Some(1))), Some(m.(primary := Some(0)))]
            && !Inverse(EndsOf(after[0 := None])) && Expires(after[0].value, false, true) && !ExpiryOk(after, 0, false, true)
  {
    var linked := Linked([Some(l), Some(m)], 1, 0);
    TwoLinks(linked, l.name);
    var after := Relink(linked, l.name, None, false);
    assert !UpOk(EndsOf(after[0 := None]), 1);
  }

  lemma {:induction false} TwoLinks(links: Links, name: Name)
    requires |links| == 2
    ensures FindLink(links, name) == if links[0].Some? && links[0].value.name == name then Some(0)
                                     else if links[1].Some? && links[1].value.name == name then Some(1) else None
    ensures FindFree(links, 0) == if links[0].None? then Some(0) else if links[1].None? then Some(1) else None
  {
    assert FindLinkFrom(links, name, 2).None? && FindFree(links, 2).None?;
    assert FindFree(links, 1) == if links[1].None? then Some(1) else None;
  }
}
