/**
 What writing one slot of the link table does to the parts of the state, on values.
 */
module LinkSteps {
  import opened Common
  import opened ServerState
  import opened Chains

  /** The links: their names and connections, their chains, and one live link per chain. */
  ghost predicate TableOk(links: Links, conns: Conns, place: map<nat, Place>, nextChain: nat, unlinked: Option<nat>) {
    && LinksOk(links, conns, unlinked)
    && ChainsOk(EndsOf(links), place) && (forall s :: s in place ==> place[s].chain < nextChain)
    && OneLive(links, conns, place)
  }

  /** `l` may stand in slot `p`: its name and its connection are its own, and no live connection is lost. */
  ghost predicate Fits(links: Links, conns: Conns, p: nat, l: Link) {
    && p < |links| && LinkOk(l, conns)
    && (forall s :: IsLink(links, s) && s != p ==>
          links[s].value.name != l.name && (l.conn.Some? ==> links[s].value.conn != l.conn))
    && (links[p].Some? && links[p].value.conn != l.conn ==> !Live(links, conns, p))
  }

  predicate SameEnds(links: Links, p: nat, l: Link)
    requires p < |links|
  {
    if links[p].Some? then l.primary == links[p].value.primary && l.backup == links[p].value.backup
    else l.primary.None? && l.backup.None?
  }

  lemma {:induction false} SetLinksOk(links: Links, conns: Conns, unlinked: Option<nat>, p: nat, l: Link)
    requires LinksOk(links, conns, unlinked) && Fits(links, conns, p, l)
    ensures LinksOk(links[p := Some(l)], conns, if l.conn == unlinked then None else unlinked)
  {
    var after := links[p := Some(l)];
    var but := if l.conn == unlinked then None else unlinked;
    forall s | IsLink(after, s) ensures LinkOk(after[s].value, conns) {
      assert s != p ==> IsLink(links, s);
    }
    forall s, t | IsLink(after, s) && IsLink(after, t) && s != t
      ensures after[s].value.name != after[t].value.name
      ensures after[s].value.conn.Some? ==> after[s].value.conn != after[t].value.conn
    {
      assert s != p ==> IsLink(links, s);
      assert t != p ==> IsLink(links, t);
    }
    forall c | c in conns && conns[c].kind == Host && Some(c) != but ensures Attached(after, c) {
      SetLinkAttached(links, conns, unlinked, p, l, c);
    }
  }

  lemma {:induction false} SetLinkAttached(links: Links, conns: Conns, unlinked: Option<nat>, p: nat, l: Link, c: nat)
    requires LinksOk(links, conns, unlinked) && Fits(links, conns, p, l)
    requires c in conns && conns[c].kind == Host && Some(c) != (if l.conn == unlinked then None else unlinked)
    ensures Attached(links[p := Some(l)], c)
  {
    var after := links[p := Some(l)];
    if Some(c) == unlinked {
      assert after[p].value.conn == Some(c);
    } else {
      var s :| 0 <= s < |links| && links[s].Some? && links[s].value.conn == Some(c);
      assert s == p ==> Live(links, conns, p);
      assert after[s].value.conn == Some(c);
    }
  }

  lemma {:induction false} SetOneLive(links: Links, conns: Conns, place: map<nat, Place>, place': map<nat, Place>, p: nat, l: Link)
    requires p < |links| && OneLive(links, conns, place)
    requires forall s :: s in place && s != p ==> s in place' && place'[s] == place[s]
    requires forall s :: s in place' ==> s == p || s in place
    requires Live(links[p := Some(l)], conns, p) ==> OthersDead(links, conns, place', p)
    ensures OneLive(links[p := Some(l)], conns, place')
  {
    var after := links[p := Some(l)];
    forall a, b | Live(after, conns, a) && Live(after, conns, b) && a != b && a in place' && b in place'
      ensures place'[a].chain != place'[b].chain
    {
      assert a != p ==> Live(links, conns, a);
      assert b != p ==> Live(links, conns, b);
    }
  }

  lemma {:induction false} SetRoutesOk(dests: seq<Dest>, links: Links, conns: Conns, p: nat, l: Link)
    requires p < |links| && RoutesOk(dests, links, conns, None)
    requires Live(links, conns, p) ==> Live(links[p := Some(l)], conns, p)
    ensures RoutesOk(dests, links[p := Some(l)], conns, None)
  {
    var after := links[p := Some(l)];
    forall i | 0 <= i < |dests| ensures RouteOk(dests[i], after, conns, None) {
      assert RouteOk(dests[i], links, conns, None);
    }
  }

  lemma {:induction false} SetEnds(links: Links, p: nat, l: Link)
    requires p < |links| && SameEnds(links, p, l)
    ensures EndsOf(links[p := Some(l)]) == if links[p].Some? then EndsOf(links) else Alone(EndsOf(links), p)
  {}

  /** What an update of link `name` puts into its slot fits there. */
  lemma {:induction false} UpdateFits(links: Links, conns: Conns, unlinked: Option<nat>, p: nat, name: Name, cp: Option<nat>, isperm: bool)
    requires LinksOk(links, conns, unlinked) && SlotFor(links, name) == Some(p)
    requires cp.Some? ==> cp.value in conns && conns[cp.value].kind == Host && conns[cp.value].name == name
    requires forall s :: IsLink(links, s) && links[s].value.name != name && cp.Some? ==> links[s].value.conn != cp
    requires Live(links, conns, p) ==> links[p].value.conn == cp
    ensures var l := if links[p].Some? then Relinked(links[p].value, cp, isperm) else NewLink(name, cp, isperm);
            Fits(links, conns, p, l) && SameEnds(links, p, l) && Relink(links, name, cp, isperm) == links[p := Some(l)]
  {
    if links[p].Some? {
      assert IsLink(links, p) && LinkOk(links[p].value, conns);
    }
  }

  /** The places of the links after slot `p` was written. */
  ghost function PlacedAt(links: Links, place: map<nat, Place>, nextChain: nat, p: nat): map<nat, Place>
    requires p < |links|
  {
    if links[p].Some? then place else place[p := Place(nextChain, 0)]
  }

  lemma {:induction false} SetChains(links: Links, place: map<nat, Place>, nextChain: nat, p: nat, l: Link)
    requires p < |links| && SameEnds(links, p, l)
    requires ChainsOk(EndsOf(links), place) && (forall s :: s in place ==> place[s].chain < nextChain)
    ensures ChainsOk(EndsOf(links[p := Some(l)]), PlacedAt(links, place, nextChain, p))
    ensures forall s :: s in PlacedAt(links, place, nextChain, p) ==> PlacedAt(links, place, nextChain, p)[s].chain < nextChain + 1
  {
    SetEnds(links, p, l);
    if links[p].None? {
      AloneOk(EndsOf(links), place, p, nextChain);
    }
  }

  lemma {:induction false} SetTable(links: Links, conns: Conns, dests: seq<Dest>, place: map<nat, Place>, nextChain: nat,
                                    unlinked: Option<nat>, p: nat, l: Link)
    requires TableOk(links, conns, place, nextChain, unlinked) && RoutesOk(dests, links, conns, None)
    requires Fits(links, conns, p, l) && SameEnds(links, p, l)
    requires links[p].Some? && Live(links[p := Some(l)], conns, p) ==> OthersDead(links, conns, place, p)
    ensures TableOk(links[p := Some(l)], conns, PlacedAt(links, place, nextChain, p), nextChain + 1,
                    if l.conn == unlinked then None else unlinked)
    ensures RoutesOk(dests, links[p := Some(l)], conns, None)
  {
    SetLinksOk(links, conns, unlinked, p, l);
    SetRoutesOk(dests, links, conns, p, l);
    SetChains(links, place, nextChain, p, l);
    SetOneLive(links, conns, place, PlacedAt(links, place, nextChain, p), p, l);
  }

  // ---------------------------------------------------------------- connections that change

  /** The same connections are hosts, under the same names. */
  ghost predicate SameHosts(before: Conns, after: Conns) {
    && (forall c :: c in before ==> c in after)
    && (forall c :: c in after && after[c].kind == Host ==>
          c in before && before[c].kind == Host && before[c].name == after[c].name)
    && (forall c :: c in before && before[c].kind == Host ==> after[c].kind == Host)
  }

  lemma {:induction false} SameHostsOk(links: Links, before: Conns, after: Conns, place: map<nat, Place>, dests: seq<Dest>,
                    unlinked: Option<nat>, lost: Option<nat>)
    requires SameHosts(before, after)
    requires LinksOk(links, before, unlinked) && OneLive(links, before, place) && RoutesOk(dests, links, before, lost)
    ensures LinksOk(links, after, unlinked) && OneLive(links, after, place) && RoutesOk(dests, links, after, lost)
  {
    forall s | IsLink(links, s) ensures LinkOk(links[s].value, after) {
      assert LinkOk(links[s].value, before);
    }
    assert forall s :: Live(links, before, s) <==> Live(links, after, s);
    forall i | 0 <= i < |dests| ensures RouteOk(dests[i], links, after, lost) {
      assert RouteOk(dests[i], links, before, lost);
    }
  }

  lemma {:induction false} SameHostsTable(links: Links, before: Conns, after: Conns, place: map<nat, Place>, nextChain: nat, dests: seq<Dest>)
    requires SameHosts(before, after)
    requires TableOk(links, before, place, nextChain, None) && RoutesOk(dests, links, before, None)
    ensures TableOk(links, after, place, nextChain, None) && RoutesOk(dests, links, after, None)
  {
    SameHostsOk(links, before, after, place, dests, None, None);
  }

  /** A host connection is closed: its link, if it has one, is the only one that is lost. */
  lemma {:induction false} LoseHost(links: Links, conns: Conns, place: map<nat, Place>, dests: seq<Dest>, cp: nat,
                 unlinked: Option<nat>, lost: Option<nat>)
    requires LinksOk(links, conns, unlinked) && OneLive(links, conns, place) && RoutesOk(dests, links, conns, None)
    requires cp in conns && conns[cp].kind == Host && (unlinked.Some? ==> unlinked == Some(cp))
    requires forall s :: IsLink(links, s) && links[s].value.conn == Some(cp) ==> lost == Some(s)
    ensures var after := conns[cp := conns[cp].(kind := Closed)];
            LinksOk(links, after, None) && OneLive(links, after, place) && RoutesOk(dests, links, after, lost)
  {
    var after := conns[cp := conns[cp].(kind := Closed)];
    forall s | IsLink(links, s) ensures LinkOk(links[s].value, after) {
      assert LinkOk(links[s].value, conns);
    }
    assert forall s :: Live(links, after, s) ==> Live(links, conns, s);
    forall i | 0 <= i < |dests| ensures RouteOk(dests[i], links, after, lost) {
      assert RouteOk(dests[i], links, conns, None);
    }
  }

  /** The link of a host connection is the one with its name. */
  lemma {:induction false} OwnLink(links: Links, conns: Conns, unlinked: Option<nat>, cp: nat)
    requires LinksOk(links, conns, unlinked) && cp in conns && conns[cp].kind == Host && Some(cp) != unlinked
    ensures FindLink(links, conns[cp].name).Some?
    ensures links[FindLink(links, conns[cp].name).value].value.conn == Some(cp)
  {
    var s :| 0 <= s < |links| && links[s].Some? && links[s].value.conn == Some(cp);
    assert LinkOk(links[s].value, conns);
    var p := FindLink(links, conns[cp].name);
    assert IsLink(links, s) && IsLink(links, p.value);
  }

  /** Losing link `p` and cleaning up after the host of its name cuts exactly the routes over `p`. */
  lemma {:induction false} CleanedCut(before: seq<Dest>, mid: seq<Dest>, after: seq<Dest>, links: Links, conns: Conns, name: Name,
                   p: Option<nat>, links0: Links, conns0: Conns)
    requires LinksOk(links, conns, None) && RoutesOk(mid, links, conns, None) && p == FindLink(links, name)
    requires RoutesOk(before, links0, conns0, None)
    requires mid == if p.Some? then Bereft(before, p.value) else before
    requires |after| == |mid| && forall i :: 0 <= i < |after| ==> after[i] == Cleaned(mid[i], links, conns, name)
    ensures Cut(before, after, p)
  {
    forall i | 0 <= i < |after| ensures CutAt(before[i], after[i], p) {
      assert RouteOk(before[i], links0, conns0, None) && RouteOk(mid[i], links, conns, None);
      if mid[i].link.Some? {
        var q := mid[i].link.value;
        assert LinkOk(links[q].value, conns);
        assert Live(links, conns, q) && Some(q) != p;
        assert p.Some? ==> IsLink(links, p.value);
      }
    }
  }

  lemma {:induction false} RelinkLost(links: Links, name: Name)
    requires SlotFor(links, name).None? || FindLink(links, name).Some?
    ensures FindLink(Relink(links, name, None, false), name).Some? <==> FindLink(links, name).Some?
  {
    var p := FindLink(links, name);
    if p.Some? {
      assert IsLink(Relink(links, name, None, false), p.value);
    }
  }

  lemma {:induction false} UniqueLink(links: Links, conns: Conns, unlinked: Option<nat>, p: nat, name: Name)
    requires LinksOk(links, conns, unlinked) && IsLink(links, p) && links[p].value.name == name
    ensures FindLink(links, name) == Some(p)
  {
    assert IsLink(links, FindLink(links, name).value);
  }

  /** Closing a connection that is not a host's keeps the order of presence. */
  lemma {:induction false} CloseOnePresence(me: Name, conns: Conns, c: nat)
    requires PresenceOk(me, conns) && c in conns && conns[c].kind != Host
    ensures PresenceOk(me, conns[c := conns[c].(kind := Closed)])
  {}

  /** Closing `cp` first and then what came over it: the order in which a host is taken down. */
  lemma {:induction false} CloseOverSteps(me: Name, was: Conns, mid: Conns, after: Conns, cp: nat)
    requires PresenceOk(me, was) && cp in was && mid == was[cp := was[cp].(kind := Closed)]
    requires after.Keys == mid.Keys
    requires forall c :: c in after ==> after[c] == if mid[c].via == Some(cp) then mid[c].(kind := Closed) else mid[c]
    ensures after == CloseOver(was, cp) && SameHosts(mid, after)
    ensures PresenceOk(me, after)
  {
    assert after == CloseOver(was, cp);
    CloseOverPresence(me, was, cp);
  }

  // ---------------------------------------------------------------- admission

  /** A host `name` may come in over `cp`: its link is dead, and so are the others of its chain. */
  ghost predicate MayJoin(links: Links, conns: Conns, place: map<nat, Place>, cp: nat, name: Name) {
    && cp in conns && conns[cp].kind == Unknown && conns[cp].name == name
    && (forall s :: IsLink(links, s) && links[s].value.conn == Some(cp) ==> links[s].value.name == name)
    && (forall s: nat :: IsLink(links, s) && links[s].value.name == name ==>
          !Live(links, conns, s) && OthersDead(links, conns, place, s))
  }

  /** The host has been let in, and its link is about to get the connection. */
  ghost predicate Joining(links: Links, conns: Conns, place: map<nat, Place>, cp: nat, name: Name) {
    && cp in conns && conns[cp].kind == Host && conns[cp].name == name
    && (forall s :: IsLink(links, s) && links[s].value.conn == Some(cp) ==> links[s].value.name == name)
    && (forall s: nat :: IsLink(links, s) && links[s].value.name == name ==>
          && (Live(links, conns, s) ==> links[s].value.conn == Some(cp))
          && OthersDead(links, conns, place, s))
  }

  lemma {:induction false} JoinHost(me: Name, links: Links, conns: Conns, place: map<nat, Place>, dests: seq<Dest>, cp: nat, name: Name)
    requires LinksOk(links, conns, None) && OneLive(links, conns, place) && RoutesOk(dests, links, conns, None)
    requires PresenceOk(me, conns) && MayJoin(links, conns, place, cp, name)
    ensures var after := conns[cp := conns[cp].(kind := Host)];
            && LinksOk(links, after, Some(cp)) && OneLive(links, after, place) && RoutesOk(dests, links, after, None)
            && PresenceOk(me, after) && Joining(links, after, place, cp, name)
  {
    var after := conns[cp := conns[cp].(kind := Host)];
    forall s | IsLink(links, s) ensures LinkOk(links[s].value, after) {
      assert LinkOk(links[s].value, conns);
    }
    assert forall s :: Live(links, after, s) <==> Live(links, conns, s) || (IsLink(links, s) && links[s].value.conn == Some(cp));
    forall s: nat | IsLink(links, s) && links[s].value.name == name ensures OthersDead(links, after, place, s) {
      assert OthersDead(links, conns, place, s);
      assert forall t :: Live(links, after, t) && t != s ==> Live(links, conns, t);
    }
    forall a, b | Live(links, after, a) && Live(links, after, b) && a != b && a in place && b in place
      ensures place[a].chain != place[b].chain
    {
      assert !Live(links, conns, a) ==> OthersDead(links, conns, place, a) && Live(links, conns, b);
      assert !Live(links, conns, b) ==> OthersDead(links, conns, place, b);
    }
    forall i | 0 <= i < |dests| ensures RouteOk(dests[i], links, after, None) {
      assert RouteOk(dests[i], links, conns, None);
    }
  }

  /** How the link of a calling host is left by the search: its old connection gone, or under its new name. */
  ghost predicate Settled(conns0: Conns, links0: Links, dests0: seq<Dest>, conns: Conns, links: Links, dests: seq<Dest>,
                          own: nat, name: Name, mine: Option<nat>)
  {
    && IsLink(links0, own) && IsLink(links, own) && links[own].value.name == name && !Live(links, conns, own)
    && if Live(links0, conns0, own) then
         && mine.None? && conns == CloseOver(conns0, links0[own].value.conn.value)
         && links == links0[own := Some(Relinked(links0[own].value, None, false))]
         && Cut(dests0, dests, Some(own))
       else
         mine == Some(own) && conns == conns0 && dests == dests0 &&
         links == links0[own := Some(links0[own].value.(name := name))]
  }

  /** The search left everything alone, or settled the link of the caller. */
  ghost predicate Searched(conns0: Conns, links0: Links, dests0: seq<Dest>, conns: Conns, links: Links, dests: seq<Dest>,
                           cp: nat, name: Name, mine: Option<nat>)
  {
    var own := Own(links0, cp, name);
    if own.None? then mine.None? && conns == conns0 && links == links0 && dests == dests0
    else Settled(conns0, links0, dests0, conns, links, dests, own.value, name, mine)
  }

  /** What the chain says after the search is what it would have said before it. */
  lemma {:induction false} VerdictSame(links0: Links, conns: Conns, links: Links, place: map<nat, Place>, own: nat, name: Name, now: int)
    requires IsLink(links0, own) && links == links0[own := Some(links0[own].value.(name := name))]
    ensures ChainVerdict(links, conns, place, own, now) == ChainVerdict(links0, conns, place, own, now)
  {
    assert forall s :: Live(links, conns, s) <==> Live(links0, conns, s);
    assert forall s :: Working(links, conns, s, now) <==> Working(links0, conns, s, now);
    assert WorksBelow(links, conns, place, own, now) <==> WorksBelow(links0, conns, place, own, now);
  }

  /** After the search and the question to the chain, the caller may join. */
  lemma {:induction false} SearchedMayJoin(conns0: Conns, links0: Links, dests0: seq<Dest>, conns: Conns, links: Links, dests: seq<Dest>,
                                           place: map<nat, Place>, cp: nat, name: Name, mine: Option<nat>)
    requires LinksOk(links0, conns0, None) && LinksOk(links, conns, None) && OneLive(links0, conns0, place)
    requires place.Keys == EndsOf(links).Keys
    requires NoClash(links0, cp, name) && cp in conns && conns[cp].kind == Unknown && conns[cp].name == name
    requires Searched(conns0, links0, dests0, conns, links, dests, cp, name, mine)
    requires mine.Some? ==> OthersDead(links, conns, place, mine.value)
    ensures MayJoin(links, conns, place, cp, name)
  {
    var own := Own(links0, cp, name);
    forall s | IsLink(links, s) && links[s].value.conn == Some(cp) ensures links[s].value.name == name {
      assert IsLink(links0, s) && links0[s].value.conn == Some(cp);
      assert own.Some? && IsLink(links0, own.value);
    }
    forall s: nat | IsLink(links, s) && links[s].value.name == name
      ensures !Live(links, conns, s) && OthersDead(links, conns, place, s)
    {
      SearchedUnique(conns0, links0, dests0, conns, links, dests, cp, name, mine, s);
      if mine.None? {
        assert forall t :: Live(links, conns, t) ==> Live(links0, conns0, t);
      }
    }
  }

  lemma {:induction false} SearchedUnique(conns0: Conns, links0: Links, dests0: seq<Dest>, conns: Conns, links: Links, dests: seq<Dest>,
                                          cp: nat, name: Name, mine: Option<nat>, s: nat)
    requires LinksOk(links, conns, None) && IsLink(links, s) && links[s].value.name == name
    requires Searched(conns0, links0, dests0, conns, links, dests, cp, name, mine)
    ensures Own(links0, cp, name) == Some(s) && !Live(links, conns, s)
  {
    var own := Own(links0, cp, name);
    if own.Some? {
      assert IsLink(links, own.value);
    }
  }

  /** A live route to the caller after the search is one that did not lead over its own link. */
  lemma {:induction false} SearchedRoutes(conns0: Conns, links0: Links, dests0: seq<Dest>, conns: Conns, links: Links, dests: seq<Dest>,
                                          cp: nat, name: Name, mine: Option<nat>)
    requires RoutesOk(dests0, links0, conns0, None)
    requires Searched(conns0, links0, dests0, conns, links, dests, cp, name, mine)
    ensures RoutedElsewhere(dests0, name, Own(links0, cp, name)) <==> RoutedElsewhere(dests, name, None)
  {
    var own := Own(links0, cp, name);
    if own.Some? && Live(links0, conns0, own.value) {
      assert forall i :: 0 <= i < |dests| ==> CutAt(dests0[i], dests[i], own);
    } else {
      assert forall i :: 0 <= i < |dests| ==> RouteOk(dests0[i], links0, conns0, None);
    }
  }

  /** The search closes nothing but what the caller's own link held. */
  lemma {:induction false} SearchedOnlyChain(conns0: Conns, links0: Links, dests0: seq<Dest>, conns: Conns, links: Links, dests: seq<Dest>,
                                             place: map<nat, Place>, cp: nat, name: Name, mine: Option<nat>)
    requires Searched(conns0, links0, dests0, conns, links, dests, cp, name, mine)
    requires place.Keys == EndsOf(links).Keys
    ensures OnlyChain(conns0, links0, place, Own(links0, cp, name), cp, conns)
  {
    var own := Own(links0, cp, name);
    if own.Some? && Live(links0, conns0, own.value) {
      assert own.value in EndsOf(links);
      CloseOverChain(conns0, links0, place, own.value, cp, own.value);
    }
  }

  /** Nor does it touch other links, or routes over them. */
  lemma {:induction false} SearchedWithin(conns0: Conns, links0: Links, dests0: seq<Dest>, conns: Conns, links: Links, dests: seq<Dest>,
                                          place: map<nat, Place>, cp: nat, name: Name, mine: Option<nat>)
    requires Searched(conns0, links0, dests0, conns, links, dests, cp, name, mine)
    requires place.Keys == EndsOf(links).Keys
    ensures LinksWithin(links0, links, place, Own(links0, cp, name))
    ensures RoutesWithin(dests0, dests, place, Own(links0, cp, name), name)
  {
    var own := Own(links0, cp, name);
    if own.Some? {
      assert own.value in EndsOf(links) && !Apart(place, own, own.value);
      if Live(links0, conns0, own.value) {
        CutWithin(dests0, dests, own, place, own, name);
      }
    }
  }

  /** A caller that is let in after the search has its link where it was before, or in the first free slot. */
  lemma {:induction false} SearchedEnrolled(conns0: Conns, links0: Links, dests0: seq<Dest>, conns: Conns, links: Links, dests: seq<Dest>,
                                            cp: nat, name: Name, mine: Option<nat>)
    requires Searched(conns0, links0, dests0, conns, links, dests, cp, name, mine) && LinksOk(links, conns, None)
    ensures Welcomed(links, name, cp) == Enrolled(links0, cp, name)
    ensures Own(links0, cp, name).Some? ==> SlotFor(links, name) == Own(links0, cp, name)
  {
    var own := Own(links0, cp, name);
    if own.Some? {
      UniqueLink(links, conns, None, own.value, name);
    }
  }

  /** The clean-up for a host that comes in resets no live route. */
  lemma {:induction false} PromoteCut(before: seq<Dest>, after: seq<Dest>, links: Links, conns: Conns, place: map<nat, Place>, cp: nat, name: Name)
    requires LinksOk(links, conns, None) && RoutesOk(before, links, conns, None) && MayJoin(links, conns, place, cp, name)
    requires var promoted := conns[cp := conns[cp].(kind := Host)];
             |after| == |before| && forall i :: 0 <= i < |after| ==> after[i] == Cleaned(before[i], links, promoted, name)
    ensures Cut(before, after, None)
  {
    forall i | 0 <= i < |after| ensures CutAt(before[i], after[i], None) {
      assert RouteOk(before[i], links, conns, None);
      if before[i].link.Some? {
        var q := before[i].link.value;
        assert LinkOk(links[q].value, conns) && IsLink(links, q) && links[q].value.name != name;
      }
    }
  }

  /** Nor is there one over the link it comes in on. */
  lemma {:induction false} JoinCut(before: seq<Dest>, mid: seq<Dest>, links: Links, conns: Conns, slot: nat)
    requires RoutesOk(before, links, conns, None) && Cut(before, mid, None) && !Live(links, conns, slot)
    ensures Cut(before, Bereft(mid, slot), None)
  {
    forall i | 0 <= i < |before| ensures CutAt(before[i], Bereft(mid, slot)[i], None) {
      assert RouteOk(before[i], links, conns, None) && CutAt(before[i], mid[i], None);
    }
  }

  /** If there is no room for its link, no link holds the caller's connection. */
  lemma {:induction false} NotHeld(links: Links, conns: Conns, place: map<nat, Place>, cp: nat, name: Name)
    requires MayJoin(links, conns, place, cp, name)
    ensures SlotFor(links, name).None? ==> !Attached(links, cp)
  {
    if Attached(links, cp) {
      var s :| 0 <= s < |links| && links[s].Some? && links[s].value.conn == Some(cp);
      assert IsLink(links, s);
    }
  }

  /** Nobody came over a connection that is not a host's, save for who has been closed. */
  lemma {:induction false} NobodyOver(me: Name, conns: Conns, cp: nat)
    requires PresenceOk(me, conns) && cp in conns && conns[cp].kind == Unknown
    ensures forall c :: c in conns && conns[c].via == Some(cp) ==> conns[c].kind == Closed
  {}

  lemma {:induction false} SearchedRoom(conns0: Conns, links0: Links, dests0: seq<Dest>, conns: Conns, links: Links, dests: seq<Dest>,
                                        cp: nat, name: Name, mine: Option<nat>)
    requires Searched(conns0, links0, dests0, conns, links, dests, cp, name, mine)
    ensures SlotFor(links, name).None? <==> Own(links0, cp, name).None? && FindFree(links0, 0).None?
  {
    var own := Own(links0, cp, name);
    if own.Some? {
      assert IsLink(links, own.value);
    }
  }

  /** The name a caller gives itself plays no part in its admission. */
  lemma {:induction false} AdmissionNamed(me: Name, conns: Conns, links: Links, dests: seq<Dest>, place: map<nat, Place>,
                                          cp: nat, name: Name, now: int)
    requires cp in conns && conns[cp].kind == Unknown
    ensures Admission(me, conns[cp := conns[cp].(name := name)], links, dests, place, cp, name, true, true, now) ==
            Admission(me, conns, links, dests, place, cp, name, true, true, now)
  {
    var after := conns[cp := conns[cp].(name := name)];
    assert forall s :: Live(links, after, s) <==> Live(links, conns, s);
    assert forall s :: Working(links, after, s, now) <==> Working(links, conns, s, now);
    assert forall s: nat :: WorksBelow(links, after, place, s, now) <==> WorksBelow(links, conns, place, s, now);
  }

  /**
   A link that called a host is given the name the host answers with. Link names stay different exactly
   when no other link bears that name.
   */
  lemma {:induction false} RenameExact(links: Links, conns: Conns, cp: nat, name: Name, s: nat)
    requires LinksOk(links, conns, None) && IsLink(links, s) && links[s].value.conn == Some(cp)
    requires cp in conns && conns[cp].kind == Unknown
    ensures LinksOk(links[s := Some(links[s].value.(name := name))], conns, None) <==> NoClash(links, cp, name)
  {
    var l := links[s].value.(name := name);
    var after := links[s := Some(l)];
    assert LinkOk(links[s].value, conns);
    if NoClash(links, cp, name) {
      SetLinksOk(links, conns, None, s, l);
    } else {
      var h, t :| 0 <= h < |links| && 0 <= t < |links| && links[h].Some? && links[t].Some? &&
                  links[h].value.conn == Some(cp) && links[t].value.name == name && h != t;
      assert IsLink(links, h) && IsLink(links, t);
      assert IsLink(after, s) && IsLink(after, t) && after[s].value.name == after[t].value.name && s != t;
    }
  }

  /** It happens: we call `a` and are answered by `b`, which is another link of ours. */
  lemma {:induction false} WrongAnswer(a: Name, b: Name)
    requires a != b
    ensures var links: Links := [Some(NewLink(a, Some(0), true)), Some(NewLink(b, None, true))];
            var conns: Conns := map[0 := Conn(Unknown, [], [], None, 0)];
            && LinksOk(links, conns, None) && !NoClash(links, 0, b)
            && !LinksOk(links[0 := Some(links[0].value.(name := b))], conns, None)
  {
    var links: Links := [Some(NewLink(a, Some(0), true)), Some(NewLink(b, None, true))];
    var conns: Conns := map[0 := Conn(Unknown, [], [], None, 0)];
    assert links[0].value.conn == Some(0) && links[1].value.name == b;
    RenameExact(links, conns, 0, b, 0);
  }

  // ---------------------------------------------------------------- users

  /** Some users, and nobody else, were closed. */
  ghost predicate UsersGone(before: Conns, after: Conns, gone: set<nat>) {
    && after.Keys == before.Keys
    && (forall c :: c in gone ==> c in before && before[c].kind == User)
    && (forall c :: c in after ==> after[c] == if c in gone then before[c].(kind := Closed) else before[c])
  }

  lemma {:induction false} UsersGoneOk(me: Name, before: Conns, after: Conns, gone: set<nat>)
    requires PresenceOk(me, before) && UsersGone(before, after, gone)
    ensures PresenceOk(me, after) && SameHosts(before, after)
  {}

  /** The users of `host` that came over `cp`; only those called `user`, if a name is given. */
  function Leaving(conns: Conns, cp: nat, user: Option<Name>, host: Name): set<nat> {
    set c | c in conns && conns[c].kind == User && conns[c].via == Some(cp) &&
            (user.None? || user == Some(conns[c].name)) && conns[c].host == host
  }

  /** A user of `host` has come, or is, another way than over `cp`. */
  predicate Strays(conns: Conns, cp: nat, host: Name) {
    exists c :: c in conns && conns[c].kind == User && conns[c].via != Some(cp) && conns[c].host == host
  }

  /** What makes a sign-on, or a report, from neighbour `cp` a loop. */
  ghost predicate Loops(me: Name, conns: Conns, links: Links, dests: seq<Dest>, cp: nat, host: Name) {
    || host == me || Strays(conns, cp, host)
    || RoutedElsewhere(dests, host, FindHolder(links, cp, 0))
  }

  /** Connections are numbered as they come and the list begins with the last: of those of `host`, `c` stands first. */
  ghost predicate IsNewest(conns: Conns, host: Name, c: nat) {
    && c in conns && conns[c].via.Some? && conns[c].host == host
    && forall k :: k in conns && conns[k].via.Some? && conns[k].host == host ==> k <= c
  }

  /** `host` is behind neighbour `cp`: its route leads there, or, without a route, its newest user did not come another way. */
  ghost predicate Behind(conns: Conns, links: Links, dests: seq<Dest>, cp: nat, host: Name) {
    if RoutedElsewhere(dests, host, None) then !RoutedElsewhere(dests, host, FindHolder(links, cp, 0))
    else forall c :: IsNewest(conns, host, c) ==> conns[c].via == Some(cp)
  }

  lemma {:induction false} HolderIsOwn(links: Links, conns: Conns, cp: nat)
    requires LinksOk(links, conns, None) && cp in conns && conns[cp].kind == Host
    ensures FindHolder(links, cp, 0).Some? && FindHolder(links, cp, 0) == FindLink(links, conns[cp].name)
    ensures Live(links, conns, FindHolder(links, cp, 0).value)
  {
    OwnLink(links, conns, None, cp);
    var h, p := FindHolder(links, cp, 0), FindLink(links, conns[cp].name);
    assert IsLink(links, p.value);
    assert h.Some? && IsLink(links, h.value);
  }

  // ---------------------------------------------------------------- connections and slots that go

  lemma {:induction false} DropConnOk(me: Name, links: Links, conns: Conns, place: map<nat, Place>, dests: seq<Dest>, c: nat)
    requires PresenceOk(me, conns) && LinksOk(links, conns, None) && OneLive(links, conns, place)
    requires RoutesOk(dests, links, conns, None)
    requires c in conns && conns[c].kind != Host && !Attached(links, c)
    ensures PresenceOk(me, conns - {c}) && LinksOk(links, conns - {c}, None) && OneLive(links, conns - {c}, place)
    ensures RoutesOk(dests, links, conns - {c}, None)
  {
    var after := conns - {c};
    forall s | IsLink(links, s) ensures LinkOk(links[s].value, after) {
      assert LinkOk(links[s].value, conns);
    }
    assert forall s :: Live(links, conns, s) <==> Live(links, after, s);
    forall i | 0 <= i < |dests| ensures RouteOk(dests[i], links, after, None) {
      assert RouteOk(dests[i], links, conns, None);
    }
  }

  /** `after` is the table with slot `gone` cleared (if any) and other links' places in their chains changed. */
  ghost predicate Rewired(before: Links, after: Links, gone: Option<nat>) {
    && |after| == |before|
    && (forall s :: 0 <= s < |after| ==> RewiredAt(before, after, gone, s))
  }

  predicate RewiredAt(before: Links, after: Links, gone: Option<nat>, s: nat)
    requires s < |before| && s < |after|
  {
    if gone == Some(s) || before[s].None? then after[s].None?
    else after[s].Some? && after[s].value == before[s].value.(primary := after[s].value.primary, backup := after[s].value.backup)
  }

  lemma {:induction false} RewiredOk(before: Links, after: Links, conns: Conns, dests: seq<Dest>, gone: Option<nat>)
    requires Rewired(before, after, gone) && LinksOk(before, conns, None) && RoutesOk(dests, before, conns, None)
    requires gone.Some? ==> !Live(before, conns, gone.value)
    ensures LinksOk(after, conns, None) && RoutesOk(dests, after, conns, None)
    ensures forall s :: Live(before, conns, s) <==> Live(after, conns, s)
  {
    forall s | IsLink(after, s)
      ensures IsLink(before, s) && after[s].value.name == before[s].value.name && after[s].value.conn == before[s].value.conn
      ensures LinkOk(after[s].value, conns)
    {
      assert RewiredAt(before, after, gone, s);
      assert LinkOk(before[s].value, conns);
    }
    forall s ensures Live(before, conns, s) <==> Live(after, conns, s) {
      if IsLink(before, s) {
        assert RewiredAt(before, after, gone, s);
      }
    }
    forall c | c in conns && conns[c].kind == Host ensures Attached(after, c) {
      var s :| 0 <= s < |before| && before[s].Some? && before[s].value.conn == Some(c);
      assert Live(before, conns, s) && RewiredAt(before, after, gone, s);
      assert after[s].value.conn == Some(c);
    }
    forall i | 0 <= i < |dests| ensures RouteOk(dests[i], after, conns, None) {
      assert RouteOk(dests[i], before, conns, None);
    }
  }

  /** Live links keep their chains when places change only for links that are not live. */
  lemma {:induction false} RewiredOneLive(before: Links, after: Links, conns: Conns, place: map<nat, Place>, place': map<nat, Place>)
    requires OneLive(before, conns, place)
    requires forall s :: Live(after, conns, s) ==> Live(before, conns, s)
    requires forall s :: Live(after, conns, s) && s in place' ==> s in place && place'[s] == place[s]
    ensures OneLive(after, conns, place')
  {}

  /** Slot `s` when link `x` is taken out: the neighbours of `x` become each other's. */
  function UnlinkedAt(links: Links, x: nat, s: nat): Option<Link>
    requires IsLink(links, x) && s < |links|
  {
    var up, down := links[x].value.primary, links[x].value.backup;
    if s == x || links[s].None? then None
    else if up == Some(s) then Some(links[s].value.(backup := down))
    else if down == Some(s) then Some(links[s].value.(primary := up))
    else links[s]
  }

  ghost predicate Unlinked(links: Links, after: Links, x: nat) {
    IsLink(links, x) && |after| == |links| && forall s :: 0 <= s < |links| ==> after[s] == UnlinkedAt(links, x, s)
  }

  lemma {:induction false} UnlinkedEnds(links: Links, after: Links, x: nat)
    requires Unlinked(links, after, x) && Inverse(EndsOf(links))
    ensures EndsOf(after) == Remove(EndsOf(links), x)
  {
    var ends := EndsOf(links);
    assert UpOk(ends, x) && DownOk(ends, x);
    assert EndsOf(after).Keys == Remove(ends, x).Keys;
    forall s | s in EndsOf(after) ensures EndsOf(after)[s] == Remove(ends, x)[s] {
      assert ends[s] == Ends(links[s].value.primary, links[s].value.backup);
      assert after[s] == UnlinkedAt(links, x, s);
    }
  }

  lemma {:induction false} UnlinkedRewired(links: Links, after: Links, x: nat)
    requires Unlinked(links, after, x)
    ensures Rewired(links, after, Some(x))
  {
    forall s | 0 <= s < |after| ensures RewiredAt(links, after, Some(x), s) {
      assert after[s] == UnlinkedAt(links, x, s);
    }
  }

  /** Taking out a link that is not live keeps the whole link table in order. */
  lemma {:induction false} UnlinkedOk(links: Links, after: Links, conns: Conns, dests: seq<Dest>, place: map<nat, Place>,
                                      nextChain: nat, x: nat)
    requires Unlinked(links, after, x) && !Live(links, conns, x)
    requires TableOk(links, conns, place, nextChain, None) && RoutesOk(dests, links, conns, None)
    ensures TableOk(after, conns, place - {x}, nextChain, None) && RoutesOk(dests, after, conns, None)
  {
    UnlinkedEnds(links, after, x);
    UnlinkedRewired(links, after, x);
    RewiredOk(links, after, conns, dests, Some(x));
    RemoveOk(EndsOf(links), place, x);
    RewiredOneLive(links, after, conns, place, place - {x});
  }

  /** The table with link `p` put behind link `last`. */
  function Linked(links: Links, p: nat, last: nat): Links
    requires IsLink(links, p) && IsLink(links, last)
  {
    var l := links[last := Some(links[last].value.(backup := Some(p)))];
    l[p := Some(l[p].value.(primary := Some(last)))]
  }

  lemma {:induction false} LinkedOk(links: Links, place: map<nat, Place>, p: nat, last: nat)
    requires IsLink(links, p) && IsLink(links, last) && p != last
    requires ChainsOk(EndsOf(links), place) && EndsOf(links)[p] == Ends(None, None) && EndsOf(links)[last].backup.None?
    ensures Rewired(links, Linked(links, p, last), None)
    ensures ChainsOk(EndsOf(Linked(links, p, last)), PlacedBehind(place, p, last))
  {
    var ends := EndsOf(links);
    ExpireOk(ends, place, p);
    AppendOk(ends - {p}, place - {p}, p, last);
    assert EndsOf(Linked(links, p, last)) == Append(ends - {p}, p, last);
  }

  /** No link of the chain of `s` is live. */
  ghost predicate ChainDead(links: Links, conns: Conns, place: map<nat, Place>, s: nat) {
    forall t :: Live(links, conns, t) && s in place && t in place ==> place[s].chain != place[t].chain
  }

  /** Putting a link at the end of a chain keeps the whole link table in order, if not both are live. */
  lemma {:induction false} LinkedTable(links: Links, conns: Conns, dests: seq<Dest>, place: map<nat, Place>, nextChain: nat, p: nat, last: nat)
    requires IsLink(links, p) && IsLink(links, last) && p != last
    requires Live(links, conns, p) ==> ChainDead(links, conns, place, last)
    requires TableOk(links, conns, place, nextChain, None) && RoutesOk(dests, links, conns, None)
    requires links[p].value.primary.None? && links[p].value.backup.None? && links[last].value.backup.None?
    ensures last in place
    ensures TableOk(Linked(links, p, last), conns, PlacedBehind(place, p, last), nextChain, None)
    ensures RoutesOk(dests, Linked(links, p, last), conns, None)
  {
    assert p in EndsOf(links) && last in EndsOf(links);
    LinkedOk(links, place, p, last);
    RewiredOk(links, Linked(links, p, last), conns, dests, None);
    AloneInChain(EndsOf(links), place, p);
    LinkedOneLive(links, conns, place, p, last);
  }

  /** Exactly then: a live link put behind a chain with another live link makes two. */
  lemma {:induction false} LinkedOneLive(links: Links, conns: Conns, place: map<nat, Place>, p: nat, last: nat)
    requires IsLink(links, p) && IsLink(links, last) && p != last && OneLive(links, conns, place)
    requires p in place && last in place && place[p].chain != place[last].chain
    ensures OneLive(Linked(links, p, last), conns, PlacedBehind(place, p, last)) <==>
            (Live(links, conns, p) ==> ChainDead(links, conns, place, last))
  {
    var after, place' := Linked(links, p, last), PlacedBehind(place, p, last);
    assert forall s :: Live(after, conns, s) <==> Live(links, conns, s);
    if Live(links, conns, p) && !ChainDead(links, conns, place, last) {
      var t :| Live(links, conns, t) && t in place && place[last].chain == place[t].chain;
      assert Live(after, conns, t) && Live(after, conns, p) && t != p && place'[t].chain == place'[p].chain;
    }
  }

  /** The slot a link is to be put behind: that of another link that is named. */
  function Named(links: Links, p: nat, primary: Name): Option<nat>
    requires IsLink(links, p)
  {
    if primary == [] || primary == links[p].value.name then None else FindLink(links, primary)
  }

  /** The table when link `p` is added again, which has to be possible. */
  ghost function Readded(links: Links, place: map<nat, Place>, p: nat, named: Option<nat>): Links
    requires IsLink(links, p) && ChainsOk(EndsOf(links), place) && (named.Some? ==> IsLink(links, named.value) && named.value != p)
  {
    if named.Some? && links[p].value.primary.None? then
      Linked(links, p, PlaceBehind(EndsOf(links), place, named.value, p))
    else links
  }

  /** Adding a link that stood alone again, behind link `s`, keeps the whole link table in order. */
  lemma {:induction false} ReaddTable(links: Links, conns: Conns, dests: seq<Dest>, place: map<nat, Place>, nextChain: nat, p: nat, s: nat)
    requires IsLink(links, p) && IsLink(links, s) && p != s
    requires TableOk(links, conns, place, nextChain, None) && RoutesOk(dests, links, conns, None)
    requires links[p].value.primary.None? && links[p].value.backup.None?
    requires Live(links, conns, p) ==> ChainDead(links, conns, place, s)
    ensures p in EndsOf(links) && s in EndsOf(links) && Readdable(EndsOf(links), place, p, Some(s))
    ensures var q := PlaceBehind(EndsOf(links), place, s, p);
            TableOk(Readded(links, place, p, Some(s)), conns, PlacedBehind(place, p, q), nextChain, None)
    ensures RoutesOk(dests, Readded(links, place, p, Some(s)), conns, None)
  {
    assert p in EndsOf(links) && s in EndsOf(links);
    ReaddOk(EndsOf(links), place, p, Some(s));
    LinkedTable(links, conns, dests, place, nextChain, p, PlaceBehind(EndsOf(links), place, s, p));
  }

  /** Slot `s` when link `x` goes and its neighbours are left without it. */
  function SeveredAt(links: Links, x: nat, s: nat): Option<Link>
    requires s < |links|
  {
    if s == x || links[s].None? then None
    else
      var l := links[s].value;
      Some(l.(primary := if l.primary == Some(x) then None else l.primary,
              backup := if l.backup == Some(x) then None else l.backup))
  }

  ghost predicate Severed(links: Links, after: Links, x: nat) {
    IsLink(links, x) && |after| == |links| && forall s :: 0 <= s < |links| ==> after[s] == SeveredAt(links, x, s)
  }

  /** Cutting off and dropping a link that is not live keeps the whole link table in order. */
  lemma {:induction false} SeveredTable(links: Links, after: Links, conns: Conns, dests: seq<Dest>, place: map<nat, Place>,
                                        nextChain: nat, x: nat)
    requires Severed(links, after, x) && !Live(links, conns, x)
    requires TableOk(links, conns, place, nextChain, None) && RoutesOk(dests, links, conns, None)
    ensures TableOk(after, conns, SeveredPlace(place, x, nextChain), nextChain + 1, None) && RoutesOk(dests, after, conns, None)
  {
    forall s | 0 <= s < |after| ensures RewiredAt(links, after, Some(x), s) {
      assert after[s] == SeveredAt(links, x, s);
    }
    RewiredOk(links, after, conns, dests, Some(x));
    SeveredEnds(links, after, x);
    SeverOk(EndsOf(links), place, x, nextChain);
    SeveredOneLive(links, after, conns, place, nextChain, x);
  }

  lemma {:induction false} SeveredEnds(links: Links, after: Links, x: nat)
    requires Severed(links, after, x)
    ensures EndsOf(after) == Sever(EndsOf(links), x)
  {
    var ends := EndsOf(links);
    assert EndsOf(after).Keys == Sever(ends, x).Keys;
    forall s | s in EndsOf(after) ensures EndsOf(after)[s] == Sever(ends, x)[s] {
      assert ends[s] == Ends(links[s].value.primary, links[s].value.backup);
      assert after[s] == SeveredAt(links, x, s);
    }
  }

  lemma {:induction false} SeveredOneLive(links: Links, after: Links, conns: Conns, place: map<nat, Place>, nextChain: nat, x: nat)
    requires OneLive(links, conns, place) && (forall s :: Live(after, conns, s) ==> Live(links, conns, s))
    requires forall s :: s in place ==> place[s].chain < nextChain
    ensures OneLive(after, conns, SeveredPlace(place, x, nextChain))
  {}

  /** The connections a sweep frees: closed ones, and outgoing calls (`late` ones) that nobody answered. */
  ghost function Swept(links: Links, conns: Conns, late: set<nat>): set<nat> {
    set c | c in conns && (conns[c].kind == Closed || (conns[c].kind == Unknown && c in late && Attached(links, c)))
  }

  /** `after` is the table with connection `c` taken from the link that held it. */
  ghost predicate Freed(links: Links, after: Links, c: nat) {
    && |after| == |links|
    && forall s :: 0 <= s < |after| ==>
         after[s] == if links[s].Some? && links[s].value.conn == Some(c) then Some(links[s].value.(conn := None)) else links[s]
  }

  lemma {:induction false} FreedAttached(links: Links, after: Links, c: nat)
    requires Freed(links, after, c)
    ensures forall k: nat :: Attached(after, k) <==> Attached(links, k) && k != c
  {
    forall k: nat ensures Attached(after, k) <==> Attached(links, k) && k != c {
      if Attached(links, k) && k != c {
        var s :| 0 <= s < |links| && links[s].Some? && links[s].value.conn == Some(k);
        assert after[s] == links[s];
      }
      if Attached(after, k) {
        var s :| 0 <= s < |after| && after[s].Some? && after[s].value.conn == Some(k);
        assert links[s].Some? && links[s].value.conn == Some(k) && k != c;
      }
    }
  }

  /** Links keep a connection that is still there, and have lost any other. */
  ghost predicate LinksFreed(links0: Links, links: Links, conns: Conns) {
    && |links| == |links0|
    && forall s :: 0 <= s < |links| ==>
         links[s] == if links0[s].Some? && links0[s].value.conn.Some? && links0[s].value.conn.value !in conns
                     then Some(links0[s].value.(conn := None)) else links0[s]
  }

  lemma {:induction false} NoneFreed(links: Links, conns: Conns)
    requires LinksOk(links, conns, None)
    ensures LinksFreed(links, links, conns)
  {
    forall s | 0 <= s < |links| && links[s].Some? && links[s].value.conn.Some? ensures links[s].value.conn.value in conns {
      assert IsLink(links, s) && LinkOk(links[s].value, conns);
    }
  }

  /** How far the sweep has come: the connections in `todo` are still to be looked at. */
  ghost predicate Sweeping(links0: Links, conns0: Conns, links: Links, conns: Conns, late: set<nat>, todo: set<nat>) {
    && todo <= conns0.Keys
    && (forall c :: c in conns <==> c in conns0 && (c in Swept(links0, conns0, late) ==> c in todo))
    && (forall c :: c in conns ==> conns[c] == conns0[c])
    && (forall c :: c in todo ==> (Attached(links, c) <==> Attached(links0, c)))
    && LinksFreed(links0, links, conns)
  }

  lemma {:induction false} SweepStep(links0: Links, conns0: Conns, links1: Links, conns1: Conns, links: Links, conns: Conns,
                                     late: set<nat>, todo: set<nat>, c: nat)
    requires Sweeping(links0, conns0, links1, conns1, late, todo) && c in todo
    requires conns == if c in Swept(links1, conns1, late) then conns1 - {c} else conns1
    requires forall k: nat :: k != c ==> (Attached(links, k) <==> Attached(links1, k))
    requires if c in Swept(links1, conns1, late) then Freed(links1, links, c) else links == links1
    ensures Sweeping(links0, conns0, links, conns, late, todo - {c})
  {
    assert c in conns1 && conns1[c] == conns0[c];
    assert c in Swept(links1, conns1, late) <==> c in Swept(links0, conns0, late);
  }

  // ---------------------------------------------------------------- one connection comes, or becomes something

  /** A new connection is nobody's yet. */
  lemma {:induction false} ConnectOk(me: Name, conns: Conns, id: nat, now: int)
    requires PresenceOk(me, conns) && id !in conns
    ensures PresenceOk(me, conns[id := Conn(Unknown, [], [], None, now)])
    ensures SameHosts(conns, conns[id := Conn(Unknown, [], [], None, now)])
  {}

  /** A local user keeps the order of presence. */
  lemma {:induction false} LoginOk(me: Name, conns: Conns, cp: nat, name: Name)
    requires PresenceOk(me, conns) && cp in conns && conns[cp].kind == Unknown
    ensures var after := conns[cp := conns[cp].(kind := User, name := name, host := me)];
            PresenceOk(me, after) && SameHosts(conns, after)
  {}

  lemma {:induction false} NameOk(me: Name, conns: Conns, cp: nat, name: Name)
    requires PresenceOk(me, conns) && cp in conns && conns[cp].kind == Unknown
    ensures var after := conns[cp := conns[cp].(name := name)]; PresenceOk(me, after) && SameHosts(conns, after)
  {}
}
