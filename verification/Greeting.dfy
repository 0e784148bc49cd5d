/**
 What a new neighbour is told first: the known destinations, in the order of their hop counts. The
 table is gone through once for every hop count that occurs; no entry is left out or told twice.
 */
module Greeting {
  import opened Common
  import opened ServerState

  /** A live route that is not over the new connection and was not merely learned from a user's sign-on. */
  predicate Due(d: Dest, links: Links, cp: nat) {
    d.rtt != 0 && d.link.Some? && IsLink(links, d.link.value) && links[d.link.value].value.conn != Some(cp) && !d.learned
  }

  function Line(d: Dest, slot: nat, name: Name): Announce
    requires d.link.Some?
  {
    Announce(slot, name, d.name, d.rtt + 1, d.link.value, true)
  }

  /** The lines due for those of the first `n` entries whose hop count is in `lo..hi`. */
  function Owed(dests: seq<Dest>, links: Links, cp: nat, slot: nat, name: Name, lo: int, hi: int, n: nat): multiset<Announce>
    requires n <= |dests|
  {
    if n == 0 then multiset{}
    else
      var d := dests[n - 1];
      Owed(dests, links, cp, slot, name, lo, hi, n - 1) +
      if lo <= d.hops < hi && Due(d, links, cp) then multiset{Line(d, slot, name)} else multiset{}
  }

  lemma {:induction false} OwedSplit(dests: seq<Dest>, links: Links, cp: nat, slot: nat, name: Name, lo: int, mid: int, hi: int, n: nat)
    requires n <= |dests| && lo <= mid <= hi
    ensures Owed(dests, links, cp, slot, name, lo, hi, n) ==
            Owed(dests, links, cp, slot, name, lo, mid, n) + Owed(dests, links, cp, slot, name, mid, hi, n)
  {
    if n > 0 {
      OwedSplit(dests, links, cp, slot, name, lo, mid, hi, n - 1);
    }
  }

  /** Hop counts that do not occur add nothing. */
  lemma {:induction false} OwedGap(dests: seq<Dest>, links: Links, cp: nat, slot: nat, name: Name, lo: int, mid: int, hi: int, n: nat)
    requires n <= |dests| && lo <= mid <= hi && forall i :: 0 <= i < n ==> !(mid <= dests[i].hops < hi)
    ensures Owed(dests, links, cp, slot, name, lo, hi, n) == Owed(dests, links, cp, slot, name, lo, mid, n)
  {
    if n > 0 {
      OwedGap(dests, links, cp, slot, name, lo, mid, hi, n - 1);
    }
  }

  lemma {:induction false} OwedNone(dests: seq<Dest>, links: Links, cp: nat, slot: nat, name: Name, h: int, n: nat)
    requires n <= |dests|
    ensures Owed(dests, links, cp, slot, name, h, h, n) == multiset{}
  {
    if n > 0 {
      OwedNone(dests, links, cp, slot, name, h, n - 1);
    }
  }

  lemma {:induction false} OwedMember(dests: seq<Dest>, links: Links, cp: nat, slot: nat, name: Name, lo: int, hi: int, n: nat, a: Announce)
    returns (i: nat)
    requires n <= |dests| && a in Owed(dests, links, cp, slot, name, lo, hi, n)
    ensures i < n && Due(dests[i], links, cp) && lo <= dests[i].hops < hi && a == Line(dests[i], slot, name)
  {
    if a in Owed(dests, links, cp, slot, name, lo, hi, n - 1) {
      i := OwedMember(dests, links, cp, slot, name, lo, hi, n - 1, a);
    } else {
      i := n - 1;
    }
  }

  /** How many entries have more than `h` hops. */
  function Farther(dests: seq<Dest>, h: int): nat {
    if dests == [] then 0 else Farther(dests[..|dests| - 1], h) + if dests[|dests| - 1].hops > h then 1 else 0
  }

  lemma {:induction false} FartherLess(dests: seq<Dest>, h: int, k: int, i: nat)
    requires h < k && (i < |dests| ==> dests[i].hops == k)
    ensures Farther(dests, k) <= Farther(dests, h)
    ensures i < |dests| ==> Farther(dests, k) < Farther(dests, h)
  {
    if dests != [] {
      FartherLess(dests[..|dests| - 1], h, k, i);
    }
  }

  /** The lines due for those of the first `n` entries whose hop count is `hops`. */
  function Lines(dests: seq<Dest>, links: Links, cp: nat, slot: nat, name: Name, hops: int, n: nat): seq<Announce>
    requires n <= |dests|
  {
    if n == 0 then []
    else Lines(dests, links, cp, slot, name, hops, n - 1) +
         if dests[n - 1].hops == hops && Due(dests[n - 1], links, cp) then [Line(dests[n - 1], slot, name)] else []
  }

  lemma {:induction false} LinesOwed(dests: seq<Dest>, links: Links, cp: nat, slot: nat, name: Name, hops: int, n: nat)
    requires n <= |dests|
    ensures multiset(Lines(dests, links, cp, slot, name, hops, n)) == Owed(dests, links, cp, slot, name, hops, hops + 1, n)
  {
    if n > 0 {
      LinesOwed(dests, links, cp, slot, name, hops, n - 1);
    }
  }

  /** The least greater hop count among the first `n` entries, or `hops` itself. */
  function NextHops(dests: seq<Dest>, hops: int, n: nat): (next: int)
    requires n <= |dests|
    ensures next >= hops && forall i :: 0 <= i < n ==> !(hops < dests[i].hops < next)
    ensures next == hops ==> forall i :: 0 <= i < n ==> dests[i].hops <= hops
    ensures next > hops ==> exists i :: 0 <= i < n && dests[i].hops == next
  {
    if n == 0 then hops
    else
      var next := NextHops(dests, hops, n - 1);
      if dests[n - 1].hops > hops && (dests[n - 1].hops < next || hops >= next) then dests[n - 1].hops else next
  }

  /** A number greater than every hop count. */
  function Beyond(dests: seq<Dest>): (h: int)
    ensures h > 0 && forall i :: 0 <= i < |dests| ==> dests[i].hops < h
  {
    if dests == [] then 1
    else
      var h, last := Beyond(dests[..|dests| - 1]), dests[|dests| - 1].hops;
      if last < h then h else last + 1
  }

  /** What is told is sound: not about the neighbour itself, not of its own routes, and not of dead ones. */
  lemma {:induction false} OwedOk(dests: seq<Dest>, links: Links, conns: Conns, cp: nat, slot: nat, news: seq<Announce>, hi: int)
    requires RoutesOk(dests, links, conns, None) && IsLink(links, slot) && links[slot].value.conn == Some(cp)
    requires Unrouted(dests, links[slot].value.name)
    requires multiset(news) == Owed(dests, links, cp, slot, links[slot].value.name, 0, hi, |dests|)
    ensures AllAnnounceOk(news)
  {
    forall k | 0 <= k < |news| ensures AnnounceOk(news[k]) {
      assert news[k] in multiset(news);
      var i := OwedMember(dests, links, cp, slot, links[slot].value.name, 0, hi, |dests|, news[k]);
      assert RouteOk(dests[i], links, conns, None);
    }
  }

  /** A pass accounts for the entries up to the next hop count, the last one for all that are left. */
  lemma {:induction false} PassDone(dests: seq<Dest>, links: Links, cp: nat, slot: nat, name: Name, hops: int, limit: int)
    requires 0 <= hops < limit && forall i :: 0 <= i < |dests| ==> dests[i].hops < limit
    ensures var next := NextHops(dests, hops, |dests|);
            && Owed(dests, links, cp, slot, name, 0, if next == hops then limit else next, |dests|) ==
               Owed(dests, links, cp, slot, name, 0, hops, |dests|) + multiset(Lines(dests, links, cp, slot, name, hops, |dests|))
            && (next != hops ==> hops < next < limit && Farther(dests, next) < Farther(dests, hops))
  {
    var next := NextHops(dests, hops, |dests|);
    var until := if next == hops then limit else next;
    OwedSplit(dests, links, cp, slot, name, 0, hops, hops + 1, |dests|);
    OwedGap(dests, links, cp, slot, name, 0, hops + 1, until, |dests|);
    LinesOwed(dests, links, cp, slot, name, hops, |dests|);
    if next != hops {
      var i :| 0 <= i < |dests| && dests[i].hops == next;
      FartherLess(dests, hops, next, i);
    }
  }

  /** One pass: the lines for hop count `hops`, and the next greater one. */
  method Pass(dests: seq<Dest>, links: Links, cp: nat, slot: nat, name: Name, hops: int) returns (news: seq<Announce>, next: int)
    requires forall i :: 0 <= i < |dests| && dests[i].link.Some? ==> IsLink(links, dests[i].link.value)
    ensures news == Lines(dests, links, cp, slot, name, hops, |dests|) && next == NextHops(dests, hops, |dests|)
  {
    news, next := [], hops;
    for i := 0 to |dests|
      invariant news == Lines(dests, links, cp, slot, name, hops, i) && next == NextHops(dests, hops, i)
    {
      var d := dests[i];
      if d.hops != hops {
        if d.hops > hops && (d.hops < next || hops >= next) {
          next := d.hops;
        }
      } else if d.rtt != 0 && d.link.Some? && links[d.link.value].value.conn != Some(cp) && !d.learned {
        news := news + [Line(d, slot, name)];
      }
    }
  }

  /** Every due entry with a hop count that is not negative is told once, and nothing else is. */
  method Greet(dests: seq<Dest>, links: Links, cp: nat, slot: nat, name: Name, ghost limit: int) returns (news: seq<Announce>)
    requires forall i :: 0 <= i < |dests| && dests[i].link.Some? ==> IsLink(links, dests[i].link.value)
    requires limit > 0 && forall i :: 0 <= i < |dests| ==> dests[i].hops < limit
    ensures multiset(news) == Owed(dests, links, cp, slot, name, 0, limit, |dests|)
  {
    news := [];
    var hops := 0;
    OwedNone(dests, links, cp, slot, name, 0, |dests|);
    while true
      invariant 0 <= hops < limit
      invariant multiset(news) == Owed(dests, links, cp, slot, name, 0, hops, |dests|)
      decreases Farther(dests, hops)
    {
      var lines, next := Pass(dests, links, cp, slot, name, hops);
      news := news + lines;
      PassDone(dests, links, cp, slot, name, hops, limit);
      if next == hops {
        return;
      }
      hops := next;
    }
  }

  // ---------------------------------------------------------------- what a new neighbour has to be told

  /** A live route, not to the neighbour itself and not over its own connection, that was told and is not merely learned. */
  predicate Tellable(d: Dest, links: Links, cp: nat, name: Name) {
    && d.name != name && d.rtt != 0 && d.link.Some? && IsLink(links, d.link.value)
    && links[d.link.value].value.conn != Some(cp) && !d.learned && d.hops >= 0
  }

  /** The line that tells of it: one more than its rtt. */
  predicate TellsOf(a: Announce, d: Dest, slot: nat, name: Name) {
    && a.over == slot && a.overName == name && a.about == d.name && a.rtt == d.rtt + 1 && a.alive
    && d.link == Some(a.route)
  }

  /** The line tells of a tellable route. */
  ghost predicate Founded(a: Announce, dests: seq<Dest>, links: Links, cp: nat, slot: nat, name: Name) {
    exists d :: d in dests && Tellable(d, links, cp, name) && TellsOf(a, d, slot, name)
  }

  /** A line since `from` tells of route `d`. */
  ghost predicate IsTold(sent: seq<Announce>, from: nat, d: Dest, slot: nat, name: Name) {
    exists k :: from <= k < |sent| && TellsOf(sent[k], d, slot, name)
  }

  /** Since line `from` exactly the tellable routes have been told over link `slot`, once each. */
  ghost predicate Greeted(sent: seq<Announce>, from: nat, dests: seq<Dest>, links: Links, cp: nat, slot: nat, name: Name) {
    && (forall k :: from <= k < |sent| && sent[k].over == slot ==> Founded(sent[k], dests, links, cp, slot, name))
    && (forall d :: d in dests && Tellable(d, links, cp, name) ==> IsTold(sent, from, d, slot, name))
    && (forall j, k :: from <= j < k < |sent| && sent[j].over == slot && sent[k].over == slot ==> sent[j].about != sent[k].about)
  }

  lemma {:induction false} OwedHas(dests: seq<Dest>, links: Links, cp: nat, slot: nat, name: Name, lo: int, hi: int, n: nat, i: nat)
    requires i < n <= |dests| && lo <= dests[i].hops < hi && Due(dests[i], links, cp)
    ensures Line(dests[i], slot, name) in Owed(dests, links, cp, slot, name, lo, hi, n)
  {
    if i < n - 1 {
      OwedHas(dests, links, cp, slot, name, lo, hi, n - 1, i);
    }
  }

  lemma {:induction false} OwedOnce(dests: seq<Dest>, links: Links, cp: nat, slot: nat, name: Name, lo: int, hi: int, n: nat, a: Announce)
    requires n <= |dests| && Sorted(dests)
    ensures Owed(dests, links, cp, slot, name, lo, hi, n)[a] <= 1
  {
    if n > 0 {
      OwedOnce(dests, links, cp, slot, name, lo, hi, n - 1, a);
      if Due(dests[n - 1], links, cp) {
        NotOwedYet(dests, links, cp, slot, name, lo, hi, n - 1);
      }
    }
  }

  lemma {:induction false} NotOwedYet(dests: seq<Dest>, links: Links, cp: nat, slot: nat, name: Name, lo: int, hi: int, n: nat)
    requires n < |dests| && Sorted(dests) && dests[n].link.Some?
    ensures Line(dests[n], slot, name) !in Owed(dests, links, cp, slot, name, lo, hi, n)
  {
    if Line(dests[n], slot, name) in Owed(dests, links, cp, slot, name, lo, hi, n) {
      var i := OwedMember(dests, links, cp, slot, name, lo, hi, n, Line(dests[n], slot, name));
      BeforeTotal(dests[i].name, dests[n].name);
    }
  }

  lemma {:induction false} TwiceIn(s: seq<Announce>, j: nat, k: nat)
    requires j < k < |s| && s[j] == s[k]
    ensures multiset(s)[s[k]] >= 2
  {
    assert s == s[..k] + [s[k]] + s[k + 1..];
    assert s[k] in s[..k] by {
      assert s[..k][j] == s[k];
    }
    assert multiset(s) == multiset(s[..k]) + multiset{s[k]} + multiset(s[k + 1..]);
    assert multiset(s[..k])[s[k]] >= 1;
  }

  /** What is owed is what has to be told. */
  lemma {:induction false} OwedIsGreeting(dests: seq<Dest>, links: Links, cp: nat, slot: nat, name: Name, news: seq<Announce>)
    requires Sorted(dests) && Unrouted(dests, name)
    requires multiset(news) == Owed(dests, links, cp, slot, name, 0, Beyond(dests), |dests|)
    ensures Greeted(news, 0, dests, links, cp, slot, name)
  {
    forall k | 0 <= k < |news| && news[k].over == slot ensures Founded(news[k], dests, links, cp, slot, name) {
      assert news[k] in multiset(news);
      var i := OwedMember(dests, links, cp, slot, name, 0, Beyond(dests), |dests|, news[k]);
      assert dests[i] in dests && Tellable(dests[i], links, cp, name);
    }
    forall d | d in dests && Tellable(d, links, cp, name) ensures IsTold(news, 0, d, slot, name) {
      var i :| 0 <= i < |dests| && dests[i] == d;
      OwedHas(dests, links, cp, slot, name, 0, Beyond(dests), |dests|, i);
      assert Line(d, slot, name) in multiset(news);
      var k :| 0 <= k < |news| && news[k] == Line(d, slot, name);
    }
    forall j, k | 0 <= j < k < |news| ensures news[j].about != news[k].about {
      ToldOnce(dests, links, cp, slot, name, news, j, k);
    }
  }

  lemma {:induction false} ToldOnce(dests: seq<Dest>, links: Links, cp: nat, slot: nat, name: Name, news: seq<Announce>, j: nat, k: nat)
    requires Sorted(dests) && j < k < |news|
    requires multiset(news) == Owed(dests, links, cp, slot, name, 0, Beyond(dests), |dests|)
    ensures news[j].about != news[k].about
  {
    assert news[j] in multiset(news) && news[k] in multiset(news);
    var i := OwedMember(dests, links, cp, slot, name, 0, Beyond(dests), |dests|, news[j]);
    var l := OwedMember(dests, links, cp, slot, name, 0, Beyond(dests), |dests|, news[k]);
    OwedOnce(dests, links, cp, slot, name, 0, Beyond(dests), |dests|, news[k]);
    if i == l {
      TwiceIn(news, j, k);
    } else {
      BeforeTotal(dests[i].name, dests[l].name);
    }
  }

  lemma {:induction false} GreetedAfter(sent: seq<Announce>, news: seq<Announce>, dests: seq<Dest>, links: Links, cp: nat, slot: nat, name: Name)
    requires Greeted(news, 0, dests, links, cp, slot, name)
    ensures Greeted(sent + news, |sent|, dests, links, cp, slot, name)
  {
    var all := sent + news;
    forall d | d in dests && Tellable(d, links, cp, name) ensures IsTold(all, |sent|, d, slot, name) {
      assert IsTold(news, 0, d, slot, name);
      var k :| 0 <= k < |news| && TellsOf(news[k], d, slot, name);
      assert all[|sent| + k] == news[k];
    }
    assert forall k :: |sent| <= k < |all| ==> all[k] == news[k - |sent|];
  }

  /** Lines to others, before and after, and a new route to the neighbour itself, make no difference. */
  lemma {:induction false} GreetedStill(sent0: seq<Announce>, sent1: seq<Announce>, sent2: seq<Announce>, sent3: seq<Announce>,
                                        dests: seq<Dest>, links: Links, dests': seq<Dest>, links': Links, cp: nat, slot: nat, name: Name)
    requires Wrote(sent0, sent1, Some(slot)) && sent1 <= sent2 && Wrote(sent2, sent3, Some(slot))
    requires Greeted(sent2, |sent1|, dests, links, cp, slot, name) && SameOthers(dests, dests', name)
    requires |links'| == |links| && forall s :: 0 <= s < |links| ==>
               links'[s].Some? == links[s].Some? && (links[s].Some? ==> links'[s].value.conn == links[s].value.conn)
    ensures Greeted(sent3, |sent0|, dests', links', cp, slot, name)
  {
    forall d | d in dests' && Tellable(d, links', cp, name) ensures IsTold(sent3, |sent0|, d, slot, name) {
      assert d in dests && Tellable(d, links, cp, name) && IsTold(sent2, |sent1|, d, slot, name);
      var k :| |sent1| <= k < |sent2| && TellsOf(sent2[k], d, slot, name);
      assert sent3[k] == sent2[k];
    }
    forall k | |sent0| <= k < |sent3| && sent3[k].over == slot
      ensures |sent1| <= k < |sent2| && sent3[k] == sent2[k] && Founded(sent3[k], dests', links', cp, slot, name)
    {
      assert sent3[k] == sent2[k] && Founded(sent2[k], dests, links, cp, slot, name);
      var d :| d in dests && Tellable(d, links, cp, name) && TellsOf(sent2[k], d, slot, name);
      assert d in dests' && Tellable(d, links', cp, name);
    }
  }
}
