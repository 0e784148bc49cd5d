/**
 Sending a channel message at one host: the loop over the connections that writes a line to every
 local member and one CMSG to every neighbour behind which a member is known, using the `locked`
 flags so that nothing is written twice.
 */
module ChannelCast {
  import opened Common

  /** What the user table says of one user: the channels it is on and the neighbour it is reached by. */
  datatype Presence = Presence(user: nat, on: set<int>, via: Option<nat>)

  /** The neighbours a channel message goes to; not the one it came from. */
  function Onward(table: set<Presence>, channel: int, from: Option<nat>): set<nat> {
    set r | r in table && channel in r.on && r.via.Some? && r.via != from :: r.via.value
  }

  /** The local users on a channel. */
  function Locals(table: set<Presence>, channel: int): set<nat> {
    set r | r in table && channel in r.on && r.via.None? :: r.user
  }

  datatype Output =
    | Line(channel: int, text: string)   // to a local user
    | Cmsg(from: string, channel: int, text: string)  // to a neighbour

  /** A connection as the loop reads it; `via` is the place of the neighbour in the list. */
  datatype Connection = Connection(id: nat, kind: Kind, via: Option<nat>, channel: int, joined: set<int>)

  predicate OnChannel(c: Connection, channel: int) {
    c.kind == User && (c.channel == channel || channel in c.joined)
  }

  /** Ids are unique, and users are reached through host connections of the list. */
  ghost predicate WellFormed(cs: seq<Connection>) {
    && (forall i, j :: 0 <= i < j < |cs| ==> cs[i].id != cs[j].id)
    && (forall i :: 0 <= i < |cs| && cs[i].kind == User && cs[i].via.Some? ==>
          cs[i].via.value < |cs| && cs[cs[i].via.value].kind == Host)
  }

  /** The user table of a connection list. */
  ghost function Table(cs: seq<Connection>): set<Presence>
    requires WellFormed(cs)
  {
    set i | 0 <= i < |cs| && cs[i].kind == User :: PresenceAt(cs, i)
  }

  ghost function PresenceAt(cs: seq<Connection>, i: nat): Presence
    requires WellFormed(cs) && i < |cs| && cs[i].kind == User
  {
    Presence(cs[i].id, {cs[i].channel} + cs[i].joined,
             if cs[i].via.None? then None else Some(cs[cs[i].via.value].id))
  }

  /** Some user among the first `n` connections is on the channel and reached through connection `k`. */
  ghost predicate MemberBehind(cs: seq<Connection>, n: nat, k: nat, channel: int)
    requires n <= |cs|
  {
    exists i :: 0 <= i < n && OnChannel(cs[i], channel) && cs[i].via == Some(k)
  }

  /** What the first `n` rounds of the loop have to write to connection `k`. */
  ghost function Due(cs: seq<Connection>, n: nat, k: nat, m: Post): seq<Output>
    requires n <= |cs| && k < |cs|
  {
    if cs[k].kind == Host then
      if !m.local && MemberBehind(cs, n, k, m.channel) then [Cmsg(m.from, m.channel, m.text)] else []
    else if k < n && OnChannel(cs[k], m.channel) && cs[k].via.None? then [Line(m.channel, m.text)]
    else []
  }

  /** A channel message to be sent; `local` is the channel's flag that keeps it from the links. */
  datatype Post = Post(from: string, channel: int, text: string, local: bool)

  const MAXCHANNEL := 32767

  /** Lines from senders with names of less than three characters, for impossible channels, or without text are dropped. */
  predicate Passes(m: Post) {
    |m.from| >= 3 && m.channel <= MAXCHANNEL && m.text != []
  }

  class Switchboard {
    const conns: seq<Connection>
    var locked: seq<bool>
    var obuf: seq<seq<Output>>

    ghost predicate Valid()
      reads this
    {
      WellFormed(conns) && |locked| == |obuf| == |conns|
    }

    constructor (conns: seq<Connection>)
      requires WellFormed(conns)
      ensures Valid() && this.conns == conns
      ensures forall k :: 0 <= k < |conns| ==> obuf[k] == []
    {
      this.conns := conns;
      locked := seq(|conns|, _ => false);
      obuf := seq(|conns|, _ => []);
    }

    method ClearLocks()
      requires Valid()
      modifies this`locked
      ensures Valid() && forall k :: 0 <= k < |locked| ==> !locked[k]
    {
      for i := 0 to |conns|
        invariant |locked| == |conns| && forall k :: 0 <= k < i ==> !locked[k]
      {
        locked := locked[i := false];
      }
    }

    /** Every unlocked local member gets one line, every unlocked neighbour with a member behind it one CMSG. */
    method SendToMembers(m: Post)
      requires Valid()
      modifies this
      ensures Valid()
      ensures forall k :: 0 <= k < |conns| ==>
                obuf[k] == old(obuf[k]) + if old(locked[k]) then [] else Due(conns, |conns|, k, m)
    {
      for i := 0 to |conns|
        invariant Valid()
        invariant Progress(conns, i, m, old(locked), old(obuf), locked, obuf)
      {
        ghost var l, o := locked, obuf;
        SendFor(i, m);
        ProgressStep(conns, i, m, old(locked), old(obuf), l, o, locked, obuf);
      }
    }

    /** One connection of the list: a member is written to, or its neighbour, unless that is locked. */
    method SendFor(i: nat, m: Post)
      requires Valid() && i < |conns|
      modifies this
      ensures Valid()
      ensures forall k :: 0 <= k < |conns| ==>
                && obuf[k] == old(obuf[k]) + Extra(conns, i, k, m, old(locked))
                && locked[k] == (old(locked[k]) || Extra(conns, i, k, m, old(locked)) != [])
    {
      var p := conns[i];
      if OnChannel(p, m.channel) {
        if p.via.Some? {
          var v := p.via.value;
          if !locked[v] && !m.local {
            obuf := obuf[v := obuf[v] + [Cmsg(m.from, m.channel, m.text)]];
            locked := locked[v := true];
          }
        } else if !locked[i] {
          obuf := obuf[i := obuf[i] + [Line(m.channel, m.text)]];
          locked := locked[i := true];
        }
      }
    }

    /**
     A channel message that came in on connection `cp`: all locks are cleared, `cp` is locked, and unless the
     line is dropped, or `blocked` by the flood limiter or a ban, the message is sent. Nothing goes back to `cp`;
     each other local member gets the line once; a neighbour gets one CMSG exactly when the user table sends it
     that way.
     */
    method Relay(cp: nat, m: Post, blocked: bool)
      requires Valid() && cp < |conns|
      modifies this
      ensures Valid() && obuf[cp] == old(obuf[cp])
      ensures !Passes(m) || blocked ==> forall k :: 0 <= k < |conns| ==> obuf[k] == old(obuf[k])
      ensures Passes(m) && !blocked ==>
                forall k :: 0 <= k < |conns| && k != cp ==> obuf[k] == old(obuf[k]) + Share(conns, cp, k, m)
    {
      ClearLocks();
      locked := locked[cp := true];
      if !Passes(m) || blocked {
        return;
      }
      SendToMembers(m);
      forall k | 0 <= k < |conns| && k != cp ensures Due(conns, |conns|, k, m) == Share(conns, cp, k, m) {
        if conns[k].kind == Host {
          BehindIsOnward(conns, k, conns[cp].id, m.channel);
        } else if conns[k].kind == User && conns[k].via.None? {
          MemberIsLocal(conns, k, m.channel);
        }
      }
    }
  }

  /** What connection `k` gets of a message from `cp`, by the user table alone. */
  ghost function Share(cs: seq<Connection>, cp: nat, k: nat, m: Post): seq<Output>
    requires WellFormed(cs) && cp < |cs| && k < |cs|
  {
    if cs[k].kind == Host then
      if !m.local && cs[k].id in Onward(Table(cs), m.channel, Some(cs[cp].id)) then [Cmsg(m.from, m.channel, m.text)] else []
    else if cs[k].kind == User && cs[k].via.None? then
      if cs[k].id in Locals(Table(cs), m.channel) then [Line(m.channel, m.text)] else []
    else []
  }

  /** After `n` rounds, from locks `l0` and output `o0`: what is due was written, and its receivers are locked. */
  ghost predicate Progress(cs: seq<Connection>, n: nat, m: Post, l0: seq<bool>, o0: seq<seq<Output>>,
                           l: seq<bool>, o: seq<seq<Output>>)
  {
    && n <= |cs| == |l0| == |o0| == |l| == |o|
    && forall k :: 0 <= k < |cs| ==>
         && o[k] == (if l0[k] then o0[k] else o0[k] + Due(cs, n, k, m))
         && l[k] == (l0[k] || Due(cs, n, k, m) != [])
  }

  /** What round `n` of the loop does to connection `k`. */
  ghost function Extra(cs: seq<Connection>, n: nat, k: nat, m: Post, l: seq<bool>): seq<Output>
    requires n < |cs| == |l| && k < |cs|
  {
    if !OnChannel(cs[n], m.channel) || l[k] then []
    else if cs[n].via == Some(k) && !m.local then [Cmsg(m.from, m.channel, m.text)]
    else if cs[n].via.None? && k == n then [Line(m.channel, m.text)]
    else []
  }

  lemma {:induction false} ProgressStep(cs: seq<Connection>, n: nat, m: Post, l0: seq<bool>, o0: seq<seq<Output>>,
                     l: seq<bool>, o: seq<seq<Output>>, l': seq<bool>, o': seq<seq<Output>>)
    requires WellFormed(cs) && n < |cs| == |l'| == |o'| && Progress(cs, n, m, l0, o0, l, o)
    requires forall k :: 0 <= k < |cs| ==>
               && o'[k] == o[k] + Extra(cs, n, k, m, l)
               && l'[k] == (l[k] || Extra(cs, n, k, m, l) != [])
    ensures Progress(cs, n + 1, m, l0, o0, l', o')
  {
    forall k | 0 <= k < |cs|
      ensures o'[k] == (if l0[k] then o0[k] else o0[k] + Due(cs, n + 1, k, m))
      ensures l'[k] == (l0[k] || Due(cs, n + 1, k, m) != [])
    {
      DueStep(cs, n, k, m, l);
      assert o[k] + [] == o[k] && o0[k] + [] == o0[k];
    }
  }

  lemma {:induction false} DueStep(cs: seq<Connection>, n: nat, k: nat, m: Post, l: seq<bool>)
    requires WellFormed(cs) && n < |cs| == |l| && k < |cs|
    ensures Due(cs, n, k, m) != [] ==> Due(cs, n + 1, k, m) == Due(cs, n, k, m)
    ensures Due(cs, n, k, m) == [] && !l[k] ==> Due(cs, n + 1, k, m) == Extra(cs, n, k, m, l)
  {}

  lemma {:induction false} BehindIsOnward(cs: seq<Connection>, k: nat, from: nat, channel: int)
    requires WellFormed(cs) && k < |cs| && cs[k].kind == Host && cs[k].id != from
    ensures MemberBehind(cs, |cs|, k, channel) <==> cs[k].id in Onward(Table(cs), channel, Some(from))
  {
    if MemberBehind(cs, |cs|, k, channel) {
      var i :| 0 <= i < |cs| && OnChannel(cs[i], channel) && cs[i].via == Some(k);
      assert PresenceAt(cs, i) in Table(cs) && channel in PresenceAt(cs, i).on;
    }
    if cs[k].id in Onward(Table(cs), channel, Some(from)) {
      var r :| r in Table(cs) && channel in r.on && r.via == Some(cs[k].id);
      var i :| 0 <= i < |cs| && cs[i].kind == User && r == PresenceAt(cs, i);
      assert OnChannel(cs[i], channel) && cs[i].via == Some(k);
    }
  }

  lemma {:induction false} MemberIsLocal(cs: seq<Connection>, k: nat, channel: int)
    requires WellFormed(cs) && k < |cs| && cs[k].kind == User && cs[k].via.None?
    ensures OnChannel(cs[k], channel) <==> cs[k].id in Locals(Table(cs), channel)
  {
    var r := PresenceAt(cs, k);
    assert r in Table(cs);
    if cs[k].id in Locals(Table(cs), channel) {
      var q :| q in Table(cs) && channel in q.on && q.via.None? && q.user == cs[k].id;
      assert q == r;
    }
  }

  /** A neighbour the user table sends a message to is one of the connections. */
  lemma {:induction false} OnwardConnected(cs: seq<Connection>, channel: int, from: Option<nat>)
    requires WellFormed(cs)
    ensures forall y :: y in Onward(Table(cs), channel, from) ==>
              exists k :: 0 <= k < |cs| && cs[k].kind == Host && cs[k].id == y && Some(cs[k].id) != from
  {
    forall y | y in Onward(Table(cs), channel, from)
      ensures exists k :: 0 <= k < |cs| && cs[k].kind == Host && cs[k].id == y && Some(cs[k].id) != from
    {
      var r :| r in Table(cs) && channel in r.on && r.via.Some? && r.via != from && r.via.value == y;
      var i :| 0 <= i < |cs| && cs[i].kind == User && r == PresenceAt(cs, i);
      assert cs[cs[i].via.value].id == y;
    }
  }

  lemma {:induction false} LocalsConnected(cs: seq<Connection>, channel: int)
    requires WellFormed(cs)
    ensures forall u :: u in Locals(Table(cs), channel) ==>
              exists k :: 0 <= k < |cs| && cs[k].kind == User && cs[k].via.None? && cs[k].id == u
  {
    forall u | u in Locals(Table(cs), channel)
      ensures exists k :: 0 <= k < |cs| && cs[k].kind == User && cs[k].via.None? && cs[k].id == u
    {
      var r :| r in Table(cs) && channel in r.on && r.via.None? && r.user == u;
      var i :| 0 <= i < |cs| && cs[i].kind == User && r == PresenceAt(cs, i);
      assert cs[i].id == u;
    }
  }
}
