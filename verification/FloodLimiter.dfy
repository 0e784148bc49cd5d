/**
 The message flood limiter of one user record: a moving deadline that each accounted message
 pushes ahead, and a delay queue for messages that come too fast. Names are compared without
 regard to case, so they are kept case-folded here.
 */
module FloodLimiter {
  import opened Common

  const FLOODSIZE: nat := 1785
  const STD_CALL: nat := 9

  /** Settings that do not change while the daemon runs. */
  datatype Config = Config(rateMax: nat, rateLine: nat, rateContent: nat, doBan: bool)

  /** A message as it arrives; `id` is its arrival number at this record. */
  datatype Message = Message(id: nat, name: string, nick: string, toname: Option<string>, channel: int, text: string)

  /** One login of the user, as the delay queue looks it up. */
  datatype Session = Session(isUser: bool, name: string, nick: string, channel: int, joined: seq<int>)

  /** A message let through, and when. */
  datatype Pass = Pass(msg: Message, time: int)

  /** A user record with its history: how many messages arrived and which were let through. */
  datatype Record = Record(name: string, stop: int, queue: seq<Message>, len: int, lastRun: int,
                           arrived: nat, passed: seq<Pass>)

  // ---------------------------------------------------------------- names and charges

  predicate Separator(c: char) {
    c == '-' || c == '/' || c == '_' || c == '\\' || c == '.' || c == ':'
  }

  /** The call sign without what follows or precedes a separator. */
  function Tidy(s: string): string {
    if s == [] then [] else if Separator(s[0]) then Tidy(s[1..]) else Stem(s)
  }

  function Stem(s: string): string {
    if s == [] || Separator(s[0]) then [] else [s[0]] + Stem(s[1..])
  }

  /**
   What a line costs. The conditional binds weaker than the sum before it, so the name length
   alone counts for all but the shortest lines, and the nickname only for those.
   */
  function Charge(cfg: Config, name: string, nick: string, text: string): (c: nat)
    ensures c >= cfg.rateLine
  {
    var nickTerm := if name == nick then 0 else if |nick| > STD_CALL then 2 * |nick| else |nick|;
    var content := if |text| + |name| > STD_CALL then |name| else nickTerm;
    cfg.rateLine + if cfg.rateContent > 0 then Over(content, cfg.rateContent) else 0
  }

  /** How often `b` goes into `a`. */
  function Over(a: nat, b: nat): nat
    requires b > 0
  {
    if a < b then 0 else 1 + Over(a - b, b)
  }

  lemma {:induction false} OverBounds(a: nat, b: nat)
    requires b > 0
    ensures Over(a, b) * b <= a < Over(a, b) * b + b
  {
    if a >= b {
      OverBounds(a - b, b);
      assert Over(a, b) * b == Over(a - b, b) * b + b;
    }
  }

  lemma {:induction false} AtLeastOnce(d: int, b: nat)
    requires d >= 1
    ensures d * b >= b
  {
    assert d * b == (d - 1) * b + b;
  }

  lemma {:induction false} OverDivides(a: nat, b: nat)
    requires b > 0
    ensures Over(a, b) == a / b
  {
    OverBounds(a, b);
    var p, q := Over(a, b), a / b;
    assert a == q * b + a % b;
    if p > q {
      AtLeastOnce(p - q, b);
    } else if q > p {
      AtLeastOnce(q - p, b);
    }
  }

  function Max(a: int, b: int): int {
    if a > b then a else b
  }

  function TextSum(q: seq<Message>): nat {
    if q == [] then 0 else |q[0].text| + TextSum(q[1..])
  }

  // ---------------------------------------------------------------- steps of a record

  /** Let a message through and account for it; the deadline is at least `now` by then. */
  function LetThrough(cfg: Config, r: Record, m: Message, nick: string, now: int): Record {
    r.(stop := r.stop + Charge(cfg, m.name, nick, m.text), passed := r.passed + [Pass(m, now)])
  }

  /** A message goes to the delay queue, or is dropped when it is empty or overfills the queue. */
  function Enqueue(cfg: Config, r: Record, m: Message): Record {
    if m.text == "" then r
    else if r.len + |m.text| > FLOODSIZE && cfg.doBan then
      if m.toname.Some? && r.name == Tidy(m.toname.value) then r else Ban(r, m.name)
    else r.(queue := r.queue + [m], len := r.len + |m.text|)
  }

  /** Banning a user empties the queue, unless the name is not one that can be banned. */
  function Ban(r: Record, user: string): Record {
    if Tidy(user) == "" || Tidy(user) == "conversd" then r else Freed(r)
  }

  function Freed(r: Record): Record {
    r.(queue := [], len := 0)
  }

  /** A message arrives; the flag says whether the caller must not send it now. */
  function Arrive(cfg: Config, r: Record, m: Message, now: int, banned: bool): (Record, bool) {
    var r0 := r.(arrived := r.arrived + 1);
    if banned then (r0, true)
    else
      var r1 := r0.(stop := Max(r.stop, now));
      if r1.queue != [] || r1.stop > now + cfg.rateMax then (Enqueue(cfg, r1, m), true)
      else (LetThrough(cfg, r1, m, m.nick, now), false)
  }

  /** The first login of the sender that may still say this message. */
  function Find(sessions: seq<Session>, m: Message): Option<Session> {
    if sessions == [] then None
    else
      var p := sessions[0];
      if p.isUser && p.name == m.name && (m.toname.Some? || p.channel == m.channel || m.channel in p.joined)
      then Some(p) else Find(sessions[1..], m)
  }

  /** Serve the queue from its head until the deadline is too far ahead. */
  function Drain(cfg: Config, r: Record, now: int, sessions: seq<Session>): Record
    decreases |r.queue|
  {
    if r.queue == [] then r
    else
      var r1 := r.(stop := Max(r.stop, now));
      if r1.stop > now + cfg.rateMax then r1
      else
        Drain(cfg, Served(cfg, r, now, Find(sessions, r.queue[0])), now, sessions)
  }

  /** After the head of the queue has been served from login `p`, or dropped if there is none. */
  function Served(cfg: Config, r: Record, now: int, p: Option<Session>): (next: Record)
    requires r.queue != []
    ensures next.queue == r.queue[1..] && next.passed == if p.Some? then r.passed + [Pass(r.queue[0], now)] else r.passed
  {
    var r1 := r.(stop := Max(r.stop, now));
    var r2 := if p.Some? then LetThrough(cfg, r1, r.queue[0], p.value.nick, now) else r1;
    r2.(queue := r.queue[1..], len := r.len - |r.queue[0].text|)
  }

  /** The periodic delivery, at most once a minute; an unreachable sender's queue is dropped. */
  function Deliver(cfg: Config, r: Record, now: int, reachable: bool, sessions: seq<Session>): Record {
    if now - r.lastRun < 60 then r
    else
      var r1 := if r.len == 0 then r else if !reachable then Freed(r) else Drain(cfg, r, now, sessions);
      r1.(lastRun := now)
  }

  datatype Event =
    | Message(name: string, nick: string, toname: Option<string>, channel: int, text: string, now: int, banned: bool)
    | Periodic(now: int, reachable: bool, sessions: seq<Session>)
    | Command(name: string, text: string)  // a remote command, accounted but never delayed
    | Raise(to: int)                       // a login merges records, or a read resets the timer
    | Drop                                 // a ban or the expiry of a record without logins

  function Step(cfg: Config, r: Record, e: Event): Record {
    match e
    case Message(name, nick, toname, channel, text, now, banned) =>
      Arrive(cfg, r, Message.Message(r.arrived, name, nick, toname, channel, text), now, banned).0
    case Periodic(now, reachable, sessions) => Deliver(cfg, r, now, reachable, sessions)
    case Command(name, text) => r.(stop := r.stop + Charge(cfg, name, name, text))
    case Raise(to) => r.(stop := Max(r.stop, to))
    case Drop => Freed(r)
  }

  function Run(cfg: Config, r: Record, es: seq<Event>): Record {
    if es == [] then r else Step(cfg, Run(cfg, r, es[..|es| - 1]), es[|es| - 1])
  }

  function Fresh(name: string, now: int): Record {
    Record(name, now, [], 0, 0, 0, [])
  }

  // ---------------------------------------------------------------- what becomes of a message

  /**
   A message goes through at once exactly if its sender is not banned, nothing is waiting, and the deadline is
   not further ahead than the burst allows. Otherwise it waits behind the others, unless it is empty, its
   sender is banned, or it overfills the queue.
   */
  lemma {:induction false} Treated(cfg: Config, r: Record, e: Event)
    requires e.Message?
    ensures var m := Message.Message(r.arrived, e.name, e.nick, e.toname, e.channel, e.text);
            var after := Step(cfg, r, e);
            if !e.banned && r.queue == [] && r.stop <= e.now + cfg.rateMax then
              && after.passed == r.passed + [Pass(m, e.now)] && after.queue == []
              && after.stop >= r.stop + cfg.rateLine && after.stop >= e.now + cfg.rateLine
            else
              && after.passed == r.passed
              && (e.banned || e.text == "" ==> after.queue == r.queue)
              && (after.queue == r.queue || after.queue == [] || after.queue == r.queue + [m])
              && (!e.banned && e.text != "" && (r.len + |e.text| <= FLOODSIZE || !cfg.doBan) ==> after.queue == r.queue + [m])
  {}

  /** A login from which message `m` may still be sent. */
  ghost predicate MaySend(sessions: seq<Session>, m: Message) {
    exists i :: 0 <= i < |sessions| && sessions[i].isUser && sessions[i].name == m.name &&
      (m.toname.Some? || sessions[i].channel == m.channel || m.channel in sessions[i].joined)
  }

  lemma {:induction false} FindMeaning(sessions: seq<Session>, m: Message)
    ensures Find(sessions, m).Some? <==> MaySend(sessions, m)
  {
    if sessions != [] {
      FindMeaning(sessions[1..], m);
      assert forall i :: 1 <= i < |sessions| ==> sessions[i] == sessions[1..][i - 1];
    }
  }

  /** The messages that were let through, one after the other. */
  function Messages(passed: seq<Pass>): (s: seq<Message>)
    ensures |s| == |passed|
  {
    if passed == [] then [] else Messages(passed[..|passed| - 1]) + [passed[|passed| - 1].msg]
  }

  /** Those of `ms` that may still be sent. */
  ghost function Sendable(ms: seq<Message>, sessions: seq<Session>): seq<Message> {
    if ms == [] then []
    else (if MaySend(sessions, ms[0]) then [ms[0]] else []) + Sendable(ms[1..], sessions)
  }

  lemma {:induction false} MessagesMore(passed: seq<Pass>, p: Pass)
    ensures Messages(passed + [p]) == Messages(passed) + [p.msg]
  {
    assert (passed + [p])[..|passed|] == passed;
  }

  lemma {:induction false} SendableMore(queue: seq<Message>, k: nat, sessions: seq<Session>)
    requires k < |queue|
    ensures Sendable(queue[..k + 1], sessions) ==
            (if MaySend(sessions, queue[0]) then [queue[0]] else []) + Sendable(queue[1..][..k], sessions)
  {
    assert queue[..k + 1][0] == queue[0] && queue[..k + 1][1..] == queue[1..][..k];
  }

  /** One message of the queue is served: it is let through if it may still be sent, and goes in any case. */
  lemma {:induction false} ServeOne(cfg: Config, r: Record, now: int, sessions: seq<Session>) returns (next: Record)
    requires r.queue != [] && r.stop <= now + cfg.rateMax
    ensures Drain(cfg, r, now, sessions) == Drain(cfg, next, now, sessions) && next.queue == r.queue[1..]
    ensures Messages(next.passed) == Messages(r.passed) + if MaySend(sessions, r.queue[0]) then [r.queue[0]] else []
  {
    var m, p := r.queue[0], Find(sessions, r.queue[0]);
    FindMeaning(sessions, m);
    next := Served(cfg, r, now, p);
    if p.Some? {
      MessagesMore(r.passed, Pass(m, now));
    }
  }

  /**
   A delivery serves the queue from its head, sends every message that may still be sent, and stops only when
   nothing waits any more or the deadline is further ahead than the burst allows.
   */
  ghost predicate Serves(cfg: Config, r: Record, after: Record, now: int, sessions: seq<Session>, n: nat) {
    && n <= |r.queue| && after.queue == r.queue[n..]
    && Messages(after.passed) == Messages(r.passed) + Sendable(r.queue[..n], sessions)
    && (after.queue == [] || after.stop > now + cfg.rateMax)
    && (r.queue != [] && r.stop <= now + cfg.rateMax ==> n > 0)
  }

  lemma {:induction false} DrainServes(cfg: Config, r: Record, now: int, sessions: seq<Session>) returns (n: nat)
    ensures Serves(cfg, r, Drain(cfg, r, now, sessions), now, sessions, n)
    decreases |r.queue|
  {
    n := 0;
    if r.queue != [] && r.stop <= now + cfg.rateMax {
      var next := ServeOne(cfg, r, now, sessions);
      var k := DrainServes(cfg, next, now, sessions);
      n := k + 1;
      ServesMore(cfg, r, next, Drain(cfg, r, now, sessions), now, sessions, k);
    }
  }

  lemma {:induction false} Regroup(a: seq<Message>, b: seq<Message>, c: seq<Message>)
    ensures (a + b) + c == a + (b + c)
  {}

  lemma {:induction false} ServesMore(cfg: Config, r: Record, next: Record, after: Record, now: int, sessions: seq<Session>, k: nat)
    requires r.queue != [] && next.queue == r.queue[1..] && Serves(cfg, next, after, now, sessions, k)
    requires Messages(next.passed) == Messages(r.passed) + if MaySend(sessions, r.queue[0]) then [r.queue[0]] else []
    ensures Serves(cfg, r, after, now, sessions, k + 1)
  {
    SendableMore(r.queue, k, sessions);
    assert r.queue[1..][k..] == r.queue[k + 1..];
    var head := if MaySend(sessions, r.queue[0]) then [r.queue[0]] else [];
    Regroup(Messages(r.passed), head, Sendable(r.queue[1..][..k], sessions));
  }

  /** The periodic delivery of a reachable sender, a minute after the last one, is such a pass. */
  lemma {:induction false} DeliveryServes(cfg: Config, r: Record, now: int, sessions: seq<Session>)
    requires now - r.lastRun >= 60 && r.len != 0
    ensures Step(cfg, r, Periodic(now, true, sessions)) == Drain(cfg, r, now, sessions).(lastRun := now)
  {}

  // ---------------------------------------------------------------- the rate bound

  /** `n` lines' worth of the deadline; kept apart so that products stay out of the way. */
  function Lines(cfg: Config, n: nat): (x: nat)
    ensures x == n * cfg.rateLine
  {
    if n == 0 then 0 else Lines(cfg, n - 1) + cfg.rateLine
  }

  /** Each message let through has pushed the deadline ahead, and none went through beyond the burst. */
  ghost predicate Paced(cfg: Config, r: Record) {
    && (forall i :: 0 <= i < |r.passed| ==> r.stop >= r.passed[i].time + Lines(cfg, |r.passed| - i))
    && (forall i, j :: 0 <= i < j < |r.passed| ==>
          Lines(cfg, j - i) <= r.passed[j].time - r.passed[i].time + cfg.rateMax)
  }

  lemma {:induction false} PacedLetThrough(cfg: Config, r: Record, m: Message, nick: string, now: int)
    requires Paced(cfg, r) && now <= r.stop <= now + cfg.rateMax
    ensures Paced(cfg, LetThrough(cfg, r, m, nick, now))
  {
    var r', n := LetThrough(cfg, r, m, nick, now), |r.passed|;
    forall i | 0 <= i <= n ensures r'.stop >= r'.passed[i].time + Lines(cfg, n + 1 - i) {
      assert Lines(cfg, n + 1 - i) == Lines(cfg, n - i) + cfg.rateLine;
    }
    forall i | 0 <= i < n
      ensures Lines(cfg, n - i) <= r'.passed[n].time - r'.passed[i].time + cfg.rateMax
    {
      assert r.stop >= r.passed[i].time + Lines(cfg, n - i);
    }
  }

  lemma {:induction false} PacedDrain(cfg: Config, r: Record, now: int, sessions: seq<Session>)
    requires Paced(cfg, r)
    ensures Paced(cfg, Drain(cfg, r, now, sessions))
    decreases |r.queue|
  {
    if r.queue != [] {
      var r1 := r.(stop := Max(r.stop, now));
      if r1.stop <= now + cfg.rateMax {
        var p := Find(sessions, r.queue[0]);
        PacedServed(cfg, r, now, p);
        PacedDrain(cfg, Served(cfg, r, now, p), now, sessions);
      }
    }
  }

  lemma {:induction false} PacedServed(cfg: Config, r: Record, now: int, p: Option<Session>)
    requires Paced(cfg, r) && r.queue != [] && r.stop <= now + cfg.rateMax
    ensures Paced(cfg, Served(cfg, r, now, p))
  {
    if p.Some? {
      PacedLetThrough(cfg, r.(stop := Max(r.stop, now)), r.queue[0], p.value.nick, now);
    }
  }

  lemma {:induction false} PacedStep(cfg: Config, r: Record, e: Event)
    requires Paced(cfg, r)
    ensures Paced(cfg, Step(cfg, r, e))
  {
    match e
    case Message(name, nick, toname, channel, text, now, banned) =>
      PacedArrive(cfg, r, Message.Message(r.arrived, name, nick, toname, channel, text), now, banned);
    case Periodic(now, reachable, sessions) => PacedDeliver(cfg, r, now, reachable, sessions);
    case Command(_, _) => PacedStill(cfg, r, Step(cfg, r, e));
    case Raise(_) => PacedStill(cfg, r, Step(cfg, r, e));
    case Drop => PacedStill(cfg, r, Step(cfg, r, e));
  }

  lemma {:induction false} PacedStill(cfg: Config, r: Record, r': Record)
    requires Paced(cfg, r) && r'.passed == r.passed && r'.stop >= r.stop
    ensures Paced(cfg, r')
  {}

  lemma {:induction false} PacedDeliver(cfg: Config, r: Record, now: int, reachable: bool, sessions: seq<Session>)
    requires Paced(cfg, r)
    ensures Paced(cfg, Deliver(cfg, r, now, reachable, sessions))
  {
    if r.len == 0 || !reachable {
      PacedStill(cfg, r, Deliver(cfg, r, now, reachable, sessions));
    } else {
      PacedDrain(cfg, r, now, sessions);
      PacedStill(cfg, Drain(cfg, r, now, sessions), Drain(cfg, r, now, sessions).(lastRun := now));
    }
  }

  lemma {:induction false} PacedArrive(cfg: Config, r: Record, m: Message, now: int, banned: bool)
    requires Paced(cfg, r)
    ensures Paced(cfg, Arrive(cfg, r, m, now, banned).0)
  {
    var r1 := r.(arrived := r.arrived + 1, stop := Max(r.stop, now));
    PacedStill(cfg, r, r1);
    if !banned && r1.queue == [] && r1.stop <= now + cfg.rateMax {
      PacedLetThrough(cfg, r1, m, m.nick, now);
    } else {
      PacedStill(cfg, r, Arrive(cfg, r, m, now, banned).0);
    }
  }

  /**
   Over every run of a record: between any two accounted messages let through, directly or from
   the queue, the line charges of those from the first on fit into the time between them plus the
   allowed burst. With the first and the last of k messages this is
   (k - 1) * rateLine <= (t_k - t_1) + rateMax.
   */
  lemma {:induction false} RateBound(cfg: Config, name: string, start: int, es: seq<Event>)
    ensures var p := Run(cfg, Fresh(name, start), es).passed;
            forall i, j :: 0 <= i < j < |p| ==> (j - i) * cfg.rateLine <= p[j].time - p[i].time + cfg.rateMax
  {
    PacedRun(cfg, name, start, es);
    var p := Run(cfg, Fresh(name, start), es).passed;
    forall i, j | 0 <= i < j < |p| ensures (j - i) * cfg.rateLine <= p[j].time - p[i].time + cfg.rateMax {
      assert Lines(cfg, j - i) == (j - i) * cfg.rateLine;
    }
  }

  lemma {:induction false} PacedRun(cfg: Config, name: string, start: int, es: seq<Event>)
    ensures Paced(cfg, Run(cfg, Fresh(name, start), es))
  {
    if es != [] {
      PacedRun(cfg, name, start, es[..|es| - 1]);
      PacedStep(cfg, Run(cfg, Fresh(name, start), es[..|es| - 1]), es[|es| - 1]);
    }
  }

  // ---------------------------------------------------------------- order and conservation

  /** The messages let through so far, followed by those still queued. */
  function Kept(r: Record): (s: seq<Message>)
    ensures |s| == |r.passed| + |r.queue|
  {
    Messages(r.passed) + r.queue
  }

  ghost predicate InOrder(s: seq<Message>, bound: nat) {
    && (forall i, j :: 0 <= i < j < |s| ==> s[i].id < s[j].id)
    && (forall i :: 0 <= i < |s| ==> s[i].id < bound)
  }

  /** The same of what was let through and what is queued, apart. */
  ghost predicate Rising(passed: seq<Pass>, queue: seq<Message>, bound: nat) {
    && (forall i, j :: 0 <= i < j < |passed| ==> passed[i].msg.id < passed[j].msg.id)
    && (forall i, j :: 0 <= i < j < |queue| ==> queue[i].id < queue[j].id)
    && (forall i, j :: 0 <= i < |passed| && 0 <= j < |queue| ==> passed[i].msg.id < queue[j].id)
    && (forall i :: 0 <= i < |passed| ==> passed[i].msg.id < bound)
    && (forall i :: 0 <= i < |queue| ==> queue[i].id < bound)
  }

  lemma {:induction false} MessageAt(passed: seq<Pass>, i: nat)
    requires i < |passed|
    ensures Messages(passed)[i] == passed[i].msg
  {
    if i < |passed| - 1 {
      MessageAt(passed[..|passed| - 1], i);
    }
  }

  lemma {:induction false} RisingKept(r: Record)
    requires Rising(r.passed, r.queue, r.arrived)
    ensures InOrder(Kept(r), r.arrived)
  {
    var s, n := Kept(r), |r.passed|;
    forall i | 0 <= i < |s| ensures s[i] == if i < n then r.passed[i].msg else r.queue[i - n] {
      if i < n {
        MessageAt(r.passed, i);
      }
    }
  }

  /** The queue's length counter is right, no queued text is empty, and with bans on it stays bounded. */
  ghost predicate Counted(cfg: Config, queue: seq<Message>, len: int) {
    && len == TextSum(queue)
    && (forall i :: 0 <= i < |queue| ==> queue[i].text != "")
    && (cfg.doBan ==> len <= FLOODSIZE)
  }

  ghost predicate Orderly(cfg: Config, r: Record) {
    Rising(r.passed, r.queue, r.arrived) && Counted(cfg, r.queue, r.len)
  }

  lemma {:induction false} TextSumAppend(q: seq<Message>, m: Message)
    ensures TextSum(q + [m]) == TextSum(q) + |m.text|
  {
    if q == [] {
      assert q + [m] == [m] && [m][1..] == [];
    } else {
      assert (q + [m])[1..] == q[1..] + [m];
      TextSumAppend(q[1..], m);
    }
  }

  lemma {:induction false} TextSumPositive(q: seq<Message>)
    requires forall i :: 0 <= i < |q| ==> q[i].text != ""
    ensures TextSum(q) >= |q|
  {
    if q != [] {
      TextSumPositive(q[1..]);
    }
  }

  lemma {:induction false} RisingQueued(passed: seq<Pass>, queue: seq<Message>, m: Message, bound: nat)
    requires Rising(passed, queue, bound) && m.id == bound
    ensures Rising(passed, queue + [m], bound + 1)
  {}

  lemma {:induction false} RisingServed(passed: seq<Pass>, queue: seq<Message>, now: int, bound: nat)
    requires Rising(passed, queue, bound) && queue != []
    ensures Rising(passed, queue[1..], bound) && Rising(passed + [Pass(queue[0], now)], queue[1..], bound)
  {}

  /** What counts is what was let through and what is queued. */
  lemma {:induction false} OrderlyStill(cfg: Config, r: Record, r': Record)
    requires Orderly(cfg, r) && r'.passed == r.passed && r'.queue == r.queue && r'.len == r.len && r'.arrived >= r.arrived
    ensures Orderly(cfg, r')
  {}

  lemma {:induction false} OrderlyFreed(cfg: Config, r: Record)
    requires Orderly(cfg, r)
    ensures Orderly(cfg, Freed(r))
  {}

  lemma {:induction false} CountedQueued(cfg: Config, queue: seq<Message>, len: int, m: Message)
    requires Counted(cfg, queue, len) && m.text != "" && (cfg.doBan ==> len + |m.text| <= FLOODSIZE)
    ensures Counted(cfg, queue + [m], len + |m.text|)
  {
    TextSumAppend(queue, m);
  }

  lemma {:induction false} OrderlyServed(cfg: Config, r: Record, now: int, p: Option<Session>)
    requires Orderly(cfg, r) && r.queue != []
    ensures Orderly(cfg, Served(cfg, r, now, p))
  {
    RisingServed(r.passed, r.queue, now, r.arrived);
  }

  lemma {:induction false} OrderlyDrain(cfg: Config, r: Record, now: int, sessions: seq<Session>)
    requires Orderly(cfg, r)
    ensures Orderly(cfg, Drain(cfg, r, now, sessions))
    decreases |r.queue|
  {
    if r.queue != [] {
      var r1, p := r.(stop := Max(r.stop, now)), Find(sessions, r.queue[0]);
      OrderlyStill(cfg, r, r1);
      if r1.stop <= now + cfg.rateMax {
        OrderlyServed(cfg, r, now, p);
        OrderlyDrain(cfg, Served(cfg, r, now, p), now, sessions);
      }
    }
  }

  /** What may become of a message: it is dropped, and the queue perhaps with it; it is queued; or it is let through. */
  predicate Taken(cfg: Config, r: Record, after: Record, m: Message, now: int) {
    && after.arrived == r.arrived + 1
    && if after.passed == r.passed then
         || (after.queue == r.queue && after.len == r.len) || (after.queue == [] && after.len == 0)
         || (after.queue == r.queue + [m] && after.len == r.len + |m.text| && m.text != "" && (cfg.doBan ==> after.len <= FLOODSIZE))
       else r.queue == [] && after.queue == [] && after.len == r.len && after.passed == r.passed + [Pass(m, now)]
  }

  lemma {:induction false} ArriveTakes(cfg: Config, r: Record, m: Message, now: int, banned: bool)
    ensures Taken(cfg, r, Arrive(cfg, r, m, now, banned).0, m, now)
  {}

  lemma {:induction false} OrderlyTaken(cfg: Config, r: Record, after: Record, m: Message, now: int)
    requires Orderly(cfg, r) && m.id == r.arrived && Taken(cfg, r, after, m, now)
    ensures Orderly(cfg, after)
  {
    if after.passed == r.passed && after.queue == r.queue + [m] {
      CountedQueued(cfg, r.queue, r.len, m);
      RisingQueued(r.passed, r.queue, m, m.id);
    }
  }

  lemma {:induction false} OrderlyArrive(cfg: Config, r: Record, m: Message, now: int, banned: bool)
    requires Orderly(cfg, r) && m.id == r.arrived
    ensures Orderly(cfg, Arrive(cfg, r, m, now, banned).0)
  {
    ArriveTakes(cfg, r, m, now, banned);
    OrderlyTaken(cfg, r, Arrive(cfg, r, m, now, banned).0, m, now);
  }

  lemma {:induction false} OrderlyDeliver(cfg: Config, r: Record, now: int, reachable: bool, sessions: seq<Session>)
    requires Orderly(cfg, r)
    ensures Orderly(cfg, Deliver(cfg, r, now, reachable, sessions))
  {
    if r.len == 0 {
      OrderlyStill(cfg, r, r.(lastRun := now));
    } else if !reachable {
      OrderlyFreed(cfg, r);
      OrderlyStill(cfg, Freed(r), Freed(r).(lastRun := now));
    } else {
      var r1 := Drain(cfg, r, now, sessions);
      OrderlyDrain(cfg, r, now, sessions);
      OrderlyStill(cfg, r1, r1.(lastRun := now));
    }
  }

  lemma {:induction false} OrderlyStep(cfg: Config, r: Record, e: Event)
    requires Orderly(cfg, r)
    ensures Orderly(cfg, Step(cfg, r, e))
  {
    match e
    case Message(name, nick, toname, channel, text, now, banned) =>
      OrderlyArrive(cfg, r, Message.Message(r.arrived, name, nick, toname, channel, text), now, banned);
    case Periodic(now, reachable, sessions) => OrderlyDeliver(cfg, r, now, reachable, sessions);
    case Command(_, _) => OrderlyStill(cfg, r, Step(cfg, r, e));
    case Raise(_) => OrderlyStill(cfg, r, Step(cfg, r, e));
    case Drop => OrderlyFreed(cfg, r);
  }

  /**
   Over every run of a record: what was let through, followed by what is queued, is in order of
   arrival without repetition; the counter is the length of the queued text, zero exactly when
   nothing is queued, and never above the flood size while bans are on.
   */
  lemma {:induction false} QueueOrder(cfg: Config, name: string, start: int, es: seq<Event>)
    ensures var r := Run(cfg, Fresh(name, start), es);
            && InOrder(Kept(r), r.arrived)
            && r.len == TextSum(r.queue) && (r.len == 0 <==> r.queue == [])
            && (cfg.doBan ==> r.len <= FLOODSIZE)
  {
    OrderlyRun(cfg, name, start, es);
    RisingKept(Run(cfg, Fresh(name, start), es));
    TextSumPositive(Run(cfg, Fresh(name, start), es).queue);
  }

  lemma {:induction false} OrderlyRun(cfg: Config, name: string, start: int, es: seq<Event>)
    ensures Orderly(cfg, Run(cfg, Fresh(name, start), es))
  {
    if es != [] {
      OrderlyRun(cfg, name, start, es[..|es| - 1]);
      OrderlyStep(cfg, Run(cfg, Fresh(name, start), es[..|es| - 1]), es[|es| - 1]);
    }
  }

  // ---------------------------------------------------------------- the record in the daemon

  class UserRecord {
    const cfg: Config
    const name: string
    var stopProcessUntil: int
    var delayQueue: seq<Message>
    var delayQueueLen: int
    var lastRun: int
    var arrived: nat
    ghost var passed: seq<Pass>

    ghost function View(): Record
      reads this
    {
      Record(name, stopProcessUntil, delayQueue, delayQueueLen, lastRun, arrived, passed)
    }

    constructor (cfg: Config, name: string, now: int)
      ensures this.cfg == cfg && View() == Fresh(name, now)
    {
      this.cfg, this.name := cfg, name;
      stopProcessUntil, delayQueue, delayQueueLen, lastRun, arrived, passed := now, [], 0, 0, 0, [];
    }

    method UpdateRateLimit(name: string, nick: string, text: string)
      modifies this`stopProcessUntil
      ensures View() == old(View()).(stop := old(stopProcessUntil) + Charge(cfg, name, nick, text))
    {
      var ratelimit := 0;
      if cfg.rateLine > 0 {
        ratelimit := ratelimit + cfg.rateLine;
      }
      if cfg.rateContent > 0 {
        var content := if |text| + |name| > STD_CALL then |name|
                       else 0 + if name != nick then (if |nick| > STD_CALL then 2 * |nick| else |nick|) else 0;
        OverDivides(content, cfg.rateContent);
        ratelimit := ratelimit + content / cfg.rateContent;
      }
      stopProcessUntil := stopProcessUntil + ratelimit;
    }

    method FreeDelayQueue()
      modifies this`delayQueue, this`delayQueueLen
      ensures View() == Freed(old(View()))
    {
      delayQueue := [];
      delayQueueLen := 0;
    }

    method AddToDelayQueue(m: Message)
      modifies this`delayQueue, this`delayQueueLen
      ensures View() == Enqueue(cfg, old(View()), m)
    {
      if |m.text| == 0 {
        return;
      }
      if delayQueueLen + |m.text| > FLOODSIZE && cfg.doBan {
        // a message to the user's own name may be spoofed: dropped, but no ban
        if m.toname.Some? && name == Tidy(m.toname.value) {
          return;
        }
        if Tidy(m.name) == "" || Tidy(m.name) == "conversd" {
          return;
        }
        FreeDelayQueue();
        return;
      }
      delayQueueLen := delayQueueLen + |m.text|;
      delayQueue := delayQueue + [m];
    }

    /** Whether the message must not be sent now. With the limiter `off`, and for the daemon's own messages, nothing is counted. */
    method CheckMsgFlood(name: string, nick: string, toname: Option<string>, channel: int, text: string,
                         now: int, off: bool, banned: bool) returns (blocked: bool)
      modifies this
      ensures off || name == "conversd" ==> !blocked && View() == old(View())
      ensures !off && name != "conversd" ==>
                && View() == Step(cfg, old(View()), Event.Message(name, nick, toname, channel, text, now, banned))
                && (blocked <==> passed == old(passed))
    {
      if off || name == "conversd" {
        return false;
      }
      var m := Message.Message(arrived, name, nick, toname, channel, text);
      arrived := arrived + 1;
      if banned {
        return true;
      }
      if now > stopProcessUntil {
        stopProcessUntil := now;
      }
      if delayQueue != [] || stopProcessUntil > now + cfg.rateMax {
        AddToDelayQueue(m);
        return true;
      }
      UpdateRateLimit(m.name, m.nick, m.text);
      passed := passed + [Pass(m, now)];
      return false;
    }

    method FindSession(sessions: seq<Session>, m: Message) returns (p: Option<Session>)
      ensures p == Find(sessions, m)
    {
      p := None;
      var i := 0;
      while i < |sessions|
        invariant 0 <= i <= |sessions| && Find(sessions, m) == Find(sessions[i..], m)
      {
        var sp := sessions[i];
        assert sessions[i..][1..] == sessions[i + 1..];
        if sp.isUser && sp.name == m.name && (m.toname.Some? || sp.channel == m.channel || m.channel in sp.joined) {
          return Some(sp);
        }
        i := i + 1;
      }
    }

    method SendDelayedMessages(now: int, reachable: bool, sessions: seq<Session>)
      modifies this
      ensures View() == Step(cfg, old(View()), Periodic(now, reachable, sessions))
    {
      if now - lastRun < 60 {
        return;
      }
      if delayQueueLen != 0 {
        if !reachable {
          FreeDelayQueue();
        } else {
          while delayQueue != []
            invariant Drain(cfg, View(), now, sessions) == Drain(cfg, old(View()), now, sessions)
            decreases |delayQueue|
          {
            var qp := delayQueue[0];
            if now > stopProcessUntil {
              stopProcessUntil := now;
            }
            if stopProcessUntil > now + cfg.rateMax {
              break;
            }
            var p := FindSession(sessions, qp);
            ServeHead(now, p);
          }
          assert View() == Drain(cfg, old(View()), now, sessions);
        }
      }
      lastRun := now;
    }

    /** The head of the queue is sent from login `p`, or dropped if there is none. */
    method ServeHead(now: int, p: Option<Session>)
      requires delayQueue != [] && stopProcessUntil >= now
      modifies this
      ensures View() == Served(cfg, old(View()), now, p)
    {
      var qp := delayQueue[0];
      if p.Some? {
        UpdateRateLimit(qp.name, p.value.nick, qp.text);
        passed := passed + [Pass(qp, now)];
      }
      delayQueueLen := delayQueueLen - |qp.text|;
      delayQueue := delayQueue[1..];
    }
  }
}
