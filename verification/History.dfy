/**
 The history of a channel: lines go in at the end and come out at the front, by age and by number.
 */
module History {
  datatype Line = Line(time: int, from: string, text: string)

  const MaxLines := 64   // CHIST_MAXLINES

  /** Division as in C: towards zero. */
  function Quotient(a: int, b: int): int
    requires b > 0
  {
    if a >= 0 then a / b else -((-a) / b)
  }

  /** A line is too old when more than `expires` whole minutes have passed. */
  predicate TooOld(l: Line, now: int, expires: int) {
    var age := now - l.time;
    if age >= 0 then age >= 60 * (expires + 1) else age > 60 * expires
  }

  lemma {:induction false} TooOldInMinutes(l: Line, now: int, expires: int)
    ensures TooOld(l, now, expires) <==> Quotient(now - l.time, 60) > expires
  {
    var age := now - l.time;
    var minutes := Quotient(age, 60);
    if age >= 0 {
      assert 60 * minutes <= age < 60 * (minutes + 1);
    } else {
      assert -60 * minutes <= -age < 60 * (-minutes + 1);
    }
  }

  /** How many lines an expiry pass keeps; 0 for any number. */
  function Limit(keep: int, most: int, expires: int): int {
    if keep <= 0 || keep > most then
      if most < 0 || (most == 0 && expires <= 0) then MaxLines else most
    else keep
  }

  /** Without the old lines at the front. */
  function Young(lines: seq<Line>, now: int, expires: int): seq<Line> {
    if lines != [] && TooOld(lines[0], now, expires) then Young(lines[1..], now, expires) else lines
  }

  /** The last `n` lines, or all of them. */
  function Tail(lines: seq<Line>, n: nat): seq<Line> {
    if |lines| <= n then lines else lines[|lines| - n..]
  }

  /** What an expiry pass leaves. */
  function Left(lines: seq<Line>, keep: int, most: int, expires: int, now: int): seq<Line> {
    var limit := Limit(keep, most, expires);
    var young := Young(lines, now, expires);
    if limit <= 0 then young else Tail(young, limit)
  }

  /** The history after line `l` was added. */
  function WithLine(lines: seq<Line>, most: int, expires: int, l: Line): seq<Line> {
    Left(lines, most - 1, most, expires, l.time) + [l]
  }

  /** The history after an attempt to add line `l` to a channel that is not hidden; without a history nothing is added. */
  function AfterAdd(lines: seq<Line>, most: int, expires: int, l: Line): seq<Line> {
    if most < 0 then lines else WithLine(lines, most, expires, l)
  }

  /** Times do not decrease. */
  ghost predicate InTime(lines: seq<Line>) {
    forall i, j :: 0 <= i < j < |lines| ==> lines[i].time <= lines[j].time
  }

  /** `lines` are the last of what was added. */
  ghost predicate Latest(lines: seq<Line>, added: seq<Line>) {
    |lines| <= |added| && lines == added[|added| - |lines|..]
  }

  ghost predicate NoneOld(lines: seq<Line>, now: int, expires: int) {
    forall i :: 0 <= i < |lines| ==> !TooOld(lines[i], now, expires)
  }

  /** Lines that were added in time are in time. */
  lemma {:induction false} LatestInTime(lines: seq<Line>, added: seq<Line>)
    requires Latest(lines, added) && InTime(added)
    ensures InTime(lines)
  {}

  lemma {:induction false} LatestLess(lines: seq<Line>, added: seq<Line>, n: nat)
    requires Latest(lines, added) && n <= |lines|
    ensures Latest(lines[n..], added)
  {}

  lemma {:induction false} LatestMore(lines: seq<Line>, added: seq<Line>, l: Line)
    requires Latest(lines, added)
    ensures Latest(lines + [l], added + [l])
  {
    var n := |added| - |lines|;
    assert (added + [l])[n..] == added[n..] + [l];
  }

  /** Dropping old lines leaves the latest ones, and if the clock did not run backwards, none that is old. */
  lemma {:induction false} YoungLatest(lines: seq<Line>, added: seq<Line>, now: int, expires: int)
    requires Latest(lines, added)
    ensures Latest(Young(lines, now, expires), added)
    ensures InTime(lines) ==> NoneOld(Young(lines, now, expires), now, expires)
  {
    if lines != [] && TooOld(lines[0], now, expires) {
      LatestLess(lines, added, 1);
      YoungLatest(lines[1..], added, now, expires);
    }
  }

  /** An expiry pass leaves the latest lines, none of them old, and not more than its limit. */
  lemma {:induction false} LeftLatest(lines: seq<Line>, added: seq<Line>, keep: int, most: int, expires: int, now: int)
    requires Latest(lines, added)
    ensures Latest(Left(lines, keep, most, expires, now), added)
    ensures Limit(keep, most, expires) > 0 ==> |Left(lines, keep, most, expires, now)| <= Limit(keep, most, expires)
    ensures InTime(lines) ==> NoneOld(Left(lines, keep, most, expires, now), now, expires)
  {
    YoungLatest(lines, added, now, expires);
    var young, limit := Young(lines, now, expires), Limit(keep, most, expires);
    if 0 < limit < |young| {
      LatestLess(young, added, |young| - limit);
    }
  }

  /** Nothing is dropped without need: every line that goes was too old, or there are as many after it as the limit allows. */
  lemma {:induction false} NothingWasted(lines: seq<Line>, keep: int, most: int, expires: int, now: int) returns (n: nat)
    ensures var left, limit := Left(lines, keep, most, expires, now), Limit(keep, most, expires);
            && n <= |lines| && left == lines[n..]
            && (n > 0 ==> TooOld(lines[n - 1], now, expires) || (limit > 0 && |left| == limit))
  {
    var k := YoungRest(lines, now, expires);
    var young, limit := Young(lines, now, expires), Limit(keep, most, expires);
    n := k;
    if 0 < limit < |young| {
      n := |lines| - limit;
      assert lines[k..][|young| - limit..] == lines[n..];
    }
  }

  lemma {:induction false} YoungRest(lines: seq<Line>, now: int, expires: int) returns (k: nat)
    ensures k <= |lines| && Young(lines, now, expires) == lines[k..] && (k > 0 ==> TooOld(lines[k - 1], now, expires))
  {
    k := 0;
    if lines != [] && TooOld(lines[0], now, expires) {
      var j := YoungRest(lines[1..], now, expires);
      k := j + 1;
      assert lines[1..][j..] == lines[k..];
    }
  }

  class ChannelHistory {
    var lines: seq<Line>
    ghost var added: seq<Line>   // since the history was last cleared
    const most: int
    const expires: int

    /** The lines are the last of what was added, and the clock did not run backwards. */
    ghost predicate Valid()
      reads this
    {
      Latest(lines, added) && InTime(added)
    }

    constructor (most: int, expires: int)
      ensures Valid() && lines == [] && added == [] && this.most == most && this.expires == expires
    {
      lines, added := [], [];
      this.most, this.expires := most, expires;
    }

    /** Drops old lines, and then the first of too many; `keep` below -1 drops all. */
    method Expire(keep: int, now: int)
      requires Valid()
      modifies this
      ensures Valid()
      ensures if keep < -1 then lines == [] && added == [] else lines == Left(old(lines), keep, most, expires, now) && added == old(added)
      ensures NoneOld(lines, now, expires)
    {
      if keep < -1 {
        lines, added := [], [];
        return;
      }
      LatestInTime(lines, added);
      LeftLatest(lines, added, keep, most, expires, now);
      DropOld(now);
      var limit := Limit(keep, most, expires);
      if lines != [] && limit != 0 {
        DropMany(limit);
      }
    }

    method DropOld(now: int)
      modifies this`lines
      ensures lines == Young(old(lines), now, expires)
    {
      while lines != [] && TooOld(lines[0], now, expires)
        invariant Young(lines, now, expires) == Young(old(lines), now, expires)
        decreases |lines|
      {
        lines := lines[1..];
      }
    }

    method DropMany(limit: nat)
      modifies this`lines
      ensures lines == Tail(old(lines), limit)
    {
      var n := |lines|;
      while lines != [] && n > limit
        invariant n == |lines| && Tail(lines, limit) == Tail(old(lines), limit)
        decreases n
      {
        lines := lines[1..];
        n := n - 1;
      }
    }

    /** Adds a line, unless the channel is hidden or there is no history. */
    method Add(l: Line, hidden: bool)
      requires Valid() && InTime(added + [l])
      modifies this
      ensures Valid()
      ensures !(most < 0 || hidden) ==> lines != [] && NoneOld(lines[..|lines| - 1], l.time, expires)
      ensures lines == if hidden then old(lines) else AfterAdd(old(lines), most, expires, l)
      ensures added == if most < 0 || hidden then old(added) else old(added) + [l]
    {
      if most < 0 || hidden {
        return;
      }
      Expire(most - 1, l.time);
      LatestMore(lines, added, l);
      lines, added := lines + [l], added + [l];
    }
  }

  /** After an add there are at most `most` lines, whatever the history was, exactly when `most` is at least 2. */
  lemma {:induction false} BoundExact(most: int, expires: int)
    ensures most >= 2 <==> forall lines, l :: |AfterAdd(lines, most, expires, l)| <= most
  {
    forall lines, l | most >= 2 ensures |AfterAdd(lines, most, expires, l)| <= most {
      LeftLatest(lines, lines, most - 1, most, expires, l.time);
    }
    if most < 2 {
      var lines, l := OneTooMany(most, expires);
    }
  }

  /** With a limit of one line there may be two: the pass that is to leave none leaves one. */
  lemma {:induction false} OneTooMany(most: int, expires: int) returns (lines: seq<Line>, l: Line)
    requires most < 2
    ensures |AfterAdd(lines, most, expires, l)| > most
  {
    l := Line(0, "", "");
    var m := Line(if expires >= 0 then 0 else -60 * expires, "", "");
    lines := [m];
    assert Young(lines, l.time, expires) == lines;
  }
}
