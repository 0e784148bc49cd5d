/**
 The topic table: a topic is kept unless a newer one comes. Times are in milliseconds and are compared
 by the second.
 */
module Topics {
  datatype Call = Call(channel: int, text: string, setBy: string, setAt: int)

  datatype Topic = Topic(text: string, setBy: string, second: int)

  type Table = map<int, Topic>

  function ToUnix(ms: int): int {
    ms / 1000
  }

  function Entry(c: Call, normalize: string -> string): Topic {
    Topic(c.text, normalize(c.setBy), ToUnix(c.setAt))
  }

  function Upsert(table: Table, c: Call, normalize: string -> string): Table {
    if c.channel in table && table[c.channel].second >= ToUnix(c.setAt) then table
    else table[c.channel := Entry(c, normalize)]
  }

  function UpsertAll(table: Table, calls: seq<Call>, normalize: string -> string): Table {
    if calls == [] then table
    else Upsert(UpsertAll(table, calls[..|calls| - 1], normalize), calls[|calls| - 1], normalize)
  }

  /** Call `i` is the earliest among those for its channel that have the greatest second. */
  ghost predicate Newest(calls: seq<Call>, i: nat) {
    && i < |calls|
    && (forall j :: 0 <= j < |calls| && calls[j].channel == calls[i].channel ==>
          && ToUnix(calls[j].setAt) <= ToUnix(calls[i].setAt)
          && (j < i ==> ToUnix(calls[j].setAt) < ToUnix(calls[i].setAt)))
  }

  /** From an empty table, the stored topic of a channel is the newest one, and of equally new ones the first. */
  lemma {:induction false} NewestWins(calls: seq<Call>, ch: int, normalize: string -> string) returns (i: nat)
    ensures ch in UpsertAll(map[], calls, normalize) <==> exists j :: 0 <= j < |calls| && calls[j].channel == ch
    ensures ch in UpsertAll(map[], calls, normalize) ==>
              Newest(calls, i) && calls[i].channel == ch && UpsertAll(map[], calls, normalize)[ch] == Entry(calls[i], normalize)
  {
    i := 0;
    if calls != [] {
      var n := |calls| - 1;
      var rest := calls[..n];
      i := NewestWins(rest, ch, normalize);
      assert forall j :: 0 <= j < n ==> rest[j] == calls[j];
      var before := UpsertAll(map[], rest, normalize);
      if calls[n].channel == ch && !(ch in before && before[ch].second >= ToUnix(calls[n].setAt)) {
        i := n;
      }
    }
  }

  /** The stored second of a channel never decreases, and a channel does not lose its topic. */
  lemma {:induction false} NeverOlder(table: Table, calls: seq<Call>, ch: int, normalize: string -> string)
    requires ch in table
    ensures ch in UpsertAll(table, calls, normalize) && UpsertAll(table, calls, normalize)[ch].second >= table[ch].second
  {
    if calls != [] {
      NeverOlder(table, calls[..|calls| - 1], ch, normalize);
    }
  }

  /** No two calls for one channel have the same second. */
  ghost predicate DistinctTimes(calls: seq<Call>) {
    forall i, j :: 0 <= i < j < |calls| && calls[i].channel == calls[j].channel ==> ToUnix(calls[i].setAt) != ToUnix(calls[j].setAt)
  }

  /** With different times, the order in which the calls come makes no difference. */
  lemma {:induction false} Converges(a: seq<Call>, b: seq<Call>, normalize: string -> string)
    requires multiset(a) == multiset(b) && DistinctTimes(a)
    ensures UpsertAll(map[], a, normalize) == UpsertAll(map[], b, normalize)
  {
    var ta, tb := UpsertAll(map[], a, normalize), UpsertAll(map[], b, normalize);
    forall ch ensures ch in ta <==> ch in tb
      ensures ch in ta ==> ta[ch] == tb[ch]
    {
      ConvergesAt(a, b, ch, normalize);
    }
  }

  lemma {:induction false} ConvergesAt(a: seq<Call>, b: seq<Call>, ch: int, normalize: string -> string)
    requires multiset(a) == multiset(b) && DistinctTimes(a)
    ensures ch in UpsertAll(map[], a, normalize) <==> ch in UpsertAll(map[], b, normalize)
    ensures ch in UpsertAll(map[], a, normalize) ==> UpsertAll(map[], a, normalize)[ch] == UpsertAll(map[], b, normalize)[ch]
  {
    SameCalls(a, b);
    SameCalls(b, a);
    var i := NewestWins(a, ch, normalize);
    var j := NewestWins(b, ch, normalize);
    if ch in UpsertAll(map[], a, normalize) {
      var k :| 0 <= k < |b| && b[k] == a[i];
      SameNewest(a, b, i, j, k);
    }
  }

  /** The newest of both orders is the same call. */
  lemma {:induction false} SameNewest(a: seq<Call>, b: seq<Call>, i: nat, j: nat, k: nat)
    requires multiset(a) == multiset(b) && DistinctTimes(a) && Newest(a, i) && Newest(b, j)
    requires k < |b| && b[k] == a[i] && a[i].channel == b[j].channel
    ensures a[i] == b[j]
  {
    SameCalls(b, a);
    var l :| 0 <= l < |a| && a[l] == b[j];
    assert ToUnix(a[i].setAt) == ToUnix(a[l].setAt);
    assert l == i;
  }

  lemma {:induction false} SameCalls(a: seq<Call>, b: seq<Call>)
    requires multiset(a) == multiset(b)
    ensures forall i :: 0 <= i < |a| ==> exists j :: 0 <= j < |b| && b[j] == a[i]
  {
    forall i | 0 <= i < |a| ensures exists j :: 0 <= j < |b| && b[j] == a[i] {
      assert a[i] in multiset(a);
      assert a[i] in multiset(b);
      assert a[i] in b;
    }
  }

  class Store {
    var topics: Table
    const normalize: string -> string

    constructor (normalize: string -> string)
      ensures topics == map[] && this.normalize == normalize
    {
      topics, this.normalize := map[], normalize;
    }

    method UpsertTopic(c: Call) returns (took: bool)
      modifies this`topics
      ensures topics == Upsert(old(topics), c, normalize)
      ensures took <==> !(c.channel in old(topics) && old(topics)[c.channel].second >= ToUnix(c.setAt))
    {
      var setAt := ToUnix(c.setAt);
      if c.channel in topics && topics[c.channel].second >= setAt {
        return false;
      }
      topics := topics[c.channel := Topic(c.text, normalize(c.setBy), setAt)];
      took := true;
    }
  }
}
