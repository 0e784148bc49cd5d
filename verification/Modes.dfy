/**
 The channel-mode toggle language, in two dialects: the loop of the daemon's mode command for a line
 from another host, and the library's `Apply`. A set of modes stands for the word of flag bits.
 */
module Modes {
  import opened Common

  datatype Mode = Secret | Private | TopicLocked | Invisible | Moderated | Local

  datatype Dialect = Daemon | Library

  /** The flags, and whether a minus is in force. */
  datatype State = State(flags: set<Mode>, removing: bool)

  function LetterOf(c: char): Option<Mode> {
    match c
    case 's' => Some(Secret)
    case 'S' => Some(Secret)
    case 'p' => Some(Private)
    case 'P' => Some(Private)
    case 't' => Some(TopicLocked)
    case 'T' => Some(TopicLocked)
    case 'i' => Some(Invisible)
    case 'I' => Some(Invisible)
    case 'm' => Some(Moderated)
    case 'M' => Some(Moderated)
    case 'l' => Some(Local)
    case 'L' => Some(Local)
    case _ => None
  }

  /** On channel 0 the library knows the topic lock only; the daemon also lets other modes be taken away. */
  predicate Counts(dialect: Dialect, zero: bool, removing: bool, m: Mode) {
    !zero || m == TopicLocked || (dialect == Daemon && removing)
  }

  function Toggle(dialect: Dialect, zero: bool, st: State, c: char): State {
    if c == '+' then st.(removing := false)
    else if c == '-' then st.(removing := true)
    else match LetterOf(c)
      case None => st
      case Some(m) =>
        if !Counts(dialect, zero, st.removing, m) then st
        else if st.removing then st.(flags := st.flags - {m})
        else st.(flags := st.flags + {m})
  }

  function Fold(dialect: Dialect, zero: bool, st: State, s: string): State {
    if s == [] then st else Toggle(dialect, zero, Fold(dialect, zero, st, s[..|s| - 1]), s[|s| - 1])
  }

  // ---------------------------------------------------------------- what the language means

  /** A minus is in force at the end of `s`: there is one with no plus after it. */
  ghost predicate Minus(s: string) {
    exists i :: 0 <= i < |s| && s[i] == '-' && forall j :: i < j < |s| ==> s[j] != '+'
  }

  /** Position `i` is an effective occurrence of the letter of `m`. */
  ghost predicate Hit(dialect: Dialect, zero: bool, s: string, i: int, m: Mode) {
    0 <= i < |s| && LetterOf(s[i]) == Some(m) && Counts(dialect, zero, Minus(s[..i]), m)
  }

  lemma {:induction false} MinusStep(s: string)
    requires s != []
    ensures var t, c := s[..|s| - 1], s[|s| - 1]; Minus(s) <==> c == '-' || (c != '+' && Minus(t))
  {
    var t, c := s[..|s| - 1], s[|s| - 1];
    if Minus(s) {
      var i :| 0 <= i < |s| && s[i] == '-' && forall j :: i < j < |s| ==> s[j] != '+';
      if i < |t| {
        assert t[i] == '-' && forall j :: i < j < |t| ==> t[j] == s[j];
      }
    }
    if c == '-' {
      assert s[|s| - 1] == '-';
    } else if c != '+' && Minus(t) {
      var i :| 0 <= i < |t| && t[i] == '-' && forall j :: i < j < |t| ==> t[j] != '+';
      assert s[i] == '-' && forall j :: i < j < |s| ==> s[j] != '+';
    }
  }

  lemma {:induction false} SignMeaning(dialect: Dialect, zero: bool, start: set<Mode>, s: string)
    ensures Fold(dialect, zero, State(start, false), s).removing <==> Minus(s)
  {
    if s != [] {
      SignMeaning(dialect, zero, start, s[..|s| - 1]);
      MinusStep(s);
    }
  }

  /** Position `i` is the last effective occurrence of the letter of `m`. */
  ghost predicate LastHit(dialect: Dialect, zero: bool, s: string, i: int, m: Mode) {
    Hit(dialect, zero, s, i, m) && forall j :: j > i ==> !Hit(dialect, zero, s, j, m)
  }

  lemma {:induction false} HitBefore(dialect: Dialect, zero: bool, s: string, i: int, m: Mode)
    requires s != []
    ensures Hit(dialect, zero, s[..|s| - 1], i, m) <==> Hit(dialect, zero, s, i, m) && i != |s| - 1
  {
    if 0 <= i < |s| - 1 {
      assert s[..|s| - 1][..i] == s[..i];
    }
  }

  /** The last letter decides if it is effective, and else changes nothing. */
  lemma {:induction false} LastLetter(dialect: Dialect, zero: bool, start: set<Mode>, s: string, m: Mode)
    requires s != []
    ensures m in Fold(dialect, zero, State(start, false), s).flags <==>
            if Hit(dialect, zero, s, |s| - 1, m) then !Minus(s[..|s| - 1])
            else m in Fold(dialect, zero, State(start, false), s[..|s| - 1]).flags
  {
    SignMeaning(dialect, zero, start, s[..|s| - 1]);
  }

  /** A mode ends as the sign in force at the last effective occurrence of its letter, or as it was. */
  lemma {:induction false} ModeMeaning(dialect: Dialect, zero: bool, start: set<Mode>, s: string, m: Mode)
    ensures (forall i :: !Hit(dialect, zero, s, i, m)) ==>
              (m in Fold(dialect, zero, State(start, false), s).flags <==> m in start)
    ensures forall i :: LastHit(dialect, zero, s, i, m) ==>
              (m in Fold(dialect, zero, State(start, false), s).flags <==> !Minus(s[..i]))
  {
    if s != [] {
      var n := |s| - 1;
      ModeMeaning(dialect, zero, start, s[..n], m);
      LastLetter(dialect, zero, start, s, m);
      forall i ensures Hit(dialect, zero, s[..n], i, m) <==> Hit(dialect, zero, s, i, m) && i != n {
        HitBefore(dialect, zero, s, i, m);
      }
      forall i | LastHit(dialect, zero, s, i, m)
        ensures m in Fold(dialect, zero, State(start, false), s).flags <==> !Minus(s[..i])
      {
        if i < n {
          assert LastHit(dialect, zero, s[..n], i, m) && s[..n][..i] == s[..i];
        }
      }
    }
  }

  // ---------------------------------------------------------------- the two dialects

  /** The modes other than the topic lock that `s` takes away. */
  function Cleared(s: string): set<Mode> {
    if s == [] then {}
    else
      var m := LetterOf(s[|s| - 1]);
      Cleared(s[..|s| - 1]) +
      if m.Some? && m.value != TopicLocked && Fold(Daemon, false, State({}, false), s[..|s| - 1]).removing then {m.value} else {}
  }

  lemma {:induction false} SameSign(zero: bool, a: set<Mode>, s: string, dialect: Dialect)
    ensures Fold(dialect, zero, State(a, false), s).removing == Fold(Daemon, false, State({}, false), s).removing
  {
    if s != [] {
      SameSign(zero, a, s[..|s| - 1], dialect);
    }
  }

  /** That is, those with a letter under a minus. */
  lemma {:induction false} ClearedMeaning(s: string, m: Mode)
    ensures m in Cleared(s) <==> m != TopicLocked && exists i :: 0 <= i < |s| && LetterOf(s[i]) == Some(m) && Minus(s[..i])
  {
    if s != [] {
      var n := |s| - 1;
      var t := s[..n];
      ClearedMeaning(t, m);
      SignMeaning(Daemon, false, {}, t);
      assert forall i :: 0 <= i < n ==> t[..i] == s[..i] && t[i] == s[i];
      if LetterOf(s[n]) == Some(m) && Minus(t) {
        assert s[..n] == t;
      } else {
        assert forall i :: 0 <= i < |s| && LetterOf(s[i]) == Some(m) && Minus(s[..i]) ==> i < n;
      }
    }
  }

  /** On channel 0 the library keeps everything but the topic lock; the daemon also clears. */
  lemma {:induction false} ChannelZero(start: set<Mode>, s: string)
    ensures var lib := Fold(Library, true, State(start, false), s).flags;
            && lib - {TopicLocked} == start - {TopicLocked}
            && Fold(Daemon, true, State(start, false), s).flags == lib - Cleared(s) && TopicLocked !in Cleared(s)
  {
    if s != [] {
      ChannelZero(start, s[..|s| - 1]);
      SameSign(true, start, s[..|s| - 1], Daemon);
      SameSign(true, start, s[..|s| - 1], Library);
    }
  }

  lemma {:induction false} OtherChannels(start: set<Mode>, s: string)
    ensures Fold(Daemon, false, State(start, false), s) == Fold(Library, false, State(start, false), s)
  {
    if s != [] {
      OtherChannels(start, s[..|s| - 1]);
    }
  }

  /** The dialects agree everywhere but on channel 0, and there exactly when no mode that was set is taken away. */
  lemma {:induction false} DialectsAgree(zero: bool, start: set<Mode>, s: string)
    ensures Fold(Daemon, zero, State(start, false), s).flags == Fold(Library, zero, State(start, false), s).flags
            <==> (zero ==> Cleared(s) !! start)
  {
    if zero {
      ChannelZero(start, s);
      var lib := Fold(Library, true, State(start, false), s).flags;
      assert forall m :: m != TopicLocked ==> (m in lib <==> m in lib - {TopicLocked});
      assert forall m :: m != TopicLocked ==> (m in start <==> m in start - {TopicLocked});
    } else {
      OtherChannels(start, s);
    }
  }

  /**
   They do differ: on channel 0 the daemon takes a secret mode away that the library keeps. (The daemon itself
   never sets another mode than the topic lock there, so from an empty start they agree: `ZeroRuns`.)
   */
  lemma {:induction false} DialectsDiffer()
    ensures Fold(Daemon, true, State({Secret}, false), "-s").flags == {}
    ensures Fold(Library, true, State({Secret}, false), "-s").flags == {Secret}
  {
    var s := "-s";
    assert s[..1] == "-" && "-"[..0] == "";
    assert Fold(Daemon, true, State({Secret}, false), s[..1]) == State({Secret}, true);
    assert Fold(Library, true, State({Secret}, false), s[..1]) == State({Secret}, true);
  }

  /** From a state within the topic lock both stay there and agree. */
  lemma {:induction false} ZeroWithinLock(start: set<Mode>, s: string)
    requires start <= {TopicLocked}
    ensures Fold(Daemon, true, State(start, false), s).flags == Fold(Library, true, State(start, false), s).flags <= {TopicLocked}
  {
    ChannelZero(start, s);
    DialectsAgree(true, start, s);
    var lib := Fold(Library, true, State(start, false), s).flags;
    assert forall m :: m in lib && m != TopicLocked ==> m in lib - {TopicLocked};
  }

  /** The modes after any number of lines. */
  function Lines(dialect: Dialect, zero: bool, start: set<Mode>, lines: seq<string>): set<Mode> {
    if lines == [] then start
    else Fold(dialect, zero, State(Lines(dialect, zero, start, lines[..|lines| - 1]), false), lines[|lines| - 1]).flags
  }

  /** From an empty start the dialects agree after any number of lines, on channel 0 too. */
  lemma {:induction false} ZeroRuns(zero: bool, lines: seq<string>)
    ensures Lines(Daemon, zero, {}, lines) == Lines(Library, zero, {}, lines)
    ensures zero ==> Lines(Daemon, zero, {}, lines) <= {TopicLocked}
  {
    if lines != [] {
      var before := lines[..|lines| - 1];
      ZeroRuns(zero, before);
      var start := Lines(Daemon, zero, {}, before);
      if zero {
        ZeroWithinLock(start, lines[|lines| - 1]);
      } else {
        OtherChannels(start, lines[|lines| - 1]);
      }
    }
  }

  // ---------------------------------------------------------------- writing modes

  /** The order in which modes are written. */
  function ModeAt(k: nat): (m: Mode)
    ensures k < 6 ==> LetterOf(CharAt(k)) == Some(m)
  {
    match k
    case 0 => Secret
    case 1 => Private
    case 2 => TopicLocked
    case 3 => Invisible
    case 4 => Moderated
    case _ => Local
  }

  function CharAt(k: nat): char {
    match k
    case 0 => 's'
    case 1 => 'p'
    case 2 => 't'
    case 3 => 'i'
    case 4 => 'm'
    case _ => 'l'
  }

  /** The letters of those of the first `k` modes that are set. */
  function LettersTo(flags: set<Mode>, k: nat): string {
    if k == 0 then ""
    else if ModeAt(k - 1) in flags then LettersTo(flags, k - 1) + [CharAt(k - 1)]
    else LettersTo(flags, k - 1)
  }

  function Letters(flags: set<Mode>): string {
    LettersTo(flags, 6)
  }

  function ModesTo(flags: set<Mode>, k: nat): set<Mode> {
    if k == 0 then {}
    else if ModeAt(k - 1) in flags then ModesTo(flags, k - 1) + {ModeAt(k - 1)}
    else ModesTo(flags, k - 1)
  }

  lemma {:induction false} ModesToAll(flags: set<Mode>, k: nat, m: Mode)
    requires k <= 6
    ensures m in ModesTo(flags, k) <==> m in flags && exists i: nat :: i < k && ModeAt(i) == m
  {
    if k > 0 {
      ModesToAll(flags, k - 1, m);
    }
  }

  lemma {:induction false} AllModes(flags: set<Mode>)
    ensures ModesTo(flags, 6) == flags
  {
    forall m ensures m in ModesTo(flags, 6) <==> m in flags {
      ModesToAll(flags, 6, m);
      assert ModeAt(0) == Secret && ModeAt(1) == Private && ModeAt(2) == TopicLocked;
      assert ModeAt(3) == Invisible && ModeAt(4) == Moderated && ModeAt(5) == Local;
    }
  }

  function ToWire(flags: set<Mode>): string {
    if Letters(flags) == "" then "-" else "+" + Letters(flags)
  }

  lemma {:induction false} FoldConcat(dialect: Dialect, zero: bool, st: State, a: string, b: string)
    ensures Fold(dialect, zero, st, a + b) == Fold(dialect, zero, Fold(dialect, zero, st, a), b)
  {
    if b == [] {
      assert a + b == a;
    } else {
      FoldConcat(dialect, zero, st, a, b[..|b| - 1]);
      assert (a + b)[..|a + b| - 1] == a + b[..|b| - 1];
    }
  }

  lemma {:induction false} FoldOne(dialect: Dialect, st: State, c: char)
    ensures Fold(dialect, false, st, [c]) == Toggle(dialect, false, st, c)
  {
    assert [c][..0] == [];
  }

  /** Modes set, or cleared while a minus is in force. */
  function Changed(st: State, modes: set<Mode>): State {
    State(if st.removing then st.flags - modes else st.flags + modes, st.removing)
  }

  lemma {:induction false} ChangedMore(st: State, modes: set<Mode>, m: Mode)
    ensures Changed(st, modes + {m}) == Changed(Changed(st, modes), {m})
  {
    assert st.flags + (modes + {m}) == st.flags + modes + {m};
    assert st.flags - (modes + {m}) == st.flags - modes - {m};
  }

  /** One more letter. */
  lemma {:induction false} LetterMore(dialect: Dialect, st: State, front: string, done: set<Mode>, c: char, m: Mode)
    requires Fold(dialect, false, st, front) == Changed(st, done) && LetterOf(c) == Some(m)
    ensures Fold(dialect, false, st, front + [c]) == Changed(st, done + {m})
  {
    assert (front + [c])[..|front|] == front;
    ChangedMore(st, done, m);
  }

  /** Letters without a sign between them set, or clear, their modes. */
  lemma {:induction false} LettersFold(dialect: Dialect, st: State, flags: set<Mode>, k: nat)
    requires k <= 6
    ensures Fold(dialect, false, st, LettersTo(flags, k)) == Changed(st, ModesTo(flags, k))
  {
    if k > 0 {
      LettersFold(dialect, st, flags, k - 1);
      if ModeAt(k - 1) in flags {
        LetterMore(dialect, st, LettersTo(flags, k - 1), ModesTo(flags, k - 1), CharAt(k - 1), ModeAt(k - 1));
      }
    }
  }

  lemma {:induction false} LettersAdd(dialect: Dialect, start: set<Mode>, flags: set<Mode>)
    ensures Fold(dialect, false, State(start, false), Letters(flags)) == State(start + flags, false)
  {
    LettersFold(dialect, State(start, false), flags, 6);
    AllModes(flags);
  }

  /** The six letters, as the daemon writes them after a minus. */
  const EVERY: set<Mode> := {Secret, Private, TopicLocked, Invisible, Moderated, Local}

  /** After the six letters under a minus, nothing is set. */
  lemma {:induction false} ClearAll(dialect: Dialect, start: set<Mode>)
    ensures Fold(dialect, false, State(start, false), "-" + Letters(EVERY) + "+") == State({}, false)
  {
    FoldOne(dialect, State(start, false), '-');
    FoldConcat(dialect, false, State(start, false), "-", Letters(EVERY));
    LettersFold(dialect, State(start, true), EVERY, 6);
    AllModes(EVERY);
    assert start - EVERY == {} by {
      forall m | m in start ensures m in EVERY {
        match m case Secret => case Private => case TopicLocked => case Invisible => case Moderated => case Local =>
      }
    }
    FoldConcat(dialect, false, State(start, false), "-" + Letters(EVERY), "+");
    FoldOne(dialect, State({}, true), '+');
  }

  lemma {:induction false} EveryLetter()
    ensures Letters(EVERY) == "sptiml"
  {
    assert LettersTo(EVERY, 1) == "s";
    assert LettersTo(EVERY, 2) == "sp";
    assert LettersTo(EVERY, 3) == "spt";
    assert LettersTo(EVERY, 4) == "spti";
    assert LettersTo(EVERY, 5) == "sptim";
  }

  /** The form the daemon sends makes the flags what they are at the sender, whatever they were. */
  lemma {:induction false} AbsoluteForm(dialect: Dialect, start: set<Mode>, flags: set<Mode>)
    ensures Fold(dialect, false, State(start, false), "-sptiml+" + Letters(flags)).flags == flags
  {
    EveryLetter();
    assert "-sptiml+" == "-" + Letters(EVERY) + "+";
    ClearAll(dialect, start);
    FoldConcat(dialect, false, State(start, false), "-sptiml+", Letters(flags));
    LettersAdd(dialect, {}, flags);
    assert {} + flags == flags;
  }

  /** The library's form only adds: it gives the sender's flags exactly where nothing else was set. */
  lemma {:induction false} WireForm(dialect: Dialect, start: set<Mode>, flags: set<Mode>)
    ensures Fold(dialect, false, State(start, false), ToWire(flags)).flags == start + flags
    ensures Fold(dialect, false, State(start, false), ToWire(flags)).flags == flags <==> start <= flags
  {
    if Letters(flags) == "" {
      assert flags == {} by {
        LettersAdd(dialect, {}, flags);
        assert {} + flags == flags;
      }
      FoldOne(dialect, State(start, false), '-');
    } else {
      FoldConcat(dialect, false, State(start, false), "+", Letters(flags));
      FoldOne(dialect, State(start, false), '+');
      LettersAdd(dialect, start, flags);
    }
  }

  // ---------------------------------------------------------------- the two loops

  method Apply(start: set<Mode>, options: string, isChannelZero: bool) returns (modes: set<Mode>)
    ensures modes == Fold(Library, isChannelZero, State(start, false), options).flags
  {
    modes := start;
    var removing := false;
    for i := 0 to |options|
      invariant State(modes, removing) == Fold(Library, isChannelZero, State(start, false), options[..i])
    {
      assert options[..i + 1][..i] == options[..i];
      var raw := options[i];
      if raw == '+' {
        removing := false;
        continue;
      }
      if raw == '-' {
        removing := true;
        continue;
      }
      var flag := LetterOf(raw);
      if flag.None? || (isChannelZero && flag.value != TopicLocked) {
        continue;
      }
      modes := if removing then modes - {flag.value} else modes + {flag.value};
    }
    assert options[..|options|] == options;
  }

  predicate IsAlpha(c: char) {
    'a' <= c <= 'z' || 'A' <= c <= 'Z'
  }

  /** Where the names of new operators begin; the flags do not change after it. */
  function FirstOp(s: string): (n: nat)
    ensures n <= |s| && (n < |s| ==> s[n] == 'o' || s[n] == 'O')
    ensures forall i :: 0 <= i < n ==> s[i] != 'o' && s[i] != 'O'
  {
    if s == [] || s[0] == 'o' || s[0] == 'O' then 0 else 1 + FirstOp(s[1..])
  }

  class Channel {
    const number: nat
    var flags: set<Mode>

    constructor (number: nat)
      ensures this.number == number && flags == {}
    {
      this.number, flags := number, {};
    }

    /** The mode command of another host. */
    method ModeCommand(arg: string)
      modifies this`flags
      ensures flags == Fold(Daemon, number == 0, State(old(flags), false), arg[..FirstOp(arg)]).flags
    {
      var remove, at := false, 0;
      while at < |arg|
        invariant at <= |arg|
        invariant at <= FirstOp(arg) || at == |arg|
        invariant at <= FirstOp(arg) ==>
                    State(flags, remove) == Fold(Daemon, number == 0, State(old(flags), false), arg[..at])
        invariant at > FirstOp(arg) ==>
                    flags == Fold(Daemon, number == 0, State(old(flags), false), arg[..FirstOp(arg)]).flags
      {
        var c := arg[at];
        if c == 'o' || c == 'O' {
          at := |arg|;
          continue;
        }
        assert arg[..at + 1][..at] == arg[..at];
        at := at + 1;
        if number == 0 && !remove && IsAlpha(c) && c != 't' && c != 'T' {
          continue;
        }
        if c == '+' {
          remove := false;
        } else if c == '-' {
          remove := true;
        } else {
          var m := LetterOf(c);
          if m.Some? {
            flags := if remove then flags - {m.value} else flags + {m.value};
          }
        }
      }
    }
  }
}
