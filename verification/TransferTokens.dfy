/**
 The free-transfer limit: an account keeps the times of its transfers, prunes the ones past
 the configured number of days in place, and may transfer while fewer than the allowed
 number remain.  All of it is unsigned 32-bit arithmetic.
 */
module TransferTokens {

  const U32 := 0x1_0000_0000
  const SECONDS_PER_DAY := 86400

  datatype Config = Config(days: nat, allowed: nat)

  predicate Fits(c: Config) {
    c.days < U32 && c.allowed < U32
  }

  /** The days in seconds, as the product wraps. */
  function Window(c: Config): nat {
    (c.days * SECONDS_PER_DAY) % U32
  }

  predicate Past(c: Config, now: nat, token: nat) {
    (now - token) % U32 > Window(c)
  }

  function Prune(c: Config, now: nat, tokens: seq<nat>): seq<nat> {
    if tokens == [] then []
    else
      Prune(c, now, tokens[..|tokens| - 1])
      + (if Past(c, now, tokens[|tokens| - 1]) then [] else [tokens[|tokens| - 1]])
  }

  /** Unsigned difference, read as a signed int, or 0 if that is negative. */
  function Available(c: Config, held: nat): nat {
    var d := (c.allowed - held) % U32;
    if d < 0x8000_0000 then d else 0
  }

  lemma PruneLast(c: Config, now: nat, tokens: seq<nat>, t: nat)
    ensures Prune(c, now, tokens + [t]) == Prune(c, now, tokens) + (if Past(c, now, t) then [] else [t])
  {
    assert (tokens + [t])[..|tokens|] == tokens;
  }

  lemma {:induction false} PruneConcat(c: Config, now: nat, a: seq<nat>, b: seq<nat>)
    ensures Prune(c, now, a + b) == Prune(c, now, a) + Prune(c, now, b)
  {
    if b == [] {
      assert a + b == a;
    } else {
      var most, last := b[..|b| - 1], b[|b| - 1];
      PruneConcat(c, now, a, most);
      assert a + b == (a + most) + [last] && b == most + [last];
      PruneLast(c, now, a + most, last);
      PruneLast(c, now, most, last);
      hide Prune, Past;
    }
  }

  /** Within one epoch of the clock the unsigned difference is the difference. */
  lemma PastPlain(c: Config, now: nat, token: nat)
    requires token <= now < U32
    ensures Past(c, now, token) <==> now - token > Window(c)
  {
  }

  lemma AvailablePlain(c: Config, held: nat)
    requires held <= c.allowed < U32
    ensures Available(c, held) == if c.allowed - held < 0x8000_0000 then c.allowed - held else 0
  {
  }

  class TokenList {
    var tokens: seq<nat>

    constructor ()
      ensures tokens == []
    {
      tokens := [];
    }

    /** Prunes the list in place, from the back, and counts what is left to use. */
    method UpdateCount(c: Config, now: nat) returns (count: nat)
      modifies this
      ensures tokens == Prune(c, now, old(tokens))
      ensures count == Available(c, |tokens|)
    {
      ghost var was := tokens;
      var i := |tokens| - 1;
      while i >= 0
        invariant -1 <= i < |tokens| && i < |was|
        invariant tokens[..i + 1] == was[..i + 1]
        invariant tokens[i + 1..] == Prune(c, now, was[i + 1..])
      {
        PruneConcat(c, now, [was[i]], was[i + 1..]);
        assert [was[i]] + was[i + 1..] == was[i..];
        assert [was[i]][..0] == [];
        if Past(c, now, tokens[i]) {
          tokens := tokens[..i] + tokens[i + 1..];
        }
        i := i - 1;
      }
      assert was[0..] == was;
      var d := (c.allowed - |tokens|) % U32;
      count := if d < 0x8000_0000 then d else 0;
    }

    /** Validation and submission of a transfer: it takes a token if one is left. */
    method UseToken(c: Config, now: nat) returns (used: bool)
      modifies this
      ensures used == (Available(c, |Prune(c, now, old(tokens))|) > 0)
      ensures tokens == Prune(c, now, old(tokens)) + (if used then [now] else [])
    {
      var count := UpdateCount(c, now);
      used := count > 0;
      if used {
        tokens := tokens + [now];
      }
    }
  }

  // ---------------------------------------------------------------------
  //  Runs
  // ---------------------------------------------------------------------

  /** The token list, and every transfer ever submitted. */
  datatype Book = Book(tokens: seq<nat>, log: seq<nat>)

  /** The account's list is looked at, to transfer or only to show what is left. */
  datatype Visit = Visit(now: nat, transfer: bool)

  function Step(c: Config, b: Book, v: Visit): Book {
    var kept := Prune(c, v.now, b.tokens);
    if v.transfer && Available(c, |kept|) > 0 then Book(kept + [v.now], b.log + [v.now]) else Book(kept, b.log)
  }

  function Run(c: Config, visits: seq<Visit>): Book {
    if visits == [] then Book([], []) else Step(c, Run(c, visits[..|visits| - 1]), visits[|visits| - 1])
  }

  /** The clock does not go back, and does not wrap. */
  ghost predicate Timely(visits: seq<Visit>) {
    && (forall i | 0 <= i < |visits| :: visits[i].now < U32)
    && (forall i, j | 0 <= i < j < |visits| :: visits[i].now <= visits[j].now)
  }

  /** How many entries of a log lie within `span` seconds from `from` on. */
  function Within(log: seq<nat>, from: nat, span: nat): nat {
    if log == [] then 0
    else
      Within(log[..|log| - 1], from, span) + (if from <= log[|log| - 1] <= from + span then 1 else 0)
  }

  /** The list, pruned, is the log, pruned. */
  ghost predicate Tracks(c: Config, b: Book, clock: nat) {
    && (forall t | t in b.log :: t <= clock)
    && (forall i, j | 0 <= i < j < |b.log| :: b.log[i] <= b.log[j])
    && (forall now | clock <= now < U32 :: Prune(c, now, b.tokens) == Prune(c, now, b.log))
    && (forall k | 0 <= k < |b.log| :: |Prune(c, b.log[k], b.log[..k + 1])| <= c.allowed)
  }

  /** What is past stays past. */
  lemma {:induction false} PruneLater(c: Config, now: nat, later: nat, tokens: seq<nat>)
    requires now <= later < U32 && forall t | t in tokens :: t <= now
    ensures Prune(c, later, Prune(c, now, tokens)) == Prune(c, later, tokens)
  {
    if tokens != [] {
      var most, t := tokens[..|tokens| - 1], tokens[|tokens| - 1];
      assert t in tokens && forall x | x in most :: x in tokens;
      PastPlain(c, now, t);
      PastPlain(c, later, t);
      hide Past, Window;
      PruneLater(c, now, later, most);
      var kept := Prune(c, now, most);
      assert Prune(c, now, tokens) == if Past(c, now, t) then kept else kept + [t];
      assert Prune(c, later, tokens) == Prune(c, later, most) + (if Past(c, later, t) then [] else [t]);
      PruneLast(c, later, kept, t);
      hide Prune;
    }
  }

  /** Never more tokens than are allowed, so the unsigned count cannot wrap. */
  lemma HeldAtMost(c: Config, b: Book, clock: nat, now: nat)
    requires Tracks(c, b, clock) && clock <= now < U32
    ensures |Prune(c, now, b.tokens)| <= c.allowed
  {
    if b.log != [] {
      var last := b.log[|b.log| - 1];
      assert last in b.log && b.log[..|b.log|] == b.log;
      PruneLater(c, last, now, b.log);
      PruneShrinks(c, now, Prune(c, last, b.log));
    }
  }

  lemma {:induction false} PruneShrinks(c: Config, now: nat, tokens: seq<nat>)
    ensures |Prune(c, now, tokens)| <= |tokens|
  {
    if tokens != [] {
      PruneShrinks(c, now, tokens[..|tokens| - 1]);
    }
  }

  lemma StepTracks(c: Config, b: Book, v: Visit, clock: nat)
    requires Fits(c) && Tracks(c, b, clock) && clock <= v.now < U32
    ensures Tracks(c, Step(c, b, v), v.now)
  {
    HeldAtMost(c, b, clock, v.now);
    AvailablePlain(c, |Prune(c, v.now, b.tokens)|);
    StepInOrder(c, b, v, clock);
    var b' := Step(c, b, v);
    hide Prune, Available, Past, Window, Step;
    forall later | v.now <= later < U32 ensures Prune(c, later, b'.tokens) == Prune(c, later, b'.log) {
      StepFollows(c, b, v, clock, later);
    }
    forall k | 0 <= k < |b'.log| ensures |Prune(c, b'.log[k], b'.log[..k + 1])| <= c.allowed {
      StepLimits(c, b, v, clock, k);
    }
  }

  /** The log stays one of times in order, none after the clock. */
  lemma StepInOrder(c: Config, b: Book, v: Visit, clock: nat)
    requires Tracks(c, b, clock) && clock <= v.now < U32
    ensures var log := Step(c, b, v).log;
            (forall t | t in log :: t <= v.now) && forall i, j | 0 <= i < j < |log| :: log[i] <= log[j]
  {
    hide Prune, Available;
    assert forall i | 0 <= i < |b.log| :: b.log[i] in b.log;
  }

  lemma StepFollows(c: Config, b: Book, v: Visit, clock: nat, later: nat)
    requires Tracks(c, b, clock) && clock <= v.now <= later < U32
    ensures Prune(c, later, Step(c, b, v).tokens) == Prune(c, later, Step(c, b, v).log)
  {
    hide Prune, Available, Past;
    PruneLater(c, v.now, later, b.log);
    PruneLast(c, later, Prune(c, v.now, b.tokens), v.now);
    PruneLast(c, later, b.log, v.now);
  }

  lemma StepLimits(c: Config, b: Book, v: Visit, clock: nat, k: nat)
    requires Fits(c) && Tracks(c, b, clock) && clock <= v.now < U32 && k < |Step(c, b, v).log|
    ensures |Prune(c, Step(c, b, v).log[k], Step(c, b, v).log[..k + 1])| <= c.allowed
  {
    HeldAtMost(c, b, clock, v.now);
    AvailablePlain(c, |Prune(c, v.now, b.tokens)|);
    PastPlain(c, v.now, v.now);
    hide Prune, Available, Past, Window;
    var b' := Step(c, b, v);
    if k < |b.log| {
      assert b'.log[..k + 1] == b.log[..k + 1];
    } else {
      assert b'.log[..k + 1] == b.log + [v.now];
      PruneLast(c, v.now, b.log, v.now);
    }
  }

  lemma {:induction false} RunTracks(c: Config, visits: seq<Visit>)
    requires Fits(c) && Timely(visits)
    ensures Tracks(c, Run(c, visits), if visits == [] then 0 else visits[|visits| - 1].now)
  {
    if visits != [] {
      hide Tracks, Step;
      var most := visits[..|visits| - 1];
      RunTracks(c, most);
      StepTracks(c, Run(c, most), visits[|visits| - 1], if most == [] then 0 else most[|most| - 1].now);
    } else {
      hide Prune;
    }
  }

  lemma {:induction false} WithinKept(c: Config, log: seq<nat>, from: nat, now: nat)
    requires from <= now <= from + Window(c) && now < U32 && forall t | t in log :: t <= now
    ensures Within(log, from, Window(c)) <= |Prune(c, now, log)|
  {
    if log != [] {
      var most, last := log[..|log| - 1], log[|log| - 1];
      assert last in log && forall x | x in most :: x in log;
      PastPlain(c, now, last);
      hide Past, Window;
      WithinKept(c, most, from, now);
    }
  }

  lemma {:induction false} WindowLimit(c: Config, log: seq<nat>, from: nat)
    requires forall t | t in log :: t < U32
    requires forall i, j | 0 <= i < j < |log| :: log[i] <= log[j]
    requires forall k | 0 <= k < |log| :: |Prune(c, log[k], log[..k + 1])| <= c.allowed
    ensures Within(log, from, Window(c)) <= c.allowed
  {
    hide Prune, Window;
    if log != [] {
      var most, last := log[..|log| - 1], log[|log| - 1];
      assert last in log && forall x | x in most :: x in log;
      if from <= last <= from + Window(c) {
        assert log[..|log| - 1 + 1] == log;
        WithinKept(c, log, from, last);
      } else {
        forall k | 0 <= k < |most| ensures |Prune(c, most[k], most[..k + 1])| <= c.allowed {
          assert most[..k + 1] == log[..k + 1];
        }
        WindowLimit(c, most, from);
      }
    }
  }

  /** Over any run, and in any stretch of the window's length, at most the allowed number of
      transfers is submitted. */
  lemma SlidingWindow(c: Config, visits: seq<Visit>, from: nat)
    requires Fits(c) && Timely(visits)
    ensures Within(Run(c, visits).log, from, Window(c)) <= c.allowed
  {
    RunTracks(c, visits);
    WindowLimit(c, Run(c, visits).log, from);
  }

  /** A transfer is refused only for the limit: it is taken exactly when the window behind it has
      room left (an allowance of 2^31 or more over what is held reads as none). */
  lemma TakenIff(c: Config, visits: seq<Visit>, now: nat)
    requires Fits(c) && Timely(visits + [Visit(now, true)])
    ensures var before := Run(c, visits).log;
            var held := |Prune(c, now, before)|;
            Run(c, visits + [Visit(now, true)]).log == before + (if 0 < c.allowed - held < 0x8000_0000 then [now] else [])
  {
    TimelyBefore(visits, Visit(now, true));
    var clock := if visits == [] then 0 else visits[|visits| - 1].now;
    RunTracks(c, visits);
    HeldAtMost(c, Run(c, visits), clock, now);
    assert (visits + [Visit(now, true)])[..|visits|] == visits;
    AvailablePlain(c, |Prune(c, now, Run(c, visits).tokens)|);
    hide Prune, Available;
  }

  /** The transfers of a log that lie no more than `span` seconds back. */
  function Recent(log: seq<nat>, now: nat, span: nat): nat {
    if log == [] then 0
    else Recent(log[..|log| - 1], now, span) + if now - log[|log| - 1] <= span then 1 else 0
  }

  lemma {:induction false} PrunedAreRecent(c: Config, log: seq<nat>, now: nat)
    requires now < U32 && forall t | t in log :: t <= now
    ensures |Prune(c, now, log)| == Recent(log, now, Window(c))
  {
    if log != [] {
      var most, last := log[..|log| - 1], log[|log| - 1];
      assert last in log && forall x | x in most :: x in log;
      PastPlain(c, now, last);
      PrunedAreRecent(c, most, now);
      hide Past, Window;
    }
  }

  /** The same, counted on the transfers themselves: one more is taken exactly if fewer than the
      allowed number lie within the window, and the allowance left is below 2^31. */
  lemma TakenByCountIff(c: Config, visits: seq<Visit>, now: nat)
    requires Fits(c) && Timely(visits + [Visit(now, true)])
    ensures var before := Run(c, visits).log;
            var left := c.allowed - Recent(before, now, Window(c));
            Run(c, visits + [Visit(now, true)]).log == before + (if 0 < left < 0x8000_0000 then [now] else [])
  {
    TimelyBefore(visits, Visit(now, true));
    RunTracks(c, visits);
    TakenIff(c, visits, now);
    PrunedAreRecent(c, Run(c, visits).log, now);
    hide Run, Prune, Recent, Window;
  }

  lemma TimelyBefore(visits: seq<Visit>, v: Visit)
    requires Timely(visits + [v])
    ensures Timely(visits) && v.now < U32 && (visits != [] ==> visits[|visits| - 1].now <= v.now)
  {
    var all := visits + [v];
    assert forall i | 0 <= i < |visits| :: visits[i] == all[i];
    assert all[|visits|] == v;
  }

  // ---------------------------------------------------------------------
  //  The configured days
  // ---------------------------------------------------------------------

  /** As many transfers as are allowed, all in second 0. */
  lemma {:induction false} FillsUp(c: Config, n: nat)
    requires n <= c.allowed < 0x8000_0000
    ensures var b := Run(c, seq(n, i => Visit(0, true)));
            |b.log| == |b.tokens| == n && (forall t | t in b.tokens :: t == 0) && (forall t | t in b.log :: t == 0)
  {
    if n > 0 {
      var visits := seq(n, i => Visit(0, true));
      assert visits[..n - 1] == seq(n - 1, i => Visit(0, true));
      FillsUp(c, n - 1);
      FillsOne(c, Run(c, visits[..n - 1]));
      hide Step;
    }
  }

  lemma FillsOne(c: Config, b: Book)
    requires |b.tokens| < c.allowed < 0x8000_0000 && forall t | t in b.tokens :: t == 0
    ensures Step(c, b, Visit(0, true)) == Book(b.tokens + [0], b.log + [0])
  {
    PastPlain(c, 0, 0);
    PruneNone(c, 0, b.tokens);
    AvailablePlain(c, |b.tokens|);
    hide Prune, Past, Available;
  }

  lemma {:induction false} PruneNone(c: Config, now: nat, tokens: seq<nat>)
    requires forall t | t in tokens :: !Past(c, now, t)
    ensures Prune(c, now, tokens) == tokens
  {
    if tokens != [] {
      assert tokens[|tokens| - 1] in tokens;
      PruneNone(c, now, tokens[..|tokens| - 1]);
    }
  }

  lemma {:induction false} PruneEvery(c: Config, now: nat, tokens: seq<nat>)
    requires forall t | t in tokens :: Past(c, now, t)
    ensures Prune(c, now, tokens) == []
  {
    if tokens != [] {
      assert tokens[|tokens| - 1] in tokens;
      PruneEvery(c, now, tokens[..|tokens| - 1]);
    }
  }

  lemma {:induction false} WithinAll(log: seq<nat>, from: nat, span: nat)
    requires forall t | t in log :: from <= t <= from + span
    ensures Within(log, from, span) == |log|
  {
    if log != [] {
      var most, last := log[..|log| - 1], log[|log| - 1];
      assert last in log && forall x | x in most :: x in log;
      WithinAll(most, from, span);
    }
  }

  lemma WindowWraps(c: Config)
    requires Fits(c)
    ensures Window(c) == c.days * SECONDS_PER_DAY <==> c.days <= 49710
    ensures Window(c) + 1 < U32 && (c.days > 49710 ==> Window(c) + 1 < c.days * SECONDS_PER_DAY)
  {
    var seconds := c.days * SECONDS_PER_DAY;
    var q := seconds / U32;
    var z := 675 * c.days - 33554432 * q;
    assert Window(c) == seconds - U32 * q == 128 * z;
    assert 128 * z < 128 * 33554432;
  }

  /** The limit holds over the configured number of days exactly when their seconds fit 32 bits:
      up to 49710 days.  Beyond, the window wraps and is too short. */
  lemma LimitOverDaysIff(c: Config)
    requires Fits(c) && 0 < c.allowed < 0x8000_0000
    ensures (forall visits, from: nat | Timely(visits) :: Within(Run(c, visits).log, from, c.days * SECONDS_PER_DAY) <= c.allowed)
            <==> c.days <= 49710
  {
    WindowWraps(c);
    if c.days <= 49710 {
      forall visits, from: nat | Timely(visits)
        ensures Within(Run(c, visits).log, from, c.days * SECONDS_PER_DAY) <= c.allowed
      {
        SlidingWindow(c, visits, from);
      }
    } else {
      var visits := TooMany(c);
      assert Within(Run(c, visits).log, 0, c.days * SECONDS_PER_DAY) > c.allowed;
    }
  }

  lemma TooMany(c: Config) returns (visits: seq<Visit>)
    requires Fits(c) && 0 < c.allowed < 0x8000_0000 && c.days > 49710
    ensures Timely(visits) && Within(Run(c, visits).log, 0, c.days * SECONDS_PER_DAY) > c.allowed
  {
    WindowWraps(c);
    var first := seq(c.allowed, i => Visit(0, true));
    var last := Visit(Window(c) + 1, true);
    visits := first + [last];
    FillsUp(c, c.allowed);
    var b := Run(c, first);
    PastPlain(c, last.now, 0);
    hide Past;
    PruneEvery(c, last.now, b.tokens);
    AvailablePlain(c, 0);
    assert visits[..|first|] == first;
    hide Prune, Available, Window, Within;
    assert Run(c, visits) == Step(c, b, last);
    hide Run;
    assert Step(c, b, last).log == b.log + [last.now];
    WithinAll(b.log + [last.now], 0, c.days * SECONDS_PER_DAY);
  }
}
