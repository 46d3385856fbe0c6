/**
 The loyalty ledger: points earned, points left to spend, one bit for each reward node
 bought, the levels reached and the character slots granted.
 */
module Loyalty {

  const BITS := 128
  const INT_MIN := -0x8000_0000
  const LEGACY_NODES := 34
  const POINTS_PER_SLOT := 12

  /** The reward tree: its nodes by index, with those that may be bought again, and the points each level takes. */
  datatype Tree = Tree(nodes: set<int>, repeatable: set<int>, levels: seq<int>)

  predicate WellFormed(t: Tree) {
    forall i | i in t.nodes :: i < BITS
  }

  /** `levels` are the levels whose products have been granted, in order. */
  datatype Book = Book(bits: seq<bool>, earned: int, unspent: int, levels: seq<nat>, slots: int)

  type Page = b: Book | |b.bits| == BITS witness Book(seq(BITS, i => false), 0, 0, [], 0)

  // ---------------------------------------------------------------------
  //  The operations
  // ---------------------------------------------------------------------

  /** Sets or clears a node's bit and takes or gives back its point; an index without a node changes nothing. */
  function NodeChanged(t: Tree, b: Page, index: int, buy: bool): Page {
    if index !in t.nodes || index < 0 || index >= BITS then b
    else b.(bits := b.bits[index := buy], unspent := b.unspent + (if buy then -1 else 1))
  }

  /** Clears the first n nodes that are set. */
  function ResetUpTo(t: Tree, b: Page, n: nat): Page
    requires n <= BITS
  {
    if n == 0 then b
    else
      var c := ResetUpTo(t, b, n - 1);
      if c.bits[n - 1] then NodeChanged(t, c, n - 1, false) else c
  }

  /** Sets the first n nodes that are not set. */
  function SpendUpTo(t: Tree, b: Page, n: nat): Page
    requires n <= BITS
  {
    if n == 0 then b
    else
      var c := SpendUpTo(t, b, n - 1);
      if c.bits[n - 1] then c else NodeChanged(t, c, n - 1, true)
  }

  predicate HasLevel(points: int, required: int) {
    points > 0 && points >= required
  }

  /** The first n levels that `now` has and `before` had not. */
  function Unlocked(t: Tree, before: int, now: int, n: nat): seq<nat>
    requires n <= |t.levels|
  {
    if n == 0 then []
    else
      Unlocked(t, before, now, n - 1)
      + (if !HasLevel(before, t.levels[n - 1]) && HasLevel(now, t.levels[n - 1]) then [n - 1] else [])
  }

  function Increase(t: Tree, b: Page, earned: int): Page {
    b.(earned := earned, unspent := b.unspent + earned - b.earned,
       levels := b.levels + Unlocked(t, b.earned, earned, |t.levels|))
  }

  function Max(a: int, b: int): int {
    if a > b then a else b
  }

  /** Division of C: toward zero. */
  function Quotient(a: int, b: int): int
    requires b > 0
  {
    if a >= 0 then a / b else -(-a / b)
  }

  /** The slots a rise of earned points is worth, with the points of before the programme set aside. */
  function NewSlots(before: int, now: int, legacy: int): int {
    Max(Quotient(now - legacy, POINTS_PER_SLOT) - Quotient(Max(before - legacy, 0), POINTS_PER_SLOT), 0)
  }

  function LegacyNodes(legacy: int): nat {
    var n := legacy - Quotient(legacy - 2, 5);
    if n < 0 then 0 else if n < LEGACY_NODES then n else LEGACY_NODES
  }

  /** The legacy points an update counts: no more than it says are earned. */
  function Legacy(minimum: int, earned: int, legacy: int): (l: int)
    ensures l <= Max(earned, minimum) && (Max(earned, minimum) >= 0 ==> l >= 0)
  {
    var e := Max(earned, minimum);
    if e >= Max(legacy, 0) then Max(legacy, 0) else e
  }

  function AuthUpdate(t: Tree, b: Page, minimum: int, earned: int, legacy: int): Page
  {
    var e, l := Max(earned, minimum), Legacy(minimum, earned, legacy);
    var raised: Page := if e > b.earned then Increase(t, b, e).(slots := b.slots + NewSlots(b.earned, e, l)) else b;
    SpendUpTo(t, raised, LegacyNodes(l))
  }

  /** `unlocked` tells whether the node's tier and status requirements are met. */
  predicate Validate(t: Tree, b: Page, index: int, buy: bool, delta: int, unlocked: bool) {
    if delta == INT_MIN then true
    else if delta < 0 && delta + b.unspent >= 0 then true
    else if delta + b.unspent < 0 then false
    else if delta + b.earned < 0 then false
    else if index < 0 then true
    else if index < BITS then
      if index !in t.nodes then false
      else if buy then b.unspent != 0 && unlocked && (!b.bits[index] || index in t.repeatable)
      else b.bits[index]
    else false
  }

  function LoyaltyChange(t: Tree, b: Page, index: int, buy: bool, delta: int, unlocked: bool): Page {
    if !Validate(t, b, index, buy, delta, unlocked) then b
    else
      var c := if delta < 0 then ResetUpTo(t, b, BITS) else if delta > 0 then Increase(t, b, b.earned + delta) else b;
      if index >= 0 then NodeChanged(t, c, index, buy) else c
  }

  // ---------------------------------------------------------------------
  //  In place
  // ---------------------------------------------------------------------

  class Account {
    const tree: Tree
    var bits: array<bool>
    var earned: int
    var unspent: int
    var levels: seq<nat>
    var slots: int

    constructor (tree: Tree)
      ensures this.tree == tree && fresh(bits) && bits.Length == BITS
      ensures View() == Book(seq(BITS, i => false), 0, 0, [], 0)
    {
      this.tree := tree;
      bits := new bool[BITS](_ => false);
      earned, unspent, levels, slots := 0, 0, [], 0;
      new;
      assert bits[..] == seq(BITS, i => false);
    }

    ghost function View(): Page
      requires bits.Length == BITS
      reads this, bits
    {
      Book(bits[..], earned, unspent, levels, slots)
    }

    method ChangeNode(index: int, buy: bool)
      requires bits.Length == BITS && WellFormed(tree)
      modifies bits, `unspent
      ensures View() == NodeChanged(tree, old(View()), index, buy)
    {
      if index in tree.nodes && index >= 0 {
        bits[index] := buy;
        unspent := if buy then unspent - 1 else unspent + 1;
      }
    }

    /** Gives every bought node back. */
    method DecreasePoints()
      requires bits.Length == BITS && WellFormed(tree)
      modifies bits, `unspent
      ensures View() == ResetUpTo(tree, old(View()), BITS)
    {
      for i := 0 to BITS
        invariant View() == ResetUpTo(tree, old(View()), i)
      {
        if bits[i] {
          ChangeNode(i, false);
        }
      }
    }

    method IncreasePoints(points: int)
      requires bits.Length == BITS
      modifies `earned, `unspent, `levels
      ensures View() == Increase(tree, old(View()), points)
    {
      var previous := earned;
      earned := points;
      unspent := unspent + points - previous;
      AdjustLevels(previous);
    }

    /** Grants the products of every newly reached level. */
    method AdjustLevels(previous: int)
      modifies `levels
      ensures levels == old(levels) + Unlocked(tree, previous, earned, |tree.levels|)
    {
      for i := 0 to |tree.levels|
        invariant levels == old(levels) + Unlocked(tree, previous, earned, i)
      {
        if !HasLevel(previous, tree.levels[i]) && HasLevel(earned, tree.levels[i]) {
          levels := levels + [i];
        }
      }
    }

    method GrantCharSlots(previous: int, legacy: int)
      modifies `slots
      ensures slots == old(slots) + NewSlots(previous, earned, legacy)
    {
      var now := Quotient(earned - legacy, POINTS_PER_SLOT);
      var before := Quotient(Max(previous - legacy, 0), POINTS_PER_SLOT);
      if now > before {
        slots := slots + (now - before);
      }
    }

    method HandleAuthUpdate(minimum: int, points: int, legacyPoints: int)
      requires bits.Length == BITS && WellFormed(tree)
      modifies this`earned, this`unspent, this`levels, this`slots, bits
      ensures View() == AuthUpdate(tree, old(View()), minimum, points, legacyPoints)
    {
      var loyaltyEarned, legacy := Max(points, minimum), Max(legacyPoints, 0);
      if loyaltyEarned < legacy {
        legacy := loyaltyEarned;
      }
      if loyaltyEarned > earned {
        var previous := earned;
        IncreasePoints(loyaltyEarned);
        GrantCharSlots(previous, legacy);
      }
      ghost var raised := View();
      for i := 0 to LegacyNodes(legacy)
        invariant View() == SpendUpTo(tree, raised, i)
      {
        if !bits[i] {
          ChangeNode(i, true);
        }
      }
    }

    method HandleLoyaltyChange(index: int, buy: bool, delta: int, unlocked: bool)
      requires bits.Length == BITS && WellFormed(tree)
      modifies this`earned, this`unspent, this`levels, bits
      ensures View() == LoyaltyChange(tree, old(View()), index, buy, delta, unlocked)
    {
      if ValidateChange(index, buy, delta, unlocked) {
        if delta < 0 {
          DecreasePoints();
        }
        if delta > 0 {
          IncreasePoints(earned + delta);
        }
        if index >= 0 {
          ChangeNode(index, buy);
        }
      }
    }

    function ValidateChange(index: int, buy: bool, delta: int, unlocked: bool): bool
      requires bits.Length == BITS
      reads this, bits
      ensures ValidateChange(index, buy, delta, unlocked) == Validate(tree, View(), index, buy, delta, unlocked)
    {
      delta == INT_MIN ||
      (delta < 0 && delta + unspent >= 0) ||
      (delta + unspent >= 0 && delta + earned >= 0 &&
       (index < 0 ||
        (index < BITS && index in tree.nodes &&
         (if buy then unspent != 0 && unlocked && (!bits[index] || index in tree.repeatable) else bits[index]))))
    }
  }

  // ---------------------------------------------------------------------
  //  The ledger
  // ---------------------------------------------------------------------

  function Count(bits: seq<bool>): nat {
    if bits == [] then 0 else Count(bits[..|bits| - 1]) + (if bits[|bits| - 1] then 1 else 0)
  }

  /** Points spent, less the nodes there are to show for them. */
  function Ledger(b: Page): int {
    b.earned - b.unspent - Count(b.bits)
  }

  lemma {:induction false} CountSet(bits: seq<bool>, i: nat, v: bool)
    requires i < |bits|
    ensures Count(bits[i := v]) == Count(bits) + (if v then 1 else 0) - (if bits[i] then 1 else 0)
  {
    if i == |bits| - 1 {
      assert bits[i := v][..i] == bits[..i];
    } else {
      CountSet(bits[..|bits| - 1], i, v);
      assert bits[i := v][..|bits| - 1] == bits[..|bits| - 1][i := v];
    }
  }

  predicate IsNode(t: Tree, index: int) {
    index in t.nodes && 0 <= index < BITS
  }

  /** Buying a node again costs a point that no bit shows; giving back a node that is not held
      makes a point out of nothing. */
  lemma NodeLedger(t: Tree, b: Page, index: int, buy: bool)
    ensures Ledger(NodeChanged(t, b, index, buy)) == Ledger(b) +
            (if !IsNode(t, index) || b.bits[index] != buy then 0 else if buy then 1 else -1)
  {
    if IsNode(t, index) { CountSet(b.bits, index, buy); }
  }

  /** A full reset gives back exactly the nodes held, and leaves only bits no node answers to. */
  lemma {:induction false} ResetLedger(t: Tree, b: Page, n: nat)
    requires n <= BITS
    ensures var c := ResetUpTo(t, b, n);
            && Ledger(c) == Ledger(b) && c.earned == b.earned && c.levels == b.levels && c.slots == b.slots
            && (forall i | 0 <= i < BITS :: c.bits[i] == (b.bits[i] && (i >= n || i !in t.nodes)))
            && b.unspent <= c.unspent
  {
    if n > 0 {
      ResetLedger(t, b, n - 1);
      NodeLedger(t, ResetUpTo(t, b, n - 1), n - 1, false);
    }
  }

  /** How many of the first n nodes are not held. */
  function Missing(t: Tree, b: Page, n: nat): nat
    requires n <= BITS
  {
    if n == 0 then 0 else Missing(t, b, n - 1) + (if n - 1 in t.nodes && !b.bits[n - 1] then 1 else 0)
  }

  lemma {:induction false} SpendLedger(t: Tree, b: Page, n: nat)
    requires n <= BITS
    ensures var c := SpendUpTo(t, b, n);
            && Ledger(c) == Ledger(b) && c.earned == b.earned && c.levels == b.levels && c.slots == b.slots
            && (forall i | 0 <= i < BITS :: c.bits[i] == (b.bits[i] || (i < n && i in t.nodes)))
            && c.unspent == b.unspent - Missing(t, b, n)
  {
    if n > 0 {
      SpendLedger(t, b, n - 1);
      NodeLedger(t, SpendUpTo(t, b, n - 1), n - 1, true);
    }
  }

  /** Every auth update keeps the ledger. */
  lemma AuthKeepsLedger(t: Tree, b: Page, minimum: int, earned: int, legacy: int)
    ensures Ledger(AuthUpdate(t, b, minimum, earned, legacy)) == Ledger(b)
  {
    var e, l := Max(earned, minimum), Legacy(minimum, earned, legacy);
    var raised: Page := if e > b.earned then Increase(t, b, e).(slots := b.slots + NewSlots(b.earned, e, l)) else b;
    SpendLedger(t, raised, LegacyNodes(l));
  }

  /** The pre-spent legacy nodes leave the points to spend below zero exactly when more of them
      were missing than there were points for. */
  lemma AuthOverspendsIff(t: Tree, b: Page, minimum: int, earned: int, legacy: int)
    ensures AuthUpdate(t, b, minimum, earned, legacy).unspent < 0 <==>
            b.unspent + Max(Max(earned, minimum) - b.earned, 0) < Missing(t, b, LegacyNodes(Legacy(minimum, earned, legacy)))
  {
    var e, l := Max(earned, minimum), Legacy(minimum, earned, legacy);
    var raised: Page := if e > b.earned then Increase(t, b, e).(slots := b.slots + NewSlots(b.earned, e, l)) else b;
    SpendLedger(t, raised, LegacyNodes(l));
    SameMissing(t, raised, b, LegacyNodes(l));
  }

  lemma {:induction false} SameMissing(t: Tree, b: Page, c: Page, n: nat)
    requires n <= BITS && b.bits == c.bits
    ensures Missing(t, b, n) == Missing(t, c, n)
  {
    if n > 0 { SameMissing(t, b, c, n - 1); }
  }

  /** The node change that a loyalty change ends with: on what it works, if it gets that far. */
  function Touched(t: Tree, b: Page, delta: int): Page {
    if delta < 0 then ResetUpTo(t, b, BITS) else b
  }

  /** What a loyalty change does to the ledger, to the point. */
  lemma ChangeLedger(t: Tree, b: Page, index: int, buy: bool, delta: int, unlocked: bool)
    ensures Ledger(LoyaltyChange(t, b, index, buy, delta, unlocked)) == Ledger(b) +
            (if !Validate(t, b, index, buy, delta, unlocked) || !IsNode(t, index) then 0
             else if delta < 0 then (if buy then 0 else -1)
             else if buy && b.bits[index] then 1 else 0)
  {
    if Validate(t, b, index, buy, delta, unlocked) {
      ResetLedger(t, b, BITS);
      var c := if delta < 0 then ResetUpTo(t, b, BITS) else if delta > 0 then Increase(t, b, b.earned + delta) else b;
      NodeLedger(t, c, index, buy);
    }
  }

  /** So the ledger is kept exactly unless a reset also gives back one more node, or a repeatable
      node is bought again. */
  lemma ChangeKeepsLedgerIff(t: Tree, b: Page, index: int, buy: bool, delta: int, unlocked: bool)
    ensures Ledger(LoyaltyChange(t, b, index, buy, delta, unlocked)) == Ledger(b) <==>
            !(Validate(t, b, index, buy, delta, unlocked) && IsNode(t, index)
              && (if delta < 0 then !buy else buy && b.bits[index]))
  {
    ChangeLedger(t, b, index, buy, delta, unlocked);
  }

  // ---------------------------------------------------------------------
  //  Runs
  // ---------------------------------------------------------------------

  datatype Event =
    | Auth(earned: int, legacy: int)
    | Change(index: int, buy: bool, delta: int, unlocked: bool)

  function Next(t: Tree, minimum: int, b: Page, e: Event): Page {
    match e
    case Auth(earned, legacy) => AuthUpdate(t, b, minimum, earned, legacy)
    case Change(index, buy, delta, unlocked) => LoyaltyChange(t, b, index, buy, delta, unlocked)
  }

  function Run(t: Tree, minimum: int, b: Page, events: seq<Event>): Page {
    if events == [] then b else Next(t, minimum, Run(t, minimum, b, events[..|events| - 1]), events[|events| - 1])
  }

  /** No request resets and gives back a node in one. */
  predicate Guarded(e: Event) {
    e.Change? && e.delta < 0 && e.index >= 0 ==> e.buy
  }

  /** Over any run of guarded requests and auth updates the points spent cover the nodes held. */
  lemma {:induction false} PointsCoverNodes(t: Tree, minimum: int, b: Page, events: seq<Event>)
    requires Ledger(b) >= 0 && forall e | e in events :: Guarded(e)
    ensures Ledger(Run(t, minimum, b, events)) >= 0
  {
    if events != [] {
      hide Ledger, AuthUpdate, LoyaltyChange;
      PointsCoverNodes(t, minimum, b, events[..|events| - 1]);
      var c, e := Run(t, minimum, b, events[..|events| - 1]), events[|events| - 1];
      assert Guarded(e);
      match e
      case Auth(earned, legacy) => AuthKeepsLedger(t, c, minimum, earned, legacy);
      case Change(index, buy, delta, unlocked) => ChangeLedger(t, c, index, buy, delta, unlocked);
    }
  }

  lemma NextEarned(t: Tree, minimum: int, b: Page, e: Event)
    ensures Next(t, minimum, b, e).earned >= b.earned
    ensures Next(t, minimum, b, e).levels == b.levels + Unlocked(t, b.earned, Next(t, minimum, b, e).earned, |t.levels|)
    ensures Next(t, minimum, b, e).slots >= b.slots
  {
    UnlockedNone(t, b.earned, |t.levels|);
    match e
    case Auth(earned, legacy) =>
      var p, l := Max(earned, minimum), Legacy(minimum, earned, legacy);
      var raised: Page := if p > b.earned then Increase(t, b, p).(slots := b.slots + NewSlots(b.earned, p, l)) else b;
      SpendLedger(t, raised, LegacyNodes(l));
    case Change(index, buy, delta, unlocked) =>
      ResetLedger(t, b, BITS);
  }

  lemma {:induction false} UnlockedNone(t: Tree, points: int, n: nat)
    requires n <= |t.levels|
    ensures Unlocked(t, points, points, n) == []
  {
    if n > 0 { UnlockedNone(t, points, n - 1); }
  }

  /** How often a level's products have been granted. */
  function Times(levels: seq<nat>, level: nat): nat {
    if levels == [] then 0 else Times(levels[..|levels| - 1], level) + (if levels[|levels| - 1] == level then 1 else 0)
  }

  lemma {:induction false} TimesConcat(a: seq<nat>, b: seq<nat>, level: nat)
    ensures Times(a + b, level) == Times(a, level) + Times(b, level)
  {
    if b == [] {
      assert a + b == a;
    } else {
      TimesConcat(a, b[..|b| - 1], level);
      assert (a + b)[..|a + b| - 1] == a + b[..|b| - 1];
    }
  }

  lemma {:induction false} UnlockedTimes(t: Tree, before: int, now: int, n: nat, level: nat)
    requires n <= |t.levels|
    ensures Times(Unlocked(t, before, now, n), level) ==
            if level < n && !HasLevel(before, t.levels[level]) && HasLevel(now, t.levels[level]) then 1 else 0
  {
    if n > 0 {
      UnlockedTimes(t, before, now, n - 1, level);
      var rest := Unlocked(t, before, now, n - 1);
      assert (rest + [n - 1])[..|rest|] == rest && rest + [] == rest;
    }
  }

  /** Earned points never go back, so each level's products are granted once, when it is first
      reached, and never again. */
  lemma {:induction false} LevelsOnce(t: Tree, minimum: int, b: Page, events: seq<Event>, level: nat)
    requires level < |t.levels|
    ensures var c := Run(t, minimum, b, events);
            && c.earned >= b.earned
            && Times(c.levels, level) == Times(b.levels, level)
                 + (if !HasLevel(b.earned, t.levels[level]) && HasLevel(c.earned, t.levels[level]) then 1 else 0)
  {
    if events != [] {
      LevelsOnce(t, minimum, b, events[..|events| - 1], level);
      hide Next;
      var c, e := Run(t, minimum, b, events[..|events| - 1]), events[|events| - 1];
      NextEarned(t, minimum, c, e);
      UnlockedTimes(t, c.earned, Next(t, minimum, c, e).earned, |t.levels|, level);
      TimesConcat(c.levels, Unlocked(t, c.earned, Next(t, minimum, c, e).earned, |t.levels|), level);
      hide Unlocked, Times;
    }
  }

  /** An auth update of an account with these legacy points, which its earned points reach. */
  predicate Steady(minimum: int, e: Event, legacy: nat) {
    e.Auth? && Max(e.legacy, 0) == legacy && Max(e.earned, minimum) >= legacy
  }

  /** Along a run of auth updates with fixed legacy points the slots granted add up to one for every
      twelve points earned since. */
  lemma {:induction false} SlotsTelescope(t: Tree, minimum: int, b: Page, events: seq<Event>, legacy: nat)
    requires forall e | e in events :: Steady(minimum, e, legacy)
    ensures var c := Run(t, minimum, b, events);
            && c.earned >= b.earned
            && c.slots - b.slots == Max(c.earned - legacy, 0) / POINTS_PER_SLOT - Max(b.earned - legacy, 0) / POINTS_PER_SLOT
  {
    if events != [] {
      hide Next;
      SlotsTelescope(t, minimum, b, events[..|events| - 1], legacy);
      assert Steady(minimum, events[|events| - 1], legacy);
      AuthSlots(t, minimum, Run(t, minimum, b, events[..|events| - 1]), events[|events| - 1], legacy);
      hide Steady;
    }
  }

  lemma AuthSlots(t: Tree, minimum: int, b: Page, e: Event, legacy: nat)
    requires Steady(minimum, e, legacy)
    ensures var c := Next(t, minimum, b, e);
            && c.earned >= b.earned
            && c.slots - b.slots == Max(c.earned - legacy, 0) / POINTS_PER_SLOT - Max(b.earned - legacy, 0) / POINTS_PER_SLOT
  {
    hide SpendUpTo, Unlocked, Ledger;
    var p, l := Max(e.earned, minimum), Legacy(minimum, e.earned, e.legacy);
    var raised: Page := if p > b.earned then Increase(t, b, p).(slots := b.slots + NewSlots(b.earned, p, l)) else b;
    SpendLedger(t, raised, LegacyNodes(l));
  }
}
