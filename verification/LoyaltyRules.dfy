/**
 What the loyalty requests do, told on bits and points: which are accepted, what they leave, and
 that nobody spends a point that is not there.
 */
module LoyaltyRules {
  import opened Loyalty

  // ---------- requests ----------

  /** The nodes held, of the first n. */
  function Holding(t: Tree, b: Page, n: nat): nat
    requires n <= BITS
  {
    if n == 0 then 0 else Holding(t, b, n - 1) + if n - 1 in t.nodes && b.bits[n - 1] then 1 else 0
  }

  lemma {:induction false} ResetPays(t: Tree, b: Page, n: nat)
    requires n <= BITS
    ensures ResetUpTo(t, b, n).unspent == b.unspent + Holding(t, b, n)
  {
    if n > 0 {
      ResetPays(t, b, n - 1);
      ResetLedger(t, b, n - 1);
    }
  }

  lemma {:induction false} HoldingNone(t: Tree, b: Page, n: nat)
    requires n <= BITS
    ensures Holding(t, b, n) == 0 <==> forall i | 0 <= i < n && i in t.nodes :: !b.bits[i]
  {
    if n > 0 {
      HoldingNone(t, b, n - 1);
    }
  }

  /** A node that may be bought: unlocked, with a point to spend, and not held unless it can be bought again. */
  predicate Buyable(t: Tree, b: Page, index: int, unlocked: bool) {
    && 0 <= index < 128 && index in t.nodes && unlocked
    && b.unspent != 0 && (!b.bits[index] || index in t.repeatable)
  }

  /** A node that may be given back: one that is held. */
  predicate Returnable(t: Tree, b: Page, index: int) {
    0 <= index < 128 && index in t.nodes && b.bits[index]
  }

  /** A request without points buys exactly a node that may be bought, for one point, and gives back
      exactly one that is held; any other changes nothing. */
  lemma NodeRequestIs(t: Tree, b: Page, index: int, buy: bool, unlocked: bool)
    requires b.unspent >= 0 && b.earned >= 0
    ensures var z := LoyaltyChange(t, b, index, buy, 0, unlocked);
            if buy && Buyable(t, b, index, unlocked) then z == b.(bits := b.bits[index := true], unspent := b.unspent - 1)
            else if !buy && Returnable(t, b, index) then z == b.(bits := b.bits[index := false], unspent := b.unspent + 1)
            else z == b
  {
  }

  /** A request that takes points away is carried out exactly if that many are left to spend, or if it
      takes all; it gives every node back, and takes or gives the one it names, whatever its tier. */
  lemma ResetRequestIs(t: Tree, b: Page, index: int, buy: bool, delta: int, unlocked: bool)
    requires delta < 0
    ensures var z, named := LoyaltyChange(t, b, index, buy, delta, unlocked), 0 <= index < 128 && index in t.nodes;
            if delta == -0x8000_0000 || b.unspent + delta >= 0 then
              && z.earned == b.earned && z.levels == b.levels && z.slots == b.slots
              && z.unspent == b.unspent + Holding(t, b, 128) + (if !named then 0 else if buy then -1 else 1)
              && forall i | 0 <= i < 128 :: z.bits[i] == if named && i == index then buy else b.bits[i] && i !in t.nodes
            else z == b
  {
    if delta == -0x8000_0000 || b.unspent + delta >= 0 {
      ResetPays(t, b, BITS);
      ResetLedger(t, b, BITS);
      hide ResetUpTo;
    }
  }

  /** A request that gives points is carried out exactly if it leaves no total below zero and the node it
      names, if it names one, may be bought with the points there were before, or be given back. */
  lemma GainRequestIs(t: Tree, b: Page, index: int, buy: bool, delta: int, unlocked: bool)
    requires delta > 0
    ensures var z := LoyaltyChange(t, b, index, buy, delta, unlocked);
            if b.unspent + delta >= 0 && b.earned + delta >= 0
               && (index < 0 || (if buy then Buyable(t, b, index, unlocked) else Returnable(t, b, index))) then
              && z.earned == b.earned + delta && z.slots == b.slots
              && z.unspent == b.unspent + delta + (if index < 0 then 0 else if buy then -1 else 1)
              && z.bits == (if index < 0 then b.bits else b.bits[index := buy])
              && z.levels == b.levels + Unlocked(t, b.earned, b.earned + delta, |t.levels|)
            else z == b
  {
  }

  // ---------- no point is spent twice ----------

  /** From points that are not overspent a request overspends exactly if it takes all points, when there
      are none and no node is held, and buys a node in the same breath. */
  lemma RequestOverspendsIff(t: Tree, b: Page, index: int, buy: bool, delta: int, unlocked: bool)
    requires b.unspent >= 0 && b.earned >= 0
    ensures LoyaltyChange(t, b, index, buy, delta, unlocked).unspent < 0 <==>
            delta == -0x8000_0000 && buy && 0 <= index < 128 && index in t.nodes && b.unspent == 0
            && forall i | 0 <= i < 128 && i in t.nodes :: !b.bits[i]
  {
    HoldingNone(t, b, BITS);
    if delta < 0 {
      ResetRequestIs(t, b, index, buy, delta, unlocked);
    } else if delta > 0 {
      GainRequestIs(t, b, index, buy, delta, unlocked);
    } else {
      NodeRequestIs(t, b, index, buy, unlocked);
    }
    hide LoyaltyChange;
  }

  /** The event leaves every point it spends: no reset that buys, no legacy nodes beyond the points at hand. */
  predicate Affordable(t: Tree, minimum: int, b: Page, e: Event) {
    match e
    case Change(_, buy, delta, _) => !(delta == -0x8000_0000 && buy)
    case Auth(earned, legacy) =>
      b.unspent + Max(Max(earned, minimum) - b.earned, 0) >= Missing(t, b, LegacyNodes(Legacy(minimum, earned, legacy)))
  }

  ghost predicate AllAffordable(t: Tree, minimum: int, b: Page, events: seq<Event>) {
    forall k | 0 <= k < |events| :: Affordable(t, minimum, Run(t, minimum, b, events[..k]), events[k])
  }

  /** Over any run of such events, in any order, nobody has spent more than was earned. */
  lemma {:induction false} NeverOverspent(t: Tree, minimum: int, b: Page, events: seq<Event>)
    requires b.unspent >= 0 && b.earned >= 0 && AllAffordable(t, minimum, b, events)
    ensures Run(t, minimum, b, events).unspent >= 0 && Run(t, minimum, b, events).earned >= 0
  {
    if events != [] {
      var most, e := events[..|events| - 1], events[|events| - 1];
      assert forall k | 0 <= k < |most| :: most[..k] == events[..k] && most[k] == events[k];
      hide LoyaltyChange, AuthUpdate, Affordable;
      NeverOverspent(t, minimum, b, most);
      var c := Run(t, minimum, b, most);
      NextEarned(t, minimum, c, e);
      assert Affordable(t, minimum, c, e);
      AffordableLeaves(t, minimum, c, e);
    }
  }

  lemma AffordableLeaves(t: Tree, minimum: int, b: Page, e: Event)
    requires b.unspent >= 0 && b.earned >= 0 && Affordable(t, minimum, b, e)
    ensures Next(t, minimum, b, e).unspent >= 0
  {
    match e
    case Change(index, buy, delta, unlocked) => RequestOverspendsIff(t, b, index, buy, delta, unlocked);
    case Auth(earned, legacy) => AuthOverspendsIff(t, b, minimum, earned, legacy);
  }

  // ---------- updates ----------

  /** The legacy points an update counts: those it names, but none below zero and no more than are earned. */
  lemma LegacyIs(minimum: int, earned: int, legacy: int)
    ensures Legacy(minimum, earned, legacy) <= earned || Legacy(minimum, earned, legacy) <= minimum
    ensures (legacy <= earned || legacy <= minimum) && legacy >= 0 ==> Legacy(minimum, earned, legacy) == legacy
    ensures legacy < 0 && (0 <= earned || 0 <= minimum) ==> Legacy(minimum, earned, legacy) == 0
    ensures earned < legacy && minimum < legacy ==> Legacy(minimum, earned, legacy) == if earned > minimum then earned else minimum
  {
  }

  /** One node for each legacy point, but for every fifth from the seventh on, and no more than 34. */
  lemma LegacyNodesAre(legacy: int)
    ensures legacy <= 0 ==> LegacyNodes(legacy) == 0
    ensures 1 <= legacy <= 6 ==> LegacyNodes(legacy) == legacy
    ensures legacy >= 6 ==>
              LegacyNodes(legacy + 1) - LegacyNodes(legacy) == if legacy % 5 == 1 || LegacyNodes(legacy) == 34 then 0 else 1
    ensures LegacyNodes(legacy) <= 34
  {
  }

  /** An update never takes earned points back, counts a gain once as earned and once as to be spent,
      spends a point on each legacy node that is missing, and touches no other node. */
  lemma UpdateIs(t: Tree, b: Page, minimum: int, earned: int, legacy: int)
    ensures var z := AuthUpdate(t, b, minimum, earned, legacy);
            var top := if earned > minimum then earned else minimum;
            var n := LegacyNodes(Legacy(minimum, earned, legacy));
            && z.earned == (if top > b.earned then top else b.earned)
            && z.unspent == b.unspent + (z.earned - b.earned) - Missing(t, b, n)
            && (forall i | 0 <= i < 128 :: z.bits[i] == (b.bits[i] || (i < n && i in t.nodes)))
  {
    var top, l := Max(earned, minimum), Legacy(minimum, earned, legacy);
    var raised: Page := if top > b.earned then Increase(t, b, top).(slots := b.slots + NewSlots(b.earned, top, l)) else b;
    SpendLedger(t, raised, LegacyNodes(l));
    SameMissing(t, raised, b, LegacyNodes(l));
    hide SpendUpTo, Missing, LegacyNodes, Legacy;
  }

  /** A level is reached with its points, and with one point at least. */
  lemma HasLevelIs(points: int, required: int)
    ensures HasLevel(points, required) <==> points >= 1 && points >= required
  {
  }

  /** An update that raises the earned points grants a slot for every full dozen they have newly reached
      beyond the legacy points, and one that does not grants none. */
  lemma UpdateSlotsAre(t: Tree, b: Page, minimum: int, earned: int, legacy: int)
    ensures var z, top := AuthUpdate(t, b, minimum, earned, legacy), if earned > minimum then earned else minimum;
            var l := Legacy(minimum, earned, legacy);
            var before, now := (if b.earned > l then b.earned - l else 0) / 12, (top - l) / 12;
            z.slots == b.slots + if top > b.earned && now > before then now - before else 0
  {
    var top, l := Max(earned, minimum), Legacy(minimum, earned, legacy);
    var raised: Page := if top > b.earned then Increase(t, b, top).(slots := b.slots + NewSlots(b.earned, top, l)) else b;
    SpendLedger(t, raised, LegacyNodes(l));
    hide SpendUpTo, Missing, LegacyNodes, Legacy;
  }
}
