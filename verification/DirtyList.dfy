/**
 The list of accounts with something to write or send: a singly linked list threaded
 through the accounts themselves, filtered in place by every tick of the account database.
 */
module DirtyList {
  import opened Lists

  class Account {
    var loaded: bool
    var sql: bool            // the account row is to be written
    var network: bool        // the account is to be sent to its shard
    var nextUpdate: Account?

    constructor ()
      ensures !loaded && !sql && !network && nextUpdate == null
    {
      loaded, sql, network, nextUpdate := false, false, false, null;
    }

    predicate Flagged()
      reads this
    {
      sql || network
    }
  }

  /** The accounts a tick keeps: those to be sent that have not been loaded. */
  ghost function Kept(list: seq<Account>): seq<Account>
    reads list`sql, list`network, list`loaded
  {
    if list == [] then []
    else
      var a := list[0];
      (if a.network && !a.loaded then [a] else []) + Kept(list[1..])
  }

  ghost function ToCommit(list: seq<Account>): seq<Account>
    reads list`sql, list`network, list`loaded
  {
    if list == [] then []
    else
      var a := list[0];
      (if a.sql then [a] else []) + ToCommit(list[1..])
  }

  ghost function ToSend(list: seq<Account>): seq<Account>
    reads list`sql, list`network, list`loaded
  {
    if list == [] then []
    else
      var a := list[0];
      (if a.network && a.loaded then [a] else []) + ToSend(list[1..])
  }

  function First(s: seq<Account>, end: Account?): Account? {
    if s == [] then end else s[0]
  }

  /** Each account links to the one after it, and the last one to `end`. */
  ghost predicate Links(s: seq<Account>, end: Account?)
    reads s`nextUpdate
  {
    forall k {:trigger s[k]} | 0 <= k < |s| :: s[k].nextUpdate == if k + 1 < |s| then s[k + 1] else end
  }

  class AccountDb {
    var updateListHead: Account?
    var commits: seq<Account>
    var sends: seq<Account>
    ghost var list: seq<Account>
    ghost var known: set<Account>

    /** The links run through exactly these accounts, in this order, and end. */
    ghost predicate Chain(s: seq<Account>)
      reads `updateListHead, s`nextUpdate
    {
      updateListHead == First(s, null) && Links(s, null)
    }

    ghost predicate Valid()
      reads this, known, list
    {
      && Chain(list) && NoDup(list)
      && (forall a | a in list :: a in known)
      && (forall a | a in known :: a in list <==> a.Flagged())
      && (forall a | a in known && a.sql :: a.loaded)
    }

    constructor ()
      ensures Valid() && list == [] && known == {} && commits == sends == []
    {
      updateListHead, commits, sends, list, known := null, [], [], [], {};
    }

    method Create() returns (a: Account)
      requires Valid()
      modifies `known
      ensures Valid() && fresh(a) && known == old(known) + {a} && !a.loaded
    {
      a := new Account();
      known := known + {a};
    }

    method LoadFinished(a: Account)
      requires Valid() && a in known
      modifies a`loaded
      ensures Valid() && a.loaded
    {
      a.loaded := true;
    }

    /** Flags an account; one that had no flag goes to the head of the list. */
    method MarkUpdate(a: Account, sql: bool, network: bool)
      requires Valid() && a in known && (sql || network) && (sql ==> a.loaded)
      modifies `updateListHead, `list, a
      ensures Valid() && a.loaded == old(a.loaded)
      ensures a.sql == (old(a.sql) || sql) && a.network == (old(a.network) || network)
      ensures list == if old(a.Flagged()) then old(list) else [a] + old(list)
    {
      hide Links, NoDup, Chain;
      if !a.sql && !a.network {
        LinkHead(a);
      }
      a.sql := a.sql || sql;
      a.network := a.network || network;
    }

    method LinkHead(a: Account)
      requires Chain(list) && NoDup(list) && a !in list
      modifies `updateListHead, `list, a`nextUpdate
      ensures Chain(list) && NoDup(list) && list == [a] + old(list)
    {
      a.nextUpdate := updateListHead;
      updateListHead := a;
      LinksFront(a, list, null);
      NoDupFront(a, list);
      list := [a] + list;
    }

    /** One turn of the walk: `kept` are the accounts passed and left in the list, `rest` those ahead. */
    method Turn(account: Account, prev: Account?, ghost kept: seq<Account>, ghost rest: seq<Account>) returns (prev': Account?, next: Account?)
      requires Links(kept, account) && account.nextUpdate == First(rest, null) && Links(rest, null)
      requires NoDup(kept) && account !in kept && account !in rest && forall a | a in kept :: a !in rest
      requires updateListHead == First(kept, account)
      requires prev == if kept == [] then null else kept[|kept| - 1]
      modifies this`updateListHead, this`commits, this`sends, account`sql, account`network, kept`nextUpdate, account`nextUpdate
      ensures next == First(rest, null) && Links(rest, null)
      ensures var kept' := if old(account.network && !account.loaded) then kept + [account] else kept;
              && Links(kept', next) && updateListHead == First(kept', next)
              && prev' == if kept' == [] then null else kept'[|kept'| - 1]
      ensures commits == old(commits) + (if old(account.sql) then [account] else [])
      ensures sends == old(sends) + (if old(account.network && account.loaded) then [account] else [])
      ensures !account.sql && account.network == old(account.network && !account.loaded)
    {
      next := account.nextUpdate;
      prev' := prev;
      if account.sql {
        commits := commits + [account];
        account.sql := false;
      }
      if account.network && account.loaded {
        sends := sends + [account];
        account.network := false;
      }
      if !account.sql && !account.network {
        account.nextUpdate := null;
        if prev == null {
          updateListHead := next;
        } else {
          prev.nextUpdate := next;
          LinksEnd(kept);
        }
      } else {
        prev' := account;
        LinksBack(kept, account, next);
      }
      LinksKept(rest);
    }

    twostate lemma LinksKept(s: seq<Account>)
      requires old(Links(s, null)) && forall a | a in s :: a.nextUpdate == old(a.nextUpdate)
      ensures Links(s, null)
    {
      forall k | 0 <= k < |s| ensures s[k].nextUpdate == if k + 1 < |s| then s[k + 1] else null {
        assert s[k] in s;
      }
    }

    /** One pass over the list: commits, sends, and unlinks whatever has no flag left. */
    method Tick() returns (empty: bool)
      requires Valid()
      modifies this, list
      ensures Valid() && known == old(known)
      ensures list == old(Kept(list)) && empty == (list == [])
      ensures commits == old(commits) + old(ToCommit(list)) && sends == old(sends) + old(ToSend(list))
      ensures forall a | a in known :: !a.sql && a.network == (old(a.network) && !a.loaded) && a.loaded == old(a.loaded)
    {
      hide Valid, Chain, NoDup, Links, Kept, ToCommit, ToSend, First;
      OpenValid();
      KeptMembers(list);
      ghost var kept := Walk();
      TickFlags();
      list := kept;
      TickValid();
      empty := updateListHead == null;
      EmptyList();
    }

    lemma OpenValid()
      requires Valid()
      ensures Chain(list) && NoDup(list)
    {
    }

    lemma EmptyList()
      requires Valid()
      ensures updateListHead == null <==> list == []
    {
      hide Links, NoDup;
    }

    /** After the walk every known account has been passed, or had no flag. */
    twostate lemma TickFlags()
      requires old(Valid()) && known == old(known) && list == old(list)
      requires forall k | 0 <= k < |list| :: Passed(list[k])
      requires forall a | a in known && a !in list :: a.sql == old(a.sql) && a.network == old(a.network) && a.loaded == old(a.loaded)
      ensures forall a | a in known :: Passed(a)
    {
      hide Chain, NoDup;
      forall a | a in known ensures Passed(a) {
        if a in list {
          var k :| 0 <= k < |list| && list[k] == a;
        }
      }
    }

    twostate lemma TickValid()
      requires old(Valid()) && known == old(known) && list == old(Kept(list))
      requires forall k | 0 <= k < |list| :: list[k] in old(list)
      requires forall k | 0 <= k < |old(list)| :: old(list)[k] in list <==> old(list[k].network && !list[k].loaded)
      requires NoDup(list) && Links(list, null) && updateListHead == First(list, null)
      requires forall a | a in known :: Passed(a)
      ensures Valid()
    {
      hide Kept, Links, NoDup;
    }

    method Walk() returns (ghost kept: seq<Account>)
      requires Chain(list) && NoDup(list)
      modifies `updateListHead, `commits, `sends, list
      ensures kept == old(Kept(list)) && NoDup(kept) && Links(kept, null) && updateListHead == First(kept, null)
      ensures commits == old(commits) + old(ToCommit(list)) && sends == old(sends) + old(ToSend(list))
      ensures forall k | 0 <= k < |list| :: Passed(list[k])
    {
      hide Links, NoDup, Kept, ToCommit, ToSend, At, First, Toward, Halfway;
      kept := [];
      ghost var was, rest := list, list;
      ghost var marks := seq(|was|, k requires 0 <= k < |was| reads was => Flags(was[k].sql, was[k].network, was[k].loaded));
      Starts();
      ghost var goal := SetsOut();
      SetOut(marks, goal);
      var prev: Account? := null;
      var account := updateListHead;
      while account != null
        decreases |rest|
        invariant Halfway(marks, goal, kept, rest, prev, account)
        invariant forall k | 0 <= k < |kept| :: kept[k] in list
        invariant forall k | 0 <= k < |rest| :: rest[k] in list
      {
        Faces(marks, goal, kept, rest, prev, account);
        kept, rest, prev, account := Step(marks, goal, kept, rest, prev, account);
      }
      Arrived(marks, goal, kept, rest, prev, account);
    }

    /** The walk, with the flags of the list's accounts before it began. */
    ghost predicate Halfway(marks: seq<Flags>, goal: Goal, kept: seq<Account>, rest: seq<Account>, prev: Account?, account: Account?)
      reads this, list, kept, rest
    {
      && |marks| == |list| && |rest| <= |list| && rest == list[|list| - |rest|..] && NoDup(list)
      && At(kept, rest, prev, account) && Toward(goal, kept, rest)
      && forall k | 0 <= k < |list| :: Stands(list[k], marks[k], k < |list| - |rest|)
    }

    lemma SetOut(marks: seq<Flags>, goal: Goal)
      requires At([], list, null, updateListHead) && Toward(goal, [], list) && NoDup(list)
      requires |marks| == |list| && forall k | 0 <= k < |list| :: marks[k] == Flags(list[k].sql, list[k].network, list[k].loaded)
      ensures Halfway(marks, goal, [], list, null, updateListHead)
    {
      hide At, Toward, NoDup;
    }

    lemma Faces(marks: seq<Flags>, goal: Goal, kept: seq<Account>, rest: seq<Account>, prev: Account?, account: Account)
      requires Halfway(marks, goal, kept, rest, prev, account)
      ensures account in list
    {
      hide Toward, NoDup, Links;
    }

    lemma Arrived(marks: seq<Flags>, goal: Goal, kept: seq<Account>, rest: seq<Account>, prev: Account?, account: Account?)
      requires Halfway(marks, goal, kept, rest, prev, account) && account == null
      ensures goal == Goal(kept, commits, sends)
      ensures NoDup(kept) && Links(kept, null) && updateListHead == First(kept, null)
      ensures |marks| == |list| && forall k | 0 <= k < |list| :: Stands(list[k], marks[k], true)
    {
      hide At, Toward, NoDup, Links;
      Ends(kept, rest, prev, account);
      Reached(goal, kept);
    }

    method Step(ghost marks: seq<Flags>, ghost goal: Goal, ghost kept: seq<Account>, ghost rest: seq<Account>, prev: Account?, account: Account)
      returns (ghost kept': seq<Account>, ghost rest': seq<Account>, prev': Account?, next: Account?)
      requires Halfway(marks, goal, kept, rest, prev, account)
      modifies this`updateListHead, this`commits, this`sends, account`sql, account`network, kept`nextUpdate, account`nextUpdate
      ensures Halfway(marks, goal, kept', rest', prev', next) && |rest'| < |rest|
      ensures forall k | 0 <= k < |kept'| :: kept'[k] in kept || kept'[k] in rest
      ensures forall k | 0 <= k < |rest'| :: rest'[k] in rest
    {
      hide At, Toward, NoDup;
      ghost var i := |list| - |rest|;
      Ends(kept, rest, prev, account);
      DistinctAt(list, i);
      assert Stands(list[i], marks[i], false);
      kept', rest', prev', next := Pass(goal, kept, rest, prev, account);
      assert Stands(list[i], marks[i], true);
    }

    /** Written, and sent unless it is not loaded. */
    twostate predicate Passed(a: Account)
      reads a`sql, a`network, a`loaded
    {
      !a.sql && a.network == (old(a.network) && !a.loaded) && a.loaded == old(a.loaded)
    }

    /** The walk stands at `account`: `kept` are the accounts behind it, linked to it, and `rest` those from it on. */
    ghost predicate At(kept: seq<Account>, rest: seq<Account>, prev: Account?, account: Account?)
      reads `updateListHead, kept`nextUpdate, rest`nextUpdate
    {
      && account == First(rest, null) && prev == (if kept == [] then null else kept[|kept| - 1])
      && Links(kept, account) && Links(rest, null) && updateListHead == First(kept, account)
      && NoDup(kept) && NoDup(rest) && forall a | a in kept :: a !in rest
    }

    lemma Starts()
      requires Chain(list) && NoDup(list)
      ensures At([], list, null, updateListHead)
    {
    }

    lemma Ends(kept: seq<Account>, rest: seq<Account>, prev: Account?, account: Account?)
      requires At(kept, rest, prev, account)
      ensures account == null <==> rest == []
      ensures account != null ==> account == rest[0]
      ensures rest == [] ==> NoDup(kept) && Links(kept, null) && updateListHead == First(kept, null)
    {
    }

    /** What is done so far and what is still ahead add up to the goal. */
    ghost predicate Toward(goal: Goal, kept: seq<Account>, rest: seq<Account>)
      reads `commits, `sends, rest`sql, rest`network, rest`loaded
    {
      kept + Kept(rest) == goal.kept && commits + ToCommit(rest) == goal.commits && sends + ToSend(rest) == goal.sends
    }

    lemma Reached(goal: Goal, kept: seq<Account>)
      requires Toward(goal, kept, [])
      ensures goal == Goal(kept, commits, sends)
    {
    }

    lemma SetsOut() returns (goal: Goal)
      ensures goal == Goal(Kept(list), commits + ToCommit(list), sends + ToSend(list)) && Toward(goal, [], list)
    {
      goal := Goal(Kept(list), commits + ToCommit(list), sends + ToSend(list));
      assert [] + Kept(list) == Kept(list);
    }

    /** A turn, with what it leaves to keep, to commit and to send. */
    method Pass(ghost goal: Goal, ghost kept: seq<Account>, ghost rest: seq<Account>, prev: Account?, account: Account)
      returns (ghost kept': seq<Account>, ghost rest': seq<Account>, prev': Account?, next: Account?)
      requires At(kept, rest, prev, account) && Toward(goal, kept, rest)
      modifies this`updateListHead, this`commits, this`sends, account`sql, account`network, kept`nextUpdate, account`nextUpdate
      ensures At(kept', rest', prev', next) && rest != [] && account == rest[0] && rest' == rest[1..]
      ensures kept' == (if old(account.network && !account.loaded) then kept + [account] else kept)
      ensures Toward(goal, kept', rest')
      ensures !account.sql && account.network == old(account.network && !account.loaded)
    {
      hide Links, NoDup, First, Kept, ToCommit, ToSend, Toward;
      AtNext(kept, rest, prev, account);
      Ahead(goal, kept, rest);
      rest' := rest[1..];
      kept' := if account.network && !account.loaded then kept + [account] else kept;
      assert kept + [] == kept && commits + [] == commits && sends + [] == sends;
      prev', next := Turn(account, prev, kept, rest');
      Behind(goal, kept', rest');
    }

    /** The next account's share of the goal. */
    lemma Ahead(goal: Goal, kept: seq<Account>, rest: seq<Account>)
      requires Toward(goal, kept, rest) && rest != []
      ensures var a, more := rest[0], rest[1..];
              && goal.kept == (kept + (if a.network && !a.loaded then [a] else [])) + Kept(more)
              && goal.commits == (commits + (if a.sql then [a] else [])) + ToCommit(more)
              && goal.sends == (sends + (if a.network && a.loaded then [a] else [])) + ToSend(more)
    {
      var a, more := rest[0], rest[1..];
      Moved(kept, if a.network && !a.loaded then [a] else [], Kept(more));
      Moved(commits, if a.sql then [a] else [], ToCommit(more));
      Moved(sends, if a.network && a.loaded then [a] else [], ToSend(more));
    }

    lemma Behind(goal: Goal, kept: seq<Account>, rest: seq<Account>)
      requires goal.kept == kept + Kept(rest) && goal.commits == commits + ToCommit(rest) && goal.sends == sends + ToSend(rest)
      ensures Toward(goal, kept, rest)
    {
    }

    lemma AtNext(kept: seq<Account>, rest: seq<Account>, prev: Account?, account: Account)
      requires At(kept, rest, prev, account)
      ensures rest != [] && account == rest[0] && account !in kept && account !in rest[1..]
      ensures NoDup(kept) && NoDup(kept + [account]) && NoDup(rest[1..])
      ensures (forall a | a in kept :: a !in rest[1..]) && updateListHead == First(kept, account)
      ensures account.nextUpdate == First(rest[1..], null) && Links(rest[1..], null) && Links(kept, account)
    {
      LinksTail(rest, null);
      NoDupTail(rest);
      NoDupBack(kept, account);
    }
  }

  lemma DistinctAt(s: seq<Account>, i: nat)
    requires NoDup(s) && i < |s|
    ensures forall k | 0 <= k < |s| && k != i :: s[k] != s[i]
    ensures s[i..][0] == s[i] && s[i..][1..] == s[i + 1..]
  {
  }

  lemma NoDupTail(s: seq<Account>)
    requires s != [] && NoDup(s)
    ensures NoDup(s[1..]) && s[0] !in s[1..] && forall a | a in s[1..] :: a in s
  {
  }

  lemma NoDupBack(s: seq<Account>, a: Account)
    requires NoDup(s) && a !in s
    ensures NoDup(s + [a])
  {
  }

  datatype Goal = Goal(kept: seq<Account>, commits: seq<Account>, sends: seq<Account>)

  datatype Flags = Flags(sql: bool, network: bool, loaded: bool)

  /** The account has the flags it had, or those a tick leaves it. */
  ghost predicate Stands(a: Account, was: Flags, passed: bool)
    reads a`sql, a`network, a`loaded
  {
    && a.loaded == was.loaded
    && a.sql == (!passed && was.sql)
    && a.network == (was.network && !(passed && was.loaded))
  }

  lemma LinksFront(a: Account, s: seq<Account>, end: Account?)
    requires Links(s, end) && a.nextUpdate == First(s, end)
    ensures Links([a] + s, end)
  {
    var t := [a] + s;
    forall k | 0 <= k < |t| ensures t[k].nextUpdate == if k + 1 < |t| then t[k + 1] else end {
      if k > 0 { assert t[k] == s[k - 1]; }
    }
  }

  lemma LinksBack(s: seq<Account>, a: Account, end: Account?)
    requires Links(s, a) && a.nextUpdate == end
    ensures Links(s + [a], end)
  {
    var t := s + [a];
    forall k | 0 <= k < |t| ensures t[k].nextUpdate == if k + 1 < |t| then t[k + 1] else end {
      if k < |s| { assert t[k] == s[k]; }
    }
  }

  /** Only the last account's link was changed. */
  twostate lemma LinksEnd(s: seq<Account>)
    requires s != [] && NoDup(s) && old(Links(s, s[|s| - 1].nextUpdate))
    requires forall k | 0 <= k < |s| - 1 :: s[k].nextUpdate == old(s[k].nextUpdate)
    ensures Links(s, s[|s| - 1].nextUpdate)
  {
    forall k | 0 <= k < |s| ensures s[k].nextUpdate == if k + 1 < |s| then s[k + 1] else s[|s| - 1].nextUpdate {
      assert k + 1 < |s| ==> old(s[k].nextUpdate) == s[k + 1];
    }
  }

  lemma LinksTail(s: seq<Account>, end: Account?)
    requires s != [] && Links(s, end)
    ensures Links(s[1..], end) && s[0].nextUpdate == First(s[1..], end)
  {
    var t := s[1..];
    forall k | 0 <= k < |t| ensures t[k].nextUpdate == if k + 1 < |t| then t[k + 1] else end {
      assert t[k] == s[k + 1];
    }
  }

  lemma NoDupFront(a: Account, s: seq<Account>)
    requires NoDup(s) && a !in s
    ensures NoDup([a] + s)
  {
  }

  /** What a tick keeps: distinct accounts, in their order, exactly those still to be sent. */
  lemma {:induction false} KeptMembers(list: seq<Account>)
    requires NoDup(list)
    ensures NoDup(Kept(list))
    ensures forall a :: a in Kept(list) <==> a in list && a.network && !a.loaded
    ensures forall k | 0 <= k < |Kept(list)| :: Kept(list)[k] in list
    ensures forall k | 0 <= k < |list| :: list[k] in Kept(list) <==> list[k].network && !list[k].loaded
  {
    if list != [] {
      KeptMembers(list[1..]);
      NoDupTail(list);
      if list[0].network && !list[0].loaded {
        NoDupFront(list[0], Kept(list[1..]));
      }
    }
  }

  ghost predicate Before(list: seq<Account>, a: Account, b: Account) {
    exists p, q :: 0 <= p < q < |list| && list[p] == a && list[q] == b
  }

  /** What is before something else in a part is before it in the whole. */
  ghost predicate InOrder(part: seq<Account>, list: seq<Account>) {
    forall i, j | 0 <= i < j < |part| :: Before(list, part[i], part[j])
  }

  lemma InOrderFront(part: seq<Account>, a: Account, list: seq<Account>, with: bool)
    requires InOrder(part, list) && forall k | 0 <= k < |part| :: part[k] in list
    ensures InOrder((if with then [a] else []) + part, [a] + list)
  {
    var whole, all := (if with then [a] else []) + part, [a] + list;
    var n := if with then 1 else 0;
    forall i, j | 0 <= i < j < |whole|
      ensures Before(all, whole[i], whole[j])
    {
      if i < n {
        var q :| 0 <= q < |list| && list[q] == part[j - n];
        assert all[0] == whole[i] && all[q + 1] == whole[j];
      } else {
        var p, q :| 0 <= p < q < |list| && list[p] == part[i - n] && list[q] == part[j - n];
        assert all[p + 1] == whole[i] && all[q + 1] == whole[j];
      }
    }
    assert InOrder(whole, all);
  }

  /** A tick commits exactly the accounts with a row to write, each once and in the order of the list. */
  lemma {:induction false} ToCommitMembers(list: seq<Account>)
    requires NoDup(list)
    ensures NoDup(ToCommit(list)) && InOrder(ToCommit(list), list)
    ensures forall k | 0 <= k < |list| :: list[k] in ToCommit(list) <==> list[k].sql
    ensures forall k | 0 <= k < |ToCommit(list)| :: ToCommit(list)[k] in list
  {
    if list != [] {
      NoDupTail(list);
      ToCommitMembers(list[1..]);
      InOrderFront(ToCommit(list[1..]), list[0], list[1..], list[0].sql);
      assert list == [list[0]] + list[1..];
      if list[0].sql { NoDupFront(list[0], ToCommit(list[1..])); }
    }
  }

  /** It sends exactly the loaded accounts that are to be sent, each once and in order. */
  lemma {:induction false} ToSendMembers(list: seq<Account>)
    requires NoDup(list)
    ensures NoDup(ToSend(list)) && InOrder(ToSend(list), list)
    ensures forall k | 0 <= k < |list| :: list[k] in ToSend(list) <==> list[k].network && list[k].loaded
    ensures forall k | 0 <= k < |ToSend(list)| :: ToSend(list)[k] in list
  {
    if list != [] {
      NoDupTail(list);
      ToSendMembers(list[1..]);
      InOrderFront(ToSend(list[1..]), list[0], list[1..], list[0].network && list[0].loaded);
      assert list == [list[0]] + list[1..];
      if list[0].network && list[0].loaded { NoDupFront(list[0], ToSend(list[1..])); }
    }
  }

  /** And what it keeps stays in order. */
  lemma {:induction false} KeptInOrder(list: seq<Account>)
    requires NoDup(list)
    ensures InOrder(Kept(list), list)
  {
    if list != [] {
      NoDupTail(list);
      KeptInOrder(list[1..]);
      KeptMembers(list[1..]);
      InOrderFront(Kept(list[1..]), list[0], list[1..], list[0].network && !list[0].loaded);
      assert list == [list[0]] + list[1..];
    }
  }
}
