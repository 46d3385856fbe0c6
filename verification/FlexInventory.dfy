/**
 The result buffer of a task that may report several inventory rows: the first row is
 held inline, and a heap list is made, and the first row copied into it, only when a
 second one arrives.
 */
module FlexInventory {
  import opened OrderLedger

  class FlexInventory {
    var single: InvRow
    var list: array?<InvRow>
    var count: nat

    ghost predicate Valid()
      reads this
    {
      if list == null then count <= 1 else 2 <= count <= list.Length
    }

    /** The rows read so far, in either form. */
    ghost function Contents(): seq<InvRow>
      requires Valid()
      reads this, list
    {
      if list != null then list[..count] else if count == 1 then [single] else []
    }

    constructor ()
      ensures Valid() && Contents() == []
    {
      single, list, count := InvRow(0, Totals(0, 0, 0)), null, 0;
    }

    /** Makes room for index k, doubling as it grows. */
    method Fit(k: nat)
      requires list == null || k <= list.Length
      modifies this`list
      ensures list != null && k < list.Length
      ensures list == old(list) || fresh(list)
      ensures old(list) == null ==> fresh(list)
      ensures old(list) != null ==> list[..k] == old(list[..k])
    {
      if list == null || k >= list.Length {
        var bigger := new InvRow[if k > 0 then k * 2 else 1](_ => InvRow(0, Totals(0, 0, 0)));
        if list != null {
          forall i | 0 <= i < list.Length {
            bigger[i] := list[i];
          }
        }
        list := bigger;
      }
    }

    method Add(inv: InvRow)
      requires Valid()
      modifies this, list
      ensures Valid() && Contents() == old(Contents()) + [inv]
      ensures list == null || list == old(list) || fresh(list)
    {
      if list == null && count == 0 {
        single := inv;
        count := count + 1;
        return;
      }
      var copyFirst := list == null;
      var k := count;
      Fit(k);
      count := k + 1;
      list[k] := inv;
      if copyFirst {
        list[0] := single;
      }
    }

    /** Puts every row into an account's inventory, the later rows over the earlier ones. */
    method Update(cache: map<nat, Totals>) returns (cache': map<nat, Totals>)
      requires Valid()
      ensures cache' == Overlay(cache, Contents())
    {
      cache' := cache;
      if count == 0 {
        return;
      }
      if list != null {
        var i := 0;
        while i < count
          invariant 0 <= i <= count
          invariant cache' == Overlay(cache, list[..i])
        {
          assert list[..i + 1][..i] == list[..i];
          cache' := cache'[list[i].sku := list[i].totals];
          i := i + 1;
        }
      } else {
        assert [single][..0] == [];
        cache' := cache'[single.sku := single.totals];
      }
    }
  }

  /** The fetch loop of a task's result sets. */
  method ReadRows(rows: seq<InvRow>) returns (flex: FlexInventory)
    ensures fresh(flex) && flex.Valid() && flex.Contents() == rows
    ensures flex.list == null || fresh(flex.list)
  {
    flex := new FlexInventory();
    var i := 0;
    while i < |rows|
      invariant 0 <= i <= |rows|
      invariant fresh(flex) && (flex.list == null || fresh(flex.list))
      invariant flex.Valid() && flex.Contents() == rows[..i]
    {
      flex.Add(rows[i]);
      i := i + 1;
    }
  }
}
