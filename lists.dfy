/** Shopping-list totals: never stored, always the live sum over the list's items. */
module ShoppingLists {
  import opened Domain
  import opened Tables

  /** Line total of an item: unit price times quantity. */
  function Line(item: ListItem): int
  {
    item.price * item.quantity
  }

  /** Sum of the line totals of `items`. */
  function ListTotal(items: seq<ListItem>): int
  {
    if |items| == 0 then 0 else ListTotal(items[..|items| - 1]) + Line(items[|items| - 1])
  }

  /** The rows that belong to list `l`, in the order they are given. */
  function ItemsOfList(rows: seq<ListItem>, l: nat): seq<ListItem>
  {
    if |rows| == 0 then []
    else
      var x := rows[|rows| - 1];
      ItemsOfList(rows[..|rows| - 1], l) + (if x.listId == l then [x] else [])
  }

  /** The items of a list are exactly the rows that name that list. */
  lemma {:induction false} ItemsOfListExactly(rows: seq<ListItem>, l: nat, x: ListItem)
    ensures x in ItemsOfList(rows, l) <==> x in rows && x.listId == l
  {
    if |rows| > 0 {
      var init := rows[..|rows| - 1];
      ItemsOfListExactly(init, l, x);
      assert rows == init + [rows[|rows| - 1]];
    }
  }

  /** One more row joins list `l`'s items exactly when it names `l`. */
  lemma {:induction false} ItemsOfListSnoc(rows: seq<ListItem>, x: ListItem, l: nat)
    ensures ItemsOfList(rows + [x], l) == ItemsOfList(rows, l) + if x.listId == l then [x] else []
  {
    assert (rows + [x])[..|rows|] == rows;
  }

  /** Deleting a list and, by ON DELETE CASCADE, every item row naming it leaves that
      list with no items and every other list with exactly the items it had.
      `kept` is the items table after the cascade. */
  lemma {:induction false} ItemsOfListCascade(table: map<nat, ListItem>, kept: map<nat, ListItem>, gone: nat, hi: nat, l: nat)
    requires forall k :: k in kept <==> k in table && table[k].listId != gone
    requires forall k :: k in kept ==> kept[k] == table[k]
    ensures ItemsOfList(Rows(kept, hi), l) == if l == gone then [] else ItemsOfList(Rows(table, hi), l)
  {
    if hi > 0 {
      var k := hi - 1;
      ItemsOfListCascade(table, kept, gone, k, l);
      RowsStep(kept, k);
      RowsStep(table, k);
      if k in table {
        ItemsOfListSnoc(Rows(table, k), table[k], l);
        if k in kept {
          ItemsOfListSnoc(Rows(kept, k), table[k], l);
        }
      }
    }
  }

  /** The total of two runs of items is the sum of their totals. */
  lemma {:induction false} ListTotalConcat(xs: seq<ListItem>, ys: seq<ListItem>)
    ensures ListTotal(xs + ys) == ListTotal(xs) + ListTotal(ys)
    decreases |ys|
  {
    if |ys| == 0 {
      assert xs + ys == xs;
    } else {
      var init := ys[..|ys| - 1];
      ListTotalConcat(xs, init);
      assert (xs + ys)[..|xs + ys| - 1] == xs + init;
    }
  }

  /** A list's total adds up the line totals of exactly the rows of that list. */
  lemma {:induction false} ListTotalOfRows(rows: seq<ListItem>, l: nat)
    ensures ListTotal(ItemsOfList(rows, l)) == LineSumFor(rows, l)
  {
    if |rows| > 0 {
      var init := rows[..|rows| - 1];
      var x := rows[|rows| - 1];
      ListTotalOfRows(init, l);
      ListTotalConcat(ItemsOfList(init, l), if x.listId == l then [x] else []);
    }
  }

  /** Reference definition of a list's total over all rows of the items table:
      a row contributes its line total when it belongs to `l`, nothing otherwise. */
  function LineSumFor(rows: seq<ListItem>, l: nat): int
  {
    if |rows| == 0 then 0
    else
      var x := rows[|rows| - 1];
      LineSumFor(rows[..|rows| - 1], l) + (if x.listId == l then Line(x) else 0)
  }

  /** Deleting item `k` lowers the total of its own list by its line total and
      leaves every other list's total alone. */
  lemma {:induction false} DeleteItemTotal(table: map<nat, ListItem>, k: nat, l: nat, hi: nat)
    ensures LineSumFor(Rows(table - {k}, hi), l)
            + (if k in table && k < hi && table[k].listId == l then Line(table[k]) else 0)
            == LineSumFor(Rows(table, hi), l)
  {
    if hi > 0 {
      var j := hi - 1;
      DeleteItemTotal(table, k, l, j);
      RowsStep(table, j);
      RowsStep(table - {k}, j);
      if j in table {
        assert (Rows(table, j) + [table[j]])[..|Rows(table, j)|] == Rows(table, j);
      }
      if j in table - {k} {
        assert (Rows(table - {k}, j) + [table[j]])[..|Rows(table - {k}, j)|] == Rows(table - {k}, j);
      }
    }
  }
}
