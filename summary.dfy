/** Grand and per-category totals of account balances, as the dashboard and the JSON summary show them. */
module Summary {
  import opened Domain

  /** Sum of all balances (`total_geral`). */
  function GrandTotal(rows: seq<Account>): int
  {
    if |rows| == 0 then 0 else GrandTotal(rows[..|rows| - 1]) + rows[|rows| - 1].balance
  }

  /** The accounts of category `c`, in the order they are given. */
  function CategoryAccounts(rows: seq<Account>, c: string): seq<Account>
  {
    if |rows| == 0 then []
    else
      var a := rows[|rows| - 1];
      CategoryAccounts(rows[..|rows| - 1], c) + (if a.category == c then [a] else [])
  }

  /** Sum of the balances of the accounts of category `c`. */
  function CategoryTotal(rows: seq<Account>, c: string): int
  {
    if |rows| == 0 then 0
    else
      var a := rows[|rows| - 1];
      CategoryTotal(rows[..|rows| - 1], c) + (if a.category == c then a.balance else 0)
  }

  /** The categories that occur in `rows`: the keys of the summary dictionary. */
  function CategorySet(rows: seq<Account>): set<string>
  {
    if |rows| == 0 then {} else CategorySet(rows[..|rows| - 1]) + {rows[|rows| - 1].category}
  }

  /** The per-category figures of one category in the dashboard. */
  datatype CategoryGroup = CategoryGroup(accounts: seq<Account>, total: int)

  predicate Distinct(cs: seq<string>)
  {
    forall i, j :: 0 <= i < j < |cs| ==> cs[i] != cs[j]
  }

  /** Sum of the category totals of the categories in `cs`. */
  function SumOfCategories(cs: seq<string>, rows: seq<Account>): int
  {
    if |cs| == 0 then 0 else CategoryTotal(rows, cs[0]) + SumOfCategories(cs[1..], rows)
  }

  /** Taking one more account adds its balance to the grand total. */
  lemma {:induction false} AppendToGrandTotal(rows: seq<Account>, a: Account)
    ensures GrandTotal(rows + [a]) == GrandTotal(rows) + a.balance
  {
    assert (rows + [a])[..|rows|] == rows;
  }

  /** Taking one more account adds its balance to its own category only. */
  lemma {:induction false} AppendToCategoryTotal(rows: seq<Account>, a: Account)
    ensures forall c :: CategoryTotal(rows + [a], c) == CategoryTotal(rows, c) + (if a.category == c then a.balance else 0)
  {
    assert (rows + [a])[..|rows|] == rows;
  }

  /** Taking one more account lists it under its own category only. */
  lemma {:induction false} AppendToCategoryAccounts(rows: seq<Account>, a: Account)
    ensures forall c :: CategoryAccounts(rows + [a], c) == CategoryAccounts(rows, c) + (if a.category == c then [a] else [])
  {
    assert (rows + [a])[..|rows|] == rows;
  }

  /** Taking one more account adds its category to the categories in use. */
  lemma {:induction false} AppendToCategorySet(rows: seq<Account>, a: Account)
    ensures CategorySet(rows + [a]) == CategorySet(rows) + {a.category}
  {
    assert (rows + [a])[..|rows|] == rows;
  }

  /** All four at once. */
  lemma {:induction false} AppendAccount(rows: seq<Account>, a: Account)
    ensures GrandTotal(rows + [a]) == GrandTotal(rows) + a.balance
    ensures forall c :: CategoryTotal(rows + [a], c) == CategoryTotal(rows, c) + (if a.category == c then a.balance else 0)
    ensures forall c :: CategoryAccounts(rows + [a], c) == CategoryAccounts(rows, c) + (if a.category == c then [a] else [])
    ensures CategorySet(rows + [a]) == CategorySet(rows) + {a.category}
  {
    AppendToGrandTotal(rows, a);
    AppendToCategoryTotal(rows, a);
    AppendToCategoryAccounts(rows, a);
    AppendToCategorySet(rows, a);
  }

  /** A prefix of the rows that grows by one row grows the grand total by that row's balance. */
  lemma {:induction false} GrandTotalStep(rows: seq<Account>, i: nat)
    requires i < |rows|
    ensures GrandTotal(rows[..i + 1]) == GrandTotal(rows[..i]) + rows[i].balance
  {
    assert rows[..i + 1][..i] == rows[..i];
  }

  /** The same four facts for a prefix of the rows that grows by one row. */
  lemma {:induction false} TakeOneMore(rows: seq<Account>, i: nat)
    requires i < |rows|
    ensures GrandTotal(rows[..i + 1]) == GrandTotal(rows[..i]) + rows[i].balance
    ensures forall c :: CategoryTotal(rows[..i + 1], c) == CategoryTotal(rows[..i], c) + (if rows[i].category == c then rows[i].balance else 0)
    ensures forall c :: CategoryAccounts(rows[..i + 1], c) == CategoryAccounts(rows[..i], c) + (if rows[i].category == c then [rows[i]] else [])
    ensures CategorySet(rows[..i + 1]) == CategorySet(rows[..i]) + {rows[i].category}
  {
    assert rows[..i + 1] == rows[..i] + [rows[i]];
    AppendAccount(rows[..i], rows[i]);
  }

  /** `groups` is the dashboard's grouping of `rows`: one entry per category in use,
      holding that category's accounts in order and their total. */
  ghost predicate GroupsOf(groups: map<string, CategoryGroup>, rows: seq<Account>)
  {
    && groups.Keys == CategorySet(rows)
    && forall c :: c in groups ==> groups[c] == CategoryGroup(CategoryAccounts(rows, c), CategoryTotal(rows, c))
  }

  /** One more account, filed under its category: a new empty group first if the
      category is new, then the account appended and its balance added. */
  function FileAccount(groups: map<string, CategoryGroup>, a: Account): map<string, CategoryGroup>
  {
    var g := if a.category in groups then groups[a.category] else CategoryGroup([], 0);
    groups[a.category := CategoryGroup(g.accounts + [a], g.total + a.balance)]
  }

  /** Filing the next row keeps the grouping exact. */
  lemma {:induction false} FileNextAccount(groups: map<string, CategoryGroup>, rows: seq<Account>, i: nat)
    requires i < |rows| && GroupsOf(groups, rows[..i])
    ensures GroupsOf(FileAccount(groups, rows[i]), rows[..i + 1])
  {
    TakeOneMore(rows, i);
    if rows[i].category !in groups {
      AbsentCategory(rows[..i], rows[i].category);
    }
  }

  /** `totals` holds the total of each category in use in `rows`. */
  ghost predicate TotalsOf(totals: map<string, int>, rows: seq<Account>)
  {
    && totals.Keys == CategorySet(rows)
    && forall c :: c in totals ==> totals[c] == CategoryTotal(rows, c)
  }

  /** One more account's balance, added to its category's total (zero if the category is new). */
  function AddBalance(totals: map<string, int>, a: Account): map<string, int>
  {
    var t := if a.category in totals then totals[a.category] else 0;
    totals[a.category := t + a.balance]
  }

  /** Adding the next row's balance keeps the totals exact. */
  lemma {:induction false} AddNextBalance(totals: map<string, int>, rows: seq<Account>, i: nat)
    requires i < |rows| && TotalsOf(totals, rows[..i])
    ensures TotalsOf(AddBalance(totals, rows[i]), rows[..i + 1])
  {
    TakeOneMore(rows, i);
    if rows[i].category !in totals {
      AbsentCategory(rows[..i], rows[i].category);
    }
  }

  /** Every account's category is among the categories in use. */
  lemma {:induction false} CategorySetCovers(rows: seq<Account>)
    ensures forall a :: a in rows ==> a.category in CategorySet(rows)
  {
    if |rows| > 0 {
      var init := rows[..|rows| - 1];
      CategorySetCovers(init);
      assert rows == init + [rows[|rows| - 1]];
    }
  }

  /** Sum of the values of `totals` at the keys `cs`. */
  function SumValues(totals: map<string, int>, cs: seq<string>): int
    requires forall c :: c in cs ==> c in totals
  {
    if |cs| == 0 then 0 else totals[cs[0]] + SumValues(totals, cs[1..])
  }

  /** Summed over keys holding category totals, the values are the category totals summed. */
  lemma {:induction false} SumValuesOfTotals(totals: map<string, int>, rows: seq<Account>, cs: seq<string>)
    requires TotalsOf(totals, rows)
    requires forall c :: c in cs ==> c in totals
    ensures SumValues(totals, cs) == SumOfCategories(cs, rows)
  {
    if |cs| > 0 {
      SumValuesOfTotals(totals, rows, cs[1..]);
    }
  }

  /** The fold invariant of `api_resumo`: summed over any enumeration of its keys
      without repeats, the per-category map adds up to the grand total. */
  lemma TotalsSumToGrandTotal(totals: map<string, int>, rows: seq<Account>, cs: seq<string>)
    requires TotalsOf(totals, rows)
    requires Distinct(cs) && forall c :: c in cs <==> c in totals
    ensures SumValues(totals, cs) == GrandTotal(rows)
  {
    SumValuesOfTotals(totals, rows, cs);
    CategorySetCovers(rows);
    CategoryTotalsSumToGrandTotal(rows, cs);
  }

  /** The fold invariant of `index`: summed over any enumeration of the groups without
      repeats, the group totals add up to the grand total. */
  lemma GroupTotalsSumToGrandTotal(groups: map<string, CategoryGroup>, rows: seq<Account>, cs: seq<string>)
    requires GroupsOf(groups, rows)
    requires Distinct(cs) && forall c :: c in cs <==> c in groups
    ensures SumValues(map c | c in groups :: groups[c].total, cs) == GrandTotal(rows)
  {
    TotalsSumToGrandTotal(map c | c in groups :: groups[c].total, rows, cs);
  }

  /** A category that no account has totals to zero and lists no account. */
  lemma {:induction false} AbsentCategory(rows: seq<Account>, c: string)
    requires c !in CategorySet(rows)
    ensures CategoryTotal(rows, c) == 0 && CategoryAccounts(rows, c) == []
  {
    if |rows| > 0 {
      var init := rows[..|rows| - 1];
      assert rows == init + [rows[|rows| - 1]];
      AppendAccount(init, rows[|rows| - 1]);
      AbsentCategory(init, c);
    }
  }

  /** One more account adds its balance once to a sum over distinct categories that include its own. */
  lemma {:induction false} SumOfCategoriesAppend(cs: seq<string>, rows: seq<Account>, a: Account)
    requires Distinct(cs)
    ensures SumOfCategories(cs, rows + [a]) == SumOfCategories(cs, rows) + (if a.category in cs then a.balance else 0)
  {
    AppendAccount(rows, a);
    if |cs| > 0 {
      assert Distinct(cs[1..]);
      SumOfCategoriesAppend(cs[1..], rows, a);
      assert a.category in cs <==> a.category == cs[0] || a.category in cs[1..];
      assert cs[0] !in cs[1..];
    }
  }

  /** The fold invariant of the summary: for any enumeration of the categories
      without repeats (extra categories add zero), the category totals sum to the grand total. */
  lemma {:induction false} CategoryTotalsSumToGrandTotal(rows: seq<Account>, cs: seq<string>)
    requires Distinct(cs)
    requires forall a :: a in rows ==> a.category in cs
    ensures SumOfCategories(cs, rows) == GrandTotal(rows)
  {
    if |rows| == 0 {
      EmptySum(cs);
    } else {
      var init := rows[..|rows| - 1];
      var a := rows[|rows| - 1];
      assert rows == init + [a];
      CategoryTotalsSumToGrandTotal(init, cs);
      SumOfCategoriesAppend(cs, init, a);
      AppendAccount(init, a);
    }
  }

  lemma {:induction false} EmptySum(cs: seq<string>)
    ensures SumOfCategories(cs, []) == 0
  {
    if |cs| > 0 {
      EmptySum(cs[1..]);
    }
  }

  /** The total of a run of accounts split in two is the sum of the parts' totals. */
  lemma {:induction false} GrandTotalConcat(xs: seq<Account>, ys: seq<Account>)
    ensures GrandTotal(xs + ys) == GrandTotal(xs) + GrandTotal(ys)
    decreases |ys|
  {
    if |ys| == 0 {
      assert xs + ys == xs;
    } else {
      var init := ys[..|ys| - 1];
      GrandTotalConcat(xs, init);
      assert (xs + ys)[..|xs + ys| - 1] == xs + init;
    }
  }

  /** Taking the row at `j` out of a run removes it once from the bag of rows. */
  lemma {:induction false} RemoveAtCount(ys: seq<Account>, j: nat)
    requires j < |ys|
    ensures multiset(ys[..j] + ys[j + 1..]) == multiset(ys) - multiset{ys[j]}
  {
    assert ys == ys[..j] + [ys[j]] + ys[j + 1..];
  }

  /** A single row totals to its own balance. */
  lemma {:induction false} GrandTotalOfOne(a: Account)
    ensures GrandTotal([a]) == a.balance
  {
    assert [a][..0] == [];
  }

  /** Taking the row at `j` out of a run removes its balance from the total. */
  lemma {:induction false} RemoveAtTotal(ys: seq<Account>, j: nat)
    requires j < |ys|
    ensures GrandTotal(ys) == GrandTotal(ys[..j] + ys[j + 1..]) + ys[j].balance
  {
    var front, back := ys[..j], ys[j + 1..];
    assert ys == front + ([ys[j]] + back);
    GrandTotalConcat(front, [ys[j]] + back);
    GrandTotalConcat([ys[j]], back);
    GrandTotalOfOne(ys[j]);
    GrandTotalConcat(front, back);
  }

  /** The grand total does not depend on the order of the rows (the ORDER BY of the dashboard). */
  lemma {:induction false} GrandTotalPermutation(xs: seq<Account>, ys: seq<Account>)
    requires multiset(xs) == multiset(ys)
    ensures GrandTotal(xs) == GrandTotal(ys)
    decreases |xs|
  {
    if |xs| > 0 {
      var n := |xs| - 1;
      RemoveAtCount(xs, n);
      assert xs[..n] + xs[n + 1..] == xs[..n];
      assert xs[n] in multiset(ys);
      var j :| 0 <= j < |ys| && ys[j] == xs[n];
      RemoveAtCount(ys, j);
      RemoveAtTotal(ys, j);
      GrandTotalPermutation(xs[..n], ys[..j] + ys[j + 1..]);
    } else {
      assert |ys| == 0;
    }
  }

  /** A category's total is the grand total of its accounts. */
  lemma {:induction false} CategoryTotalIsTotalOfItsAccounts(rows: seq<Account>, c: string)
    ensures CategoryTotal(rows, c) == GrandTotal(CategoryAccounts(rows, c))
  {
    if |rows| > 0 {
      var init := rows[..|rows| - 1];
      var a := rows[|rows| - 1];
      CategoryTotalIsTotalOfItsAccounts(init, c);
      GrandTotalConcat(CategoryAccounts(init, c), if a.category == c then [a] else []);
      if a.category == c {
        assert [a][..0] == [];
      }
    }
  }

  /** Reordering the rows reorders each category's accounts. */
  lemma {:induction false} CategoryAccountsPermutation(xs: seq<Account>, ys: seq<Account>, c: string)
    requires multiset(xs) == multiset(ys)
    ensures multiset(CategoryAccounts(xs, c)) == multiset(CategoryAccounts(ys, c))
  {
    forall x ensures multiset(CategoryAccounts(xs, c))[x] == multiset(CategoryAccounts(ys, c))[x] {
      CategoryAccountsCount(xs, c, x);
      CategoryAccountsCount(ys, c, x);
    }
  }

  lemma {:induction false} CategoryAccountsCount(rows: seq<Account>, c: string, x: Account)
    ensures multiset(CategoryAccounts(rows, c))[x] == if x.category == c then multiset(rows)[x] else 0
  {
    if |rows| > 0 {
      var init := rows[..|rows| - 1];
      var a := rows[|rows| - 1];
      assert rows == init + [a];
      CategoryAccountsCount(init, c, x);
    }
  }

  /** Each category total does not depend on the order of the rows either. */
  lemma {:induction false} CategoryTotalPermutation(xs: seq<Account>, ys: seq<Account>, c: string)
    requires multiset(xs) == multiset(ys)
    ensures CategoryTotal(xs, c) == CategoryTotal(ys, c)
  {
    CategoryTotalIsTotalOfItsAccounts(xs, c);
    CategoryTotalIsTotalOfItsAccounts(ys, c);
    CategoryAccountsPermutation(xs, ys, c);
    GrandTotalPermutation(CategoryAccounts(xs, c), CategoryAccounts(ys, c));
  }

  /** The worked example: A (X, 10), B (X, 5), C (Y, -3). */
  lemma ThreeAccountExample()
    ensures var rows := [Account("A", "", "X", 10, ""), Account("B", "", "X", 5, ""), Account("C", "", "Y", -3, "")];
      && GrandTotal(rows) == 12
      && CategorySet(rows) == {"X", "Y"}
      && CategoryTotal(rows, "X") == 15
      && CategoryTotal(rows, "Y") == -3
  {
    var a, b, c := Account("A", "", "X", 10, ""), Account("B", "", "X", 5, ""), Account("C", "", "Y", -3, "");
    AppendAccount([], a);
    AppendAccount([a], b);
    AppendAccount([a, b], c);
    assert [] + [a] == [a] && [a] + [b] == [a, b] && [a, b] + [c] == [a, b, c];
    assert CategorySet([]) == {};
  }
}
