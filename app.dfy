/** The request handlers of the finance tracker, run against an in-memory stand-in
    for the four remote tables. Each handler is one atomic method on the store. */
module App {
  import opened Domain
  import opened Tables
  import opened Ledger
  import opened ShoppingLists
  import opened Settlement
  import opened Summary

  class Store {
    var accounts: map<nat, Account>
    var transactions: map<nat, Transaction>
    var lists: map<nat, ShoppingList>
    var items: map<nat, ListItem>
    // The identity columns: the identifier the next insert into each table receives.
    var nextAccountId: nat
    var nextTransactionId: nat
    var nextListId: nat
    var nextItemId: nat
    /** Each account's balance as it was entered when the account was created. */
    ghost var opening: map<nat, int>

    /** The REFERENCES constraints of the schema hold. */
    ghost predicate ReferencesHold()
      reads this`transactions, this`accounts, this`lists, this`items
    {
      && (forall k :: k in transactions ==> transactions[k].accountId in accounts)
      && (forall k :: k in lists && lists[k].accountId.Some? ==> lists[k].accountId.value in accounts)
      && (forall k :: k in items ==> items[k].listId in lists)
    }

    /** Every balance is its opening balance plus the net of the account's transactions. */
    ghost predicate BalancesMatchHistory()
      reads this`accounts, this`opening, this`transactions, this`nextTransactionId
    {
      BalancesMatch(accounts, opening, History())
    }

    ghost predicate Valid()
      reads this
    {
      && Bounded(accounts, nextAccountId)
      && Bounded(transactions, nextTransactionId)
      && Bounded(lists, nextListId)
      && Bounded(items, nextItemId)
      && ReferencesHold()
      && BalancesMatchHistory()
    }

    /** The transactions table in insertion order. */
    function History(): seq<Transaction>
      reads this`transactions, this`nextTransactionId
    {
      Rows(transactions, nextTransactionId)
    }

    /** What `select * from itens_lista where lista_id = l` returns. */
    function ItemsOf(l: nat): seq<ListItem>
      reads this`items, this`nextItemId
    {
      ItemsOfList(Rows(items, nextItemId), l)
    }

    /** The live total of list `l`; never stored. */
    function TotalOf(l: nat): int
      reads this`items, this`nextItemId
    {
      ListTotal(ItemsOf(l))
    }

    /** What `select * from contas` returns. */
    function AccountRows(): seq<Account>
      reads this`accounts, this`nextAccountId
    {
      Rows(accounts, nextAccountId)
    }

    /** Freshly created, empty tables. */
    constructor ()
      ensures Valid()
      ensures accounts == map[] && transactions == map[] && lists == map[] && items == map[]
    {
      accounts, transactions, lists, items := map[], map[], map[], map[];
      nextAccountId, nextTransactionId, nextListId, nextItemId := 1, 1, 1, 1;
      opening := map[];
    }

    /** `adicionar_conta`: insert an account with the given opening balance. */
    method AddAccount(name: string, bank: string, category: string, balance: int, color: string) returns (id: nat)
      requires Valid()
      modifies this`accounts, this`nextAccountId, this`opening
      ensures Valid()
      ensures id == old(nextAccountId) && id !in old(accounts)
      ensures accounts == old(accounts)[id := Account(name, bank, category, balance, color)]
      ensures opening == old(opening)[id := balance]
      ensures nextAccountId == id + 1
    {
      id := nextAccountId;
      OpeningKeepsLedger(accounts, opening, transactions, nextTransactionId, id, Account(name, bank, category, balance, color));
      accounts := accounts[id := Account(name, bank, category, balance, color)];
      opening := opening[id := balance];
      nextAccountId := id + 1;
    }

    /** The two writes both handlers that post a transaction make: insert the
        transaction row, then write back its account's balance moved by the signed amount. */
    method Record(tx: Transaction)
      requires Valid() && tx.accountId in accounts
      modifies this`transactions, this`nextTransactionId, this`accounts
      ensures Valid()
      ensures transactions == old(transactions)[old(nextTransactionId) := tx]
      ensures nextTransactionId == old(nextTransactionId) + 1
      ensures accounts == old(accounts)[tx.accountId := old(accounts[tx.accountId]).(balance := old(accounts[tx.accountId].balance) + Signed(tx.kind, tx.amount))]
    {
      ghost var history := History();
      RowsInsert(transactions, nextTransactionId, tx);
      PostingKeepsLedger(accounts, opening, history, tx);
      // (1) insert the transaction row
      transactions := transactions[nextTransactionId := tx];
      nextTransactionId := nextTransactionId + 1;
      assert History() == history + [tx];
      // (2) read the stored balance, (3) compute the new one, (4) write it back
      var account := accounts[tx.accountId];
      var newBalance := account.balance + Signed(tx.kind, tx.amount);
      accounts := accounts[tx.accountId := account.(balance := newBalance)];
    }

    /** `adicionar_transacao`: record the transaction; the balance grows by the amount
        for `entrada` and shrinks by it for any other kind. A missing account makes the
        insert violate the foreign key: no row is written, but the identity sequence has
        already handed out its next value, so the counter still moves on. */
    method PostTransaction(accountId: nat, kind: string, amount: int, description: string) returns (status: Status)
      requires Valid()
      modifies this`transactions, this`nextTransactionId, this`accounts
      ensures Valid()
      ensures accountId !in old(accounts) ==>
        && status == Failed(ForeignKeyViolation)
        && transactions == old(transactions)
        && accounts == old(accounts)
        && nextTransactionId == old(nextTransactionId) + 1
        && History() == old(History())
      ensures accountId in old(accounts) ==>
        && status == Done
        && transactions == old(transactions)[old(nextTransactionId) := Transaction(accountId, kind, amount, description)]
        && nextTransactionId == old(nextTransactionId) + 1
        && accounts == old(accounts)[accountId := old(accounts[accountId]).(balance := old(accounts[accountId].balance) + Signed(kind, amount))]
    {
      if accountId !in accounts {
        RowsStep(transactions, nextTransactionId);
        nextTransactionId := nextTransactionId + 1;
        return Failed(ForeignKeyViolation);
      }
      Record(Transaction(accountId, kind, amount, description));
      status := Done;
    }

    /** `editar_conta`: overwrite name, bank, category and color; the balance is never edited.
        An unknown id updates no row. */
    method EditAccount(id: nat, name: string, bank: string, category: string, color: string)
      requires Valid()
      modifies this`accounts
      ensures Valid()
      ensures id in old(accounts) ==>
        accounts == old(accounts)[id := Account(name, bank, category, old(accounts[id].balance), color)]
      ensures id !in old(accounts) ==> accounts == old(accounts)
      ensures accounts.Keys == old(accounts).Keys
      ensures forall a :: a in accounts ==> accounts[a].balance == old(accounts[a].balance)
    {
      if id in accounts {
        var account := accounts[id];
        accounts := accounts[id := account.(name := name, bank := bank, category := category, color := color)];
      }
    }

    /** `deletar_conta`: delete the account and, by ON DELETE CASCADE, its transactions.
        A shopping list paid from it still references it, and that reference has no
        ON DELETE action, so the store refuses the delete. An unknown id deletes nothing. */
    method DeleteAccount(id: nat) returns (status: Status)
      requires Valid()
      modifies this`accounts, this`transactions, this`opening
      ensures Valid()
      ensures (exists l :: l in old(lists) && old(lists[l].accountId) == Some(id)) ==>
        status == Failed(ForeignKeyViolation) && unchanged(this)
      ensures !(exists l :: l in old(lists) && old(lists[l].accountId) == Some(id)) ==>
        && status == Done
        && accounts == old(accounts) - {id}
        && transactions == Cascade(old(transactions), id)
        && opening == old(opening) - {id}
      ensures forall k :: k in transactions ==> transactions[k].accountId != id || status != Done
    {
      if exists l :: l in lists && lists[l].accountId == Some(id) {
        return Failed(ForeignKeyViolation);
      }
      DeletionKeepsLedger(accounts, opening, transactions, nextTransactionId, id);
      accounts := accounts - {id};
      transactions := Cascade(transactions, id);
      opening := opening - {id};
      status := Done;
    }

    /** `nova_lista`: insert an open list with no paying account. */
    method NewList(name: string) returns (id: nat)
      requires Valid()
      modifies this`lists, this`nextListId
      ensures Valid()
      ensures id == old(nextListId) && id !in old(lists)
      ensures lists == old(lists)[id := ShoppingList(name, false, None, None)]
      ensures nextListId == id + 1
    {
      id := nextListId;
      lists := lists[id := ShoppingList(name, false, None, None)];
      nextListId := id + 1;
    }

    /** `adicionar_item_lista`: insert an item; the list's next total grows by its line total.
        A missing list makes the insert violate the foreign key: no row is written, but
        the identity sequence has already handed out its next value. */
    method AddItem(listId: nat, description: string, price: int, quantity: int) returns (status: Status)
      requires Valid()
      modifies this`items, this`nextItemId
      ensures Valid()
      ensures listId !in lists ==>
        && status == Failed(ForeignKeyViolation)
        && items == old(items)
        && nextItemId == old(nextItemId) + 1
        && forall l :: ItemsOf(l) == old(ItemsOf(l))
      ensures listId in lists ==>
        && status == Done
        && items == old(items)[old(nextItemId) := ListItem(listId, description, price, quantity)]
        && nextItemId == old(nextItemId) + 1
        && ItemsOf(listId) == old(ItemsOf(listId)) + [ListItem(listId, description, price, quantity)]
        && TotalOf(listId) == old(TotalOf(listId)) + price * quantity
        && forall l :: l != listId ==> ItemsOf(l) == old(ItemsOf(l))
    {
      if listId !in lists {
        RowsStep(items, nextItemId);
        nextItemId := nextItemId + 1;
        return Failed(ForeignKeyViolation);
      }
      var item := ListItem(listId, description, price, quantity);
      ghost var before := Rows(items, nextItemId);
      RowsInsert(items, nextItemId, item);
      assert (before + [item])[..|before|] == before;
      items := items[nextItemId := item];
      nextItemId := nextItemId + 1;
      assert Rows(items, nextItemId) == before + [item];
      status := Done;
    }

    /** `deletar_item_lista`: delete the item by its own id; the list id of the route
        takes no part in the filter. Only the owning list's next total changes, by
        the item's line total. An unknown item id deletes nothing. */
    method DeleteItem(listId: nat, itemId: nat)
      requires Valid()
      modifies this`items
      ensures Valid()
      ensures items == old(items) - {itemId}
      ensures forall l ::
        TotalOf(l) == old(TotalOf(l)) - (if itemId in old(items) && old(items[itemId]).listId == l then Line(old(items[itemId])) else 0)
    {
      ghost var before := items;
      items := items - {itemId};
      forall l
        ensures TotalOf(l) == ListTotal(ItemsOfList(Rows(before, nextItemId), l))
          - (if itemId in before && before[itemId].listId == l then Line(before[itemId]) else 0)
      {
        DeleteItemTotal(before, itemId, l, nextItemId);
        ListTotalOfRows(Rows(items, nextItemId), l);
        ListTotalOfRows(Rows(before, nextItemId), l);
      }
    }

    /** `deletar_lista`: delete the list and, by ON DELETE CASCADE, its items. */
    method DeleteList(id: nat)
      requires Valid()
      modifies this`lists, this`items
      ensures Valid()
      ensures lists == old(lists) - {id}
      ensures items == map k | k in old(items) && old(items[k]).listId != id :: old(items[k])
      ensures ItemsOf(id) == []
      ensures forall l :: l != id ==> ItemsOf(l) == old(ItemsOf(l))
    {
      lists := lists - {id};
      ghost var before := items;
      items := map k | k in items && items[k].listId != id :: items[k];
      forall l ensures ItemsOf(l) == if l == id then [] else old(ItemsOf(l)) {
        ItemsOfListCascade(before, items, id, nextItemId, l);
      }
    }

    /** `pagar_lista`: pay list `listId` from account `accountId`.
        The list is looked up first and the account second (each lookup fails when
        there is no row). If the balance is strictly below the live total nothing is
        written. Otherwise one `saida` transaction for the total is inserted, the
        balance drops by the total and the list is marked paid by that account.
        Whether the list was already paid is not checked. */
    method PayList(listId: nat, accountId: nat, now: Timestamp) returns (status: Status)
      requires Valid()
      modifies this`transactions, this`nextTransactionId, this`accounts, this`lists
      ensures Valid()
      ensures listId !in old(lists) ==> status == Failed(NotFound) && unchanged(this)
      ensures listId in old(lists) && accountId !in old(accounts) ==> status == Failed(NotFound) && unchanged(this)
      ensures listId in old(lists) && accountId in old(accounts) && old(accounts[accountId].balance < TotalOf(listId)) ==>
        status == Failed(InsufficientFunds) && unchanged(this)
      ensures listId in old(lists) && accountId in old(accounts) && old(accounts[accountId].balance >= TotalOf(listId)) ==>
        && status == Done
        && transactions == old(transactions)[old(nextTransactionId) :=
             Transaction(accountId, SAIDA, old(TotalOf(listId)), Description(old(lists[listId].name), old(ItemsOf(listId))))]
        && nextTransactionId == old(nextTransactionId) + 1
        && accounts == old(accounts)[accountId := old(accounts[accountId]).(balance := old(accounts[accountId].balance) - old(TotalOf(listId)))]
        && accounts[accountId].balance >= 0
        && lists == old(lists)[listId := old(lists[listId]).(completed := true, accountId := Some(accountId), completedAt := Some(now))]
    {
      if listId !in lists {
        return Failed(NotFound);
      }
      var list := lists[listId];
      var listItems := ItemsOf(listId);
      var total := ListTotal(listItems);
      assert total == old(TotalOf(listId));
      if accountId !in accounts {
        return Failed(NotFound);
      }
      var account := accounts[accountId];
      if account.balance < total {
        return Failed(InsufficientFunds);
      }
      var description := Description(list.name, listItems);
      Settle(listId, Transaction(accountId, SAIDA, total, description), now);
      status := Done;
    }

    /** The writes of a successful `pagar_lista`: the `saida` transaction for the total
        is recorded against the paying account, and the list is concluded by it at `now`. */
    method Settle(listId: nat, tx: Transaction, now: Timestamp)
      requires Valid() && listId in lists && tx.accountId in accounts && tx.kind == SAIDA
      modifies this`transactions, this`nextTransactionId, this`accounts, this`lists
      ensures Valid()
      ensures transactions == old(transactions)[old(nextTransactionId) := tx]
      ensures nextTransactionId == old(nextTransactionId) + 1
      ensures accounts == old(accounts)[tx.accountId := old(accounts[tx.accountId]).(balance := old(accounts[tx.accountId].balance) - tx.amount)]
      ensures lists == old(lists)[listId := old(lists[listId]).(completed := true, accountId := Some(tx.accountId), completedAt := Some(now))]
    {
      assert Signed(tx.kind, tx.amount) == -tx.amount by {
        assert SAIDA[0] != ENTRADA[0];
      }
      Record(tx);
      var list := lists[listId];
      lists := lists[listId := list.(completed := true, accountId := Some(tx.accountId), completedAt := Some(now))];
    }

    /** `index`: group the accounts by category, with each category's total, and the grand total. */
    method Index() returns (groups: map<string, CategoryGroup>, grandTotal: int)
      ensures grandTotal == GrandTotal(AccountRows())
      ensures GroupsOf(groups, AccountRows())
    {
      var rows := AccountRows();
      groups, grandTotal := map[], 0;
      var i := 0;
      while i < |rows|
        invariant 0 <= i <= |rows|
        invariant grandTotal == GrandTotal(rows[..i])
        invariant GroupsOf(groups, rows[..i])
      {
        var account := rows[i];
        var c := account.category;
        ghost var before := groups;
        FileNextAccount(groups, rows, i);
        GrandTotalStep(rows, i);
        if c !in groups {
          groups := groups[c := CategoryGroup([], 0)];
        }
        groups := groups[c := CategoryGroup(groups[c].accounts + [account], groups[c].total + account.balance)];
        assert groups == FileAccount(before, account);
        grandTotal := grandTotal + account.balance;
        i := i + 1;
      }
      assert rows[..i] == rows;
    }

    /** `api_resumo`: the grand total and the total of each category. */
    method Resumo() returns (grandTotal: int, byCategory: map<string, int>)
      ensures grandTotal == GrandTotal(AccountRows())
      ensures TotalsOf(byCategory, AccountRows())
    {
      var rows := AccountRows();
      grandTotal := GrandTotal(rows);
      byCategory := map[];
      var i := 0;
      while i < |rows|
        invariant 0 <= i <= |rows|
        invariant TotalsOf(byCategory, rows[..i])
      {
        var account := rows[i];
        var c := account.category;
        ghost var before := byCategory;
        AddNextBalance(byCategory, rows, i);
        if c !in byCategory {
          byCategory := byCategory[c := 0];
        }
        byCategory := byCategory[c := byCategory[c] + account.balance];
        assert byCategory == AddBalance(before, account);
        i := i + 1;
      }
      assert rows[..i] == rows;
    }
  }

  /** The ledger invariant read as the spec of a fresh account: its balance is its
      opening balance plus its `entrada` amounts minus all its other amounts. */
  lemma {:induction false} BalanceIsOpeningPlusInflowMinusOutflow(store: Store, a: nat)
    requires store.Valid() && a in store.accounts
    ensures store.accounts[a].balance == store.opening[a] + Inflow(store.History(), a) - Outflow(store.History(), a)
  {
    PostedIsInflowMinusOutflow(store.History(), a);
  }

  /** A store with one account holding 10000 cents and one list whose only item costs 2500. */
  method FeiraStore() returns (store: Store, account: nat, list: nat)
    ensures fresh(store) && store.Valid()
    ensures account in store.accounts && store.accounts[account].balance == 10000
    ensures list in store.lists && store.TotalOf(list) == 2500
  {
    store := new Store();
    account := store.AddAccount("Conta", "Banco", "Corrente", 10000, "#007bff");
    list := store.NewList("Feira");
    RowsOfEmpty(store.items, store.nextItemId);
    var added := store.AddItem(list, "arroz", 2500, 1);
    assert store.TotalOf(list) == 2500 by {
      assert store.ItemsOf(list) == [ListItem(list, "arroz", 2500, 1)];
    }
  }

  /** Paying a list that is already paid is not refused: it debits the account again. */
  method RepaymentScenario() returns (first: Status, second: Status, balance: int)
    ensures first == Done && second == Done
    ensures balance == 10000 - 2 * 2500
  {
    var store, account, list := FeiraStore();
    first := store.PayList(list, account, "t1");
    assert store.lists[list].completed;
    second := store.PayList(list, account, "t2");
    balance := store.accounts[account].balance;
  }
}
