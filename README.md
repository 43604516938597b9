# Personal finance tracker: ledger, shopping lists and summaries

This project models the bookkeeping of a small Flask finance tracker (`app.py`). Users keep
**accounts** (`contas`) with a balance. They record **transactions** (`transacoes`) that
credit (`entrada`) or debit an account. They keep **shopping lists** (`listas_compras`)
of **items** (`itens_lista`) that are settled in one go from an account. A dashboard and
a JSON endpoint total the balances by category.

The four remote tables become one `App.Store` class. It holds four maps from generated
identifiers to rows, plus the per-table identity counters. Each request handler is a method on
the store:

- `adicionar_conta` → `AddAccount`
- `adicionar_transacao` → `PostTransaction`
- `editar_conta` → `EditAccount`
- `deletar_conta` → `DeleteAccount`
- `nova_lista` → `NewList`
- `adicionar_item_lista` → `AddItem`
- `deletar_item_lista` → `DeleteItem`
- `deletar_lista` → `DeleteList`
- `pagar_lista` → `PayList`
- `index` → `Index`
- `api_resumo` → `Resumo`

Amounts are integer cents.

The store keeps three invariants in `Valid()`:

- every REFERENCES constraint of the schema holds;
- every identifier is below its table's counter;
- the **ledger invariant**: each account's balance is its opening balance plus the net of its
  transactions (`entrada` adds, every other `tipo` subtracts).

Every handler preserves `Valid()`. `BalanceIsOpeningPlusInflowMinusOutflow` restates the ledger
invariant as inflow minus outflow.

Modules:

- `Domain`: the rows, status and error values.
- `Tables`: a map read as rows in identifier order.
- `Ledger`: signed amounts, the per-account net and the cascade.
- `ShoppingLists`: the live list total.
- `Text`: decimal rendering and `join`.
- `Settlement`: the payment description.
- `Summary`: grand and per-category totals.
- `App`: the store and its handlers.

Behaviours of app.py that the model keeps:

- Neither the amount of a transaction nor the quantity of an item is checked to be positive. Any
  `tipo` other than `entrada` debits (app.py:203).
- `adicionar_conta` stores the balance given in the form (app.py:180). The model records it as the
  account's opening balance, so the ledger invariant is stated relative to it.
- `deletar_conta` deletes nothing when a shopping list names the account as its payer, because
  `listas_compras.conta_id` is a REFERENCES column without an ON DELETE action (app.py:78). The
  store refuses the delete. Only transactions cascade (app.py:66).
- `pagar_lista` does not check whether the list is already concluded (app.py:282-313).

## Model

| member | source | states |
|---|---|---|
| Tables.RowsInsert | app.py:65 | An insert under the next identity value appends exactly that row at the end of the table's rows and keeps every identifier below the counter |
| Tables.RowsListExactly | app.py:323 | An unfiltered select lists a row exactly when some identifier of the table holds it |
| Ledger.PostedIsInflowMinusOutflow | app.py:203 | An account's net is the sum of its `entrada` amounts minus the sum of its other amounts |
| Ledger.PostedOfStranger | app.py:176-182 | An account that owns no transaction has a net of zero |
| Ledger.CascadeKeepsOthers | app.py:66 | The cascade (ON DELETE CASCADE of the deleted account's transactions) leaves the net of every other account unchanged |
| Ledger.PostingKeepsLedger | app.py:196-204 | Inserting a transaction and moving its account's balance by the signed amount keeps balance = opening + net for every account |
| Ledger.OpeningKeepsLedger | app.py:176-182 | Creating an account with no transactions keeps the ledger invariant, with the given saldo as its opening balance |
| Ledger.DeletionKeepsLedger | app.py:221 | Deleting an account together with its transactions keeps the ledger invariant for the remaining accounts |
| ShoppingLists.ItemsOfListExactly | app.py:285 | An item is among a list's items exactly when it is an item row whose lista_id is that list |
| ShoppingLists.ItemsOfListCascade | app.py:84 | Dropping a list's item rows (ON DELETE CASCADE) leaves that list with no items and every other list with exactly the items it had, in the same order |
| ShoppingLists.ListTotalConcat | app.py:286 | The total of two runs of items is the sum of their totals |
| ShoppingLists.ListTotalOfRows | app.py:286 | The list total equals the sum of valor × quantidade over exactly the item rows of that list, other rows contributing nothing |
| ShoppingLists.DeleteItemTotal | app.py:277 | Deleting an item lowers the total of its own list by its line total and leaves every other list's total unchanged |
| Text.NatToDigits | app.py:293 | The rendering of a natural number is a non-empty digit string without a leading zero, one digit long exactly when the number is below 10 |
| Text.ParseNatToDigits | app.py:293 | Reading back the rendered digits of a number gives the number |
| Text.NatToDigitsOfParse | app.py:293 | Rendering the value of a canonical digit string gives the string back |
| Text.IntToStringRoundTrip | app.py:295 | The f-string rendering of an integer is an optionally signed digit string that reads back as that integer |
| Text.JoinAppend | app.py:293 | Joining two non-empty runs of parts puts exactly one separator between their joins |
| Text.JoinLength | app.py:293 | A join is as long as its parts plus one separator per gap |
| Settlement.ShortListShowsAll | app.py:293-295 | With at most three items the summary's length is the labels' total length plus one ", " per gap, so every label is listed whole and no count is appended; no items give an empty summary |
| Settlement.LongListCountsRest | app.py:293-295 | With more than three items the first three labels are joined by ", " and followed by " e mais {n−3} itens", whose number reads back as n − 3 |
| Settlement.JoinThree | app.py:293 | Three labels are joined as a, ", ", b, ", ", c |
| Settlement.FeiraLabels | app.py:293 | The labels of the first three items of a sample list are "{quantidade}x {descricao}" |
| Settlement.FiveItemExample | app.py:293-301 | A five-item list "Feira" is described as "Lista: Feira (1x arroz, 2x feijao, 1x cafe e mais 2 itens)" |
| Summary.TakeOneMore | app.py:163-168 | Taking the next row updates the grand total, the category totals, the category accounts and the categories in use as one more account does |
| Summary.FileNextAccount | app.py:163-167 | Filing the next account (an empty group for a new category, then append and add) keeps the grouping exact: one group per category in use, holding its accounts in order and their total |
| Summary.AddNextBalance | app.py:326-329 | Adding the next account's saldo to its category (starting at zero for a new one) keeps every category total exact |
| Summary.AbsentCategory | app.py:164-165 | A category that no account uses totals to zero and lists no account |
| Summary.SumOfCategoriesAppend | app.py:167 | One more account adds its saldo exactly once to a sum over distinct categories that contain its own |
| Summary.CategoryTotalsSumToGrandTotal | app.py:323-329 | For any enumeration of categories without repeats that covers every account's category, the category totals sum to the grand total |
| Summary.CategorySetCovers | app.py:326-328 | Every account's category is a key of the per-category map |
| Summary.SumValuesOfTotals | app.py:326-329 | Summing a map of category totals over some of its keys gives the sum of those categories' totals |
| Summary.TotalsSumToGrandTotal | app.py:324-329 | Summed over any repeat-free enumeration of its keys, a per-category map that holds the category totals adds up to the grand total, as `Resumo` returns them |
| Summary.GroupTotalsSumToGrandTotal | app.py:161-168 | Summed over any repeat-free enumeration of the groups, the group totals of `Index` add up to its grand total |
| Summary.GrandTotalConcat | app.py:168 | The grand total of two runs of accounts is the sum of their grand totals |
| Summary.RemoveAtTotal | app.py:160 | Taking one row out of a run removes its saldo from the grand total |
| Summary.GrandTotalPermutation | app.py:160 | The grand total does not depend on the order in which the store returns the accounts |
| Summary.CategoryTotalIsTotalOfItsAccounts | app.py:166-167 | A category's total is the grand total of that category's accounts |
| Summary.CategoryAccountsCount | app.py:166 | A category's accounts hold each account of that category as often as the rows do, and no other account |
| Summary.CategoryAccountsPermutation | app.py:160 | Reordering the rows only reorders each category's accounts |
| Summary.CategoryTotalPermutation | app.py:160 | No category total depends on the order of the rows |
| Summary.ThreeAccountExample | app.py:160-168 | Accounts A (X, 10), B (X, 5) and C (Y, −3) give grand total 12, categories {X, Y} and totals X = 15, Y = −3 |
| App.Store.constructor | app.py:54-88 | A fresh store has four empty tables and satisfies the store invariant |
| App.Store.AddAccount | app.py:175-184 | Inserts exactly one account with the given fields under a fresh identifier, records its saldo as its opening balance, and keeps the invariant |
| App.Store.Record | app.py:196-204 | Inserts the transaction as the newest row, then sets its account's balance to the old balance plus the signed amount; nothing else changes and the ledger invariant holds |
| App.Store.PostTransaction | app.py:193-206 | For an existing account: one new transaction row with the given conta_id, tipo, valor and descricao, and the balance becomes old ± valor by tipo. For a missing account the foreign key refuses the insert: no row is written and no balance changes, but the identifier counter still advances, as the BIGSERIAL sequence has already handed out its value |
| App.Store.EditAccount | app.py:209-217 | Replaces nome, banco, categoria and cor of the account; every balance, every other account and the set of accounts are unchanged; an unknown id changes nothing |
| App.Store.DeleteAccount | app.py:220-223 | Removes the account and exactly its transactions (cascade); its opening balance is dropped; refused with no change when a shopping list references it; afterwards no transaction names the deleted account |
| App.Store.NewList | app.py:251-254 | Inserts one open list with the given name and no payer under a fresh identifier |
| App.Store.AddItem | app.py:265-273 | Inserts one item; the list's items gain it at the end, its total grows by valor × quantidade, every other list's items are unchanged; a missing list makes the foreign key refuse the insert: no item row is written and no list's items change, but the identifier counter still advances |
| App.Store.DeleteItem | app.py:276-279 | Removes the item by its own id; every list's total drops by the item's line total if the item was in that list and is otherwise unchanged |
| App.Store.DeleteList | app.py:316-319 | Removes the list and exactly the items of that list (cascade): that list then has no items and every other list keeps exactly its items |
| App.Store.PayList | app.py:282-313 | Missing list or account: NotFound, no writes. Balance strictly below the live total: InsufficientFunds, no writes. Otherwise: exactly one `saida` transaction for the total, described from the list's name and items, appended; balance = old − total ≥ 0; the list concluded with the paying conta_id and the given time |
| App.Store.Settle | app.py:297-310 | The successful settlement's writes: the transaction inserted, the balance lowered by its amount, the list concluded by its account, and the invariant kept |
| App.Store.Index | app.py:158-168 | Returns the grand total of all balances and one group per category in use, holding that category's accounts and their total |
| App.Store.Resumo | app.py:322-330 | Returns the grand total of all balances and one entry per category in use holding that category's total |
| App.BalanceIsOpeningPlusInflowMinusOutflow | app.py:196-204 | In every reachable store an account's balance is its opening balance plus its `entrada` amounts minus its other amounts |
| App.FeiraStore | app.py:265-273 | A fresh store with one 10000-cent account and a list with one 2500-cent item has list total 2500 |
| App.RepaymentScenario | app.py:282-313 | Paying the same list twice succeeds both times and debits the account twice (10000 → 5000), as no concluded-list guard exists |

## Left out

- Flask plumbing is not modelled: routing, form parsing, `render_template`, `flash`, `redirect` and the `check_setup` guard. The handlers take the parsed form values as parameters. The form defaults (`saldo` 0, `cor` `#007bff`, `quantidade` 1) are the caller's business.
- The setup flow is not modelled: `.env` writing, `is_configured`, `init_supabase`, `verificar_tabelas`, and the DDL string of `gerar_sql_tabelas`. These are file and network I/O. Only the DDL's REFERENCES and ON DELETE CASCADE rules are modelled.
- The read-only views `ver_conta`, `listas_compras` and `ver_lista` are left out. They only read. Their list total is the same expression as `App.Store.TotalOf`.
- Amounts are not floats: they are unbounded integer cents. The DECIMAL(10,2) range, float rounding, and the INTEGER range of `quantidade` are not modelled.
- Timestamps are not modelled. Creation times and the transaction `data` are omitted. The completion time written by `pagar_lista` is a parameter (`now`).
- Rows in order: the model returns an unordered select in identifier order. `ORDER BY` and `limit` are not modelled.
- App.Store.Index: visits the accounts in identifier order rather than `ORDER BY categoria, nome`. The totals are proved independent of the order (`Summary.GrandTotalPermutation`, `Summary.CategoryTotalPermutation`). Each group's accounts are proved to be only reordered (`Summary.CategoryAccountsPermutation`). Their display order is not modelled.
- Concurrency and partial failure are not modelled. Each handler is one atomic method, so lost updates and a crash between two remote writes cannot happen in the model.
- The exception raised by `.single()` and by a refused foreign key is a `Status` value; the HTTP error response is not modelled.
- Row-level security policies are not modelled; they allow everything.
