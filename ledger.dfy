/** The balance ledger: how transactions move an account's balance. */
module Ledger {
  import opened Domain
  import opened Tables

  /** The change a transaction makes to its account's balance: `entrada` adds,
      any other kind subtracts. */
  function Signed(kind: string, amount: int): int
  {
    if kind == ENTRADA then amount else -amount
  }

  /** Net effect of the transactions in `rows` that belong to account `a`. */
  function Posted(rows: seq<Transaction>, a: nat): int
  {
    if |rows| == 0 then 0
    else
      var t := rows[|rows| - 1];
      Posted(rows[..|rows| - 1], a) + (if t.accountId == a then Signed(t.kind, t.amount) else 0)
  }

  /** Sum of the amounts of `a`'s transactions of kind `entrada`. */
  function Inflow(rows: seq<Transaction>, a: nat): int
  {
    if |rows| == 0 then 0
    else
      var t := rows[|rows| - 1];
      Inflow(rows[..|rows| - 1], a) + (if t.accountId == a && t.kind == ENTRADA then t.amount else 0)
  }

  /** Sum of the amounts of `a`'s transactions of any other kind. */
  function Outflow(rows: seq<Transaction>, a: nat): int
  {
    if |rows| == 0 then 0
    else
      var t := rows[|rows| - 1];
      Outflow(rows[..|rows| - 1], a) + (if t.accountId == a && t.kind != ENTRADA then t.amount else 0)
  }

  /** Appending one transaction moves its own account's net by its signed amount
      and leaves every other account's net alone. */
  lemma {:induction false} PostedAppend(rows: seq<Transaction>, t: Transaction)
    ensures forall a :: Posted(rows + [t], a) == Posted(rows, a) + (if t.accountId == a then Signed(t.kind, t.amount) else 0)
  {
    assert (rows + [t])[..|rows|] == rows;
  }

  /** The net of an account is its inflow minus its outflow. */
  lemma {:induction false} PostedIsInflowMinusOutflow(rows: seq<Transaction>, a: nat)
    ensures Posted(rows, a) == Inflow(rows, a) - Outflow(rows, a)
  {
    if |rows| > 0 {
      PostedIsInflowMinusOutflow(rows[..|rows| - 1], a);
    }
  }

  /** An account that owns no transaction has a net of zero. */
  lemma {:induction false} PostedOfStranger(table: map<nat, Transaction>, hi: nat, a: nat)
    requires forall k :: k in table ==> table[k].accountId != a
    ensures Posted(Rows(table, hi), a) == 0
  {
    if hi > 0 {
      PostedOfStranger(table, hi - 1, a);
      RowsStep(table, hi - 1);
      if hi - 1 in table {
        PostedAppend(Rows(table, hi - 1), table[hi - 1]);
      }
    }
  }

  /** The transactions left after deleting account `gone` (ON DELETE CASCADE). */
  function Cascade(table: map<nat, Transaction>, gone: nat): map<nat, Transaction>
  {
    map k | k in table && table[k].accountId != gone :: table[k]
  }

  /** The cascade does not change the net of any surviving account. */
  lemma {:induction false} CascadeKeepsOthers(table: map<nat, Transaction>, gone: nat, hi: nat, a: nat)
    requires a != gone
    ensures Posted(Rows(Cascade(table, gone), hi), a) == Posted(Rows(table, hi), a)
  {
    if hi > 0 {
      CascadeKeepsOthers(table, gone, hi - 1, a);
      var k := hi - 1;
      RowsStep(table, k);
      RowsStep(Cascade(table, gone), k);
      if k in table {
        PostedAppend(Rows(table, k), table[k]);
        if k in Cascade(table, gone) {
          PostedAppend(Rows(Cascade(table, gone), k), table[k]);
        }
      }
    }
  }

  /** The ledger invariant: every account's balance is its opening balance plus
      the net of its transactions in `history`. */
  ghost predicate BalancesMatch(accounts: map<nat, Account>, opening: map<nat, int>, history: seq<Transaction>)
  {
    && opening.Keys == accounts.Keys
    && forall a {:trigger Posted(history, a)} :: a in accounts ==> accounts[a].balance == opening[a] + Posted(history, a)
  }

  /** Posting a transaction and moving its account's balance by the signed amount keeps the ledger. */
  lemma {:induction false} PostingKeepsLedger(accounts: map<nat, Account>, opening: map<nat, int>, history: seq<Transaction>, t: Transaction)
    requires BalancesMatch(accounts, opening, history)
    requires t.accountId in accounts
    ensures var account := accounts[t.accountId];
      BalancesMatch(accounts[t.accountId := account.(balance := account.balance + Signed(t.kind, t.amount))], opening, history + [t])
  {
    PostedAppend(history, t);
  }

  /** Opening an account that owns no transaction yet keeps the ledger. */
  lemma {:induction false} OpeningKeepsLedger(accounts: map<nat, Account>, opening: map<nat, int>, table: map<nat, Transaction>, hi: nat, id: nat, account: Account)
    requires BalancesMatch(accounts, opening, Rows(table, hi))
    requires forall k :: k in table ==> table[k].accountId != id
    ensures BalancesMatch(accounts[id := account], opening[id := account.balance], Rows(table, hi))
  {
    PostedOfStranger(table, hi, id);
  }

  /** Deleting an account together with its transactions keeps the ledger of the others. */
  lemma {:induction false} DeletionKeepsLedger(accounts: map<nat, Account>, opening: map<nat, int>, table: map<nat, Transaction>, hi: nat, gone: nat)
    requires BalancesMatch(accounts, opening, Rows(table, hi))
    ensures BalancesMatch(accounts - {gone}, opening - {gone}, Rows(Cascade(table, gone), hi))
  {
    forall b | b in accounts && b != gone
      ensures Posted(Rows(Cascade(table, gone), hi), b) == Posted(Rows(table, hi), b)
    {
      CascadeKeepsOthers(table, gone, hi, b);
    }
  }
}
