/** Rows of the four tables of the finance tracker, with amounts in integer cents. */
module Domain {

  datatype Option<+T> = None | Some(value: T)

  /** Server- or client-assigned timestamps are opaque to the model. */
  type Timestamp = string

  /** `tipo` of a transaction that credits its account; every other `tipo` debits it. */
  const ENTRADA: string := "entrada"
  /** `tipo` written by list settlement. */
  const SAIDA: string := "saida"

  /** A row of the accounts table (`contas`): nome, banco, categoria, saldo, cor. */
  datatype Account = Account(name: string, bank: string, category: string, balance: int, color: string)

  /** A row of the transactions table (`transacoes`): conta_id, tipo, valor, descricao. */
  datatype Transaction = Transaction(accountId: nat, kind: string, amount: int, description: string)

  /** A row of the shopping lists table (`listas_compras`): nome, concluida, conta_id, data_conclusao. */
  datatype ShoppingList = ShoppingList(name: string, completed: bool, accountId: Option<nat>, completedAt: Option<Timestamp>)

  /** A row of the list items table (`itens_lista`): lista_id, descricao, valor (unit price), quantidade. */
  datatype ListItem = ListItem(listId: nat, description: string, price: int, quantity: int)

  /** What a handler can fail with before it writes anything. */
  datatype Error =
    | NotFound            // `.single()` found no row
    | InsufficientFunds   // settlement total exceeds the paying account's balance
    | ForeignKeyViolation // the store refused a write that breaks a REFERENCES constraint

  datatype Status = Done | Failed(error: Error)
}
