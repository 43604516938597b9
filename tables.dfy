/** A table of the store as a map from generated identifiers to rows. */
module Tables {

  /** Every identifier in use is below the table's next generated identifier. */
  ghost predicate Bounded<T>(table: map<nat, T>, next: nat)
  {
    forall k :: k in table ==> k < next
  }

  /** The rows whose identifiers are below `hi`, in ascending identifier order
      (the order in which an identity column hands them out). */
  function Rows<T>(table: map<nat, T>, hi: nat): (r: seq<T>)
    ensures |r| <= hi
  {
    if hi == 0 then []
    else Rows(table, hi - 1) + (if hi - 1 in table then [table[hi - 1]] else [])
  }

  /** One step of `Rows`: identifier `hi` contributes its row, if any. */
  lemma {:induction false} RowsStep<T>(table: map<nat, T>, hi: nat)
    ensures Rows(table, hi + 1) == if hi in table then Rows(table, hi) + [table[hi]] else Rows(table, hi)
  {
    if hi !in table {
      assert Rows(table, hi) + [] == Rows(table, hi);
    }
  }

  /** An empty table has no rows. */
  lemma {:induction false} RowsOfEmpty<T>(table: map<nat, T>, hi: nat)
    requires table == map[]
    ensures Rows(table, hi) == []
  {
    if hi > 0 {
      RowsOfEmpty(table, hi - 1);
    }
  }

  /** A row is listed exactly when some identifier below `hi` holds it. */
  lemma {:induction false} RowsListExactly<T>(table: map<nat, T>, hi: nat, x: T)
    ensures x in Rows(table, hi) <==> exists k :: 0 <= k < hi && k in table && table[k] == x
  {
    if hi > 0 {
      RowsListExactly(table, hi - 1, x);
      if hi - 1 in table && table[hi - 1] == x {
        assert x in Rows(table, hi);
      }
    }
  }

  /** Writing an identifier at or above `hi` leaves the rows below `hi` alone. */
  lemma {:induction false} RowsBelowUnaffected<T>(table: map<nat, T>, hi: nat, k: nat, v: T)
    requires hi <= k
    ensures Rows(table[k := v], hi) == Rows(table, hi)
  {
    if hi > 0 {
      RowsBelowUnaffected(table, hi - 1, k, v);
    }
  }

  /** Inserting under the next identifier appends exactly one row. */
  lemma {:induction false} RowsInsert<T>(table: map<nat, T>, next: nat, v: T)
    requires Bounded(table, next)
    ensures Bounded(table[next := v], next + 1)
    ensures Rows(table[next := v], next + 1) == Rows(table, next) + [v]
  {
    RowsBelowUnaffected(table, next, next, v);
  }
}
