/** Shared vocabulary of the ledger: optional values, calendar dates and
    tables whose rows carry auto-increment ids. */
module Common {

  datatype Option<T> = None | Some(value: T) {
    /** The value, or `default` when absent (PHP's `$x ?? $default`). */
    function GetOr(default: T): T {
      if Some? then value else default
    }
  }

  /** Identifiers are auto-increment primary keys. */
  type Id = nat

  /** A calendar date as stored in a `date` column. */
  datatype Date = Date(year: int, month: int, day: int)

  /** A `created_at` timestamp; only its order matters here. */
  type Timestamp = int

  /** The rows of a table whose keys are ids, in id order, for the ids below `n`
      (the table's next auto-increment value). */
  function Rows<T>(table: map<Id, T>, n: nat): (r: seq<T>)
    ensures |r| <= n
  {
    if n == 0 then []
    else Rows(table, n - 1) + (if n - 1 in table then [table[n - 1]] else [])
  }

  /** Writing or deleting a row whose id is at least `n` does not change the rows below `n`. */
  lemma {:induction false} RowsBelowIgnoreAbove<T>(table: map<Id, T>, k: Id, v: T, n: nat)
    requires n <= k
    ensures Rows(table[k := v], n) == Rows(table, n)
    ensures Rows(table - {k}, n) == Rows(table, n)
  {
    if n > 0 {
      RowsBelowIgnoreAbove(table, k, v, n - 1);
    }
  }

  /** Inserting the row with the next id appends it. */
  lemma RowsInsertNext<T>(table: map<Id, T>, n: nat, v: T)
    ensures Rows(table[n := v], n + 1) == Rows(table, n) + [v]
  {
    RowsBelowIgnoreAbove(table, n, v, n);
  }

  function Max(a: int, b: int): int { if a < b then b else a }

  function MinReal(a: real, b: real): real { if a < b then a else b }


  function Abs(x: int): int { if x < 0 then -x else x }
}
