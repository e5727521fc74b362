/**
 A table is a map from primary key to record. `Select` is the model of
 `select(T).where(cond)`: the rows that satisfy a condition, in key order.
 */
module Tables {

  /** A row as a query returns it: its primary key and its record. */
  datatype Row<T> = Row(id: int, val: T)

  /** `r` is what the query returns: every row of `table` with a key in
      [0, bound) whose record satisfies `keep`, and no other, in ascending key order. */
  ghost predicate Selected<T>(r: seq<Row<T>>, table: map<int, T>, keep: T -> bool, bound: nat) {
    && (forall i | 0 <= i < |r| ::
          0 <= r[i].id < bound && r[i].id in table && table[r[i].id] == r[i].val && keep(r[i].val))
    && (forall k {:trigger Row(k, table[k])} | 0 <= k < bound && k in table && keep(table[k]) :: Row(k, table[k]) in r)
    && (forall i, j | 0 <= i < j < |r| :: KeyAt(r, i) < KeyAt(r, j))
  }

  /** The key of the row at position `i`. Ordering facts are stated over it, so
      that they come into play only where a proof compares keys. */
  function KeyAt<T>(r: seq<Row<T>>, i: int): int
    requires 0 <= i < |r|
  {
    r[i].id
  }

  /** The rows of `table` with a key in [0, bound) whose record satisfies `keep`,
      in ascending key order. */
  function Select<T>(table: map<int, T>, keep: T -> bool, bound: nat): (r: seq<Row<T>>)
    ensures Selected(r, table, keep, bound)
  {
    if bound == 0 then []
    else
      var k := bound - 1;
      var init := Select(table, keep, k);
      if k in table && keep(table[k]) then
        AppendKeepsOrder(init, Row(k, table[k]));
        init + [Row(k, table[k])]
      else
        init
  }

  /** Appending a row whose key is above every key keeps the keys ascending. */
  lemma AppendKeepsOrder<T>(r: seq<Row<T>>, row: Row<T>)
    requires forall i | 0 <= i < |r| :: r[i].id < row.id
    requires forall i, j | 0 <= i < j < |r| :: KeyAt(r, i) < KeyAt(r, j)
    ensures forall i, j | 0 <= i < j < |r| + 1 :: KeyAt(r + [row], i) < KeyAt(r + [row], j)
  {
    var s := r + [row];
    forall i, j | 0 <= i < j < |s| ensures KeyAt(s, i) < KeyAt(s, j) {
      if j < |r| {
        assert KeyAt(r, i) < KeyAt(r, j);
      }
    }
  }

  /** A query has exactly one answer: any sequence with the three properties is `Select`'s. */
  lemma {:induction false} SelectedIsSelect<T>(r: seq<Row<T>>, table: map<int, T>, keep: T -> bool, bound: nat)
    requires Selected(r, table, keep, bound)
    ensures r == Select(table, keep, bound)
  {
    if bound == 0 {
      if |r| > 0 {
        SplitLast(r);
        assert false;
      }
    } else {
      var k := bound - 1;
      if k in table && keep(table[k]) {
        SelectedLast(r, table, keep, bound);
        SelectedIsSelect(r[..|r| - 1], table, keep, k);
        SplitLast(r);
      } else {
        SelectedSkip(r, table, keep, bound);
        SelectedIsSelect(r, table, keep, k);
      }
    }
  }

  lemma SplitLast<T>(r: seq<T>)
    requires |r| > 0
    ensures r == r[..|r| - 1] + [r[|r| - 1]]
  {
  }

  /** When the last key below `bound` is selected, it is the last row, and
      the rows before it answer the query below that key. */
  lemma SelectedLast<T>(r: seq<Row<T>>, table: map<int, T>, keep: T -> bool, bound: nat)
    requires Selected(r, table, keep, bound)
    requires bound > 0 && bound - 1 in table && keep(table[bound - 1])
    ensures |r| > 0 && r[|r| - 1] == Row(bound - 1, table[bound - 1])
    ensures Selected(r[..|r| - 1], table, keep, bound - 1)
  {
    var k := bound - 1;
    assert Row(k, table[k]) in r;
    var i :| 0 <= i < |r| && r[i] == Row(k, table[k]);
    var init := r[..|r| - 1];
    forall j | 0 <= j < |init| ensures init[j].id < k {
      assert KeyAt(r, j) < KeyAt(r, |r| - 1);
    }
    forall a, b | 0 <= a < b < |init| ensures KeyAt(init, a) < KeyAt(init, b) {
      assert KeyAt(r, a) < KeyAt(r, b);
    }
    forall k' | 0 <= k' < k && k' in table && keep(table[k'])
      ensures Row(k', table[k']) in init
    {
      assert Row(k', table[k']) in r;
      var j :| 0 <= j < |r| && r[j] == Row(k', table[k']);
      assert init[j] == r[j];
    }
  }

  /** When the last key below `bound` is not selected, the same rows answer
      the query below that key. */
  lemma SelectedSkip<T>(r: seq<Row<T>>, table: map<int, T>, keep: T -> bool, bound: nat)
    requires Selected(r, table, keep, bound)
    requires bound > 0 && !(bound - 1 in table && keep(table[bound - 1]))
    ensures Selected(r, table, keep, bound - 1)
  {
    forall j | 0 <= j < |r| ensures r[j].id < bound - 1 {
    }
  }

  /** Two tables that agree below `bound` give the same selection. */
  lemma {:induction false} SelectAgree<T>(t1: map<int, T>, t2: map<int, T>, keep: T -> bool, bound: nat)
    requires forall k | 0 <= k < bound :: (k in t1 <==> k in t2)
    requires forall k | 0 <= k < bound && k in t1 :: t1[k] == t2[k]
    ensures Select(t1, keep, bound) == Select(t2, keep, bound)
  {
    if bound > 0 {
      SelectAgree(t1, t2, keep, bound - 1);
    }
  }

  /** Inserting a row at the fresh key `k` appends it to every selection that keeps it. */
  lemma SelectInsert<T>(table: map<int, T>, keep: T -> bool, k: nat, v: T)
    requires forall key | key in table :: key < k
    ensures Select(table[k := v], keep, k + 1) ==
            Select(table, keep, k) + (if keep(v) then [Row(k, v)] else [])
  {
    SelectAgree(table[k := v], table, keep, k);
  }

  /** Removing key `k` removes exactly its row from every selection. */
  lemma SelectRemove<T>(table: map<int, T>, keep: T -> bool, bound: nat, k: int)
    ensures forall row :: row in Select(table - {k}, keep, bound) <==>
              row in Select(table, keep, bound) && row.id != k
  {
    var before, after := Select(table, keep, bound), Select(table - {k}, keep, bound);
    forall row ensures row in after <==> row in before && row.id != k {
      if row in after {
        var i :| 0 <= i < |after| && after[i] == row;
        assert Row(row.id, table[row.id]) in before;
      }
      if row in before && row.id != k {
        var i :| 0 <= i < |before| && before[i] == row;
        assert Row(row.id, (table - {k})[row.id]) in after;
      }
    }
  }

  /** Storing `v` at an existing or new key `k` below `bound` replaces that
      key's row, in every selection that keeps `v`, by the new one. */
  lemma SelectPut<T>(table: map<int, T>, keep: T -> bool, bound: nat, k: nat, v: T)
    requires k < bound && keep(v)
    ensures forall row :: row in Select(table[k := v], keep, bound) <==>
              (row in Select(table, keep, bound) && row.id != k) || row == Row(k, v)
  {
    var before, after := Select(table, keep, bound), Select(table[k := v], keep, bound);
    assert Row(k, table[k := v][k]) in after;
    forall row ensures row in after <==> (row in before && row.id != k) || row == Row(k, v) {
      if row in after && row.id != k {
        var i :| 0 <= i < |after| && after[i] == row;
        assert Row(row.id, table[row.id]) in before;
      }
      if row in before && row.id != k {
        var i :| 0 <= i < |before| && before[i] == row;
        assert Row(row.id, table[k := v][row.id]) in after;
      }
    }
  }

  /** A narrower condition selects a subset of the rows. */
  lemma SelectNarrower<T>(table: map<int, T>, keep: T -> bool, narrower: T -> bool, bound: nat)
    requires forall v :: narrower(v) ==> keep(v)
    ensures forall row | row in Select(table, narrower, bound) :: row in Select(table, keep, bound)
  {
    var wide, narrow := Select(table, keep, bound), Select(table, narrower, bound);
    forall row | row in narrow ensures row in wide {
      var i :| 0 <= i < |narrow| && narrow[i] == row;
      assert Row(row.id, table[row.id]) in wide;
    }
  }
}
