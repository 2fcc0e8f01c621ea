/**
 * `SelectionTable._group_rows` (tw2/forms/widgets.py): split a sequence into
 * consecutive rows of `size` items, the last row possibly shorter but never
 * empty. The generator is modelled as the list of rows it yields.
 */
module RowChunker {

  /** The rows concatenated back into one sequence. */
  function Flatten<T>(rows: seq<seq<T>>): seq<T> {
    if rows == [] then [] else Flatten(rows[..|rows| - 1]) + rows[|rows| - 1]
  }

  /** Every row holds exactly `size` items. */
  predicate AllFull<T>(rows: seq<seq<T>>, size: nat) {
    forall r :: 0 <= r < |rows| ==> |rows[r]| == size
  }

  /**
   * `rows` splits `s` into rows of `size`: they concatenate to `s`, every
   * row has between 1 and `size` items, and all but the last have exactly `size`.
   */
  predicate IsRowSplit<T(==)>(rows: seq<seq<T>>, s: seq<T>, size: nat) {
    && Flatten(rows) == s
    && (forall r :: 0 <= r < |rows| ==> 0 < |rows[r]| <= size)
    && (forall r :: 0 <= r < |rows| - 1 ==> |rows[r]| == size)
  }

  /** `_group_rows(seq, size)`: pull `size` items at a time until the input runs out. */
  method GroupRows<T(==)>(s: seq<T>, size: nat) returns (rows: seq<seq<T>>)
    requires size > 0
    ensures IsRowSplit(rows, s, size)
    ensures |rows| == (|s| + size - 1) / size
  {
    rows := [];
    var pos := 0;
    var done := false;
    while !done
      invariant pos <= |s|
      invariant Flatten(rows) == s[..pos]
      invariant !done ==> AllFull(rows, size)
      invariant done ==> pos == |s| && IsRowSplit(rows, s, size)
      decreases |s| - pos, if done then 0 else 1
    {
      var chunk: seq<T> := [];
      var exhausted := false;
      while |chunk| < size && !exhausted
        invariant pos <= |s| && |chunk| <= size
        invariant Flatten(rows) + chunk == s[..pos]
        invariant exhausted ==> pos == |s|
        decreases size - |chunk|, if exhausted then 0 else 1
      {
        if pos == |s| {
          exhausted := true;
        } else {
          chunk := chunk + [s[pos]];
          pos := pos + 1;
        }
      }
      if exhausted {
        if chunk != [] {
          AppendRow(rows, chunk);
          rows := rows + [chunk];
        }
        assert s[..pos] == s;
        done := true;
      } else {
        AppendRow(rows, chunk);
        rows := rows + [chunk];
      }
    }
    RowCount(rows, s, size);
  }

  /** Appending a row appends its items to the flattening. */
  lemma AppendRow<T>(rows: seq<seq<T>>, row: seq<T>)
    ensures Flatten(rows + [row]) == Flatten(rows) + row
  {
    assert (rows + [row])[..|rows|] == rows;
  }

  /** Full rows flatten to `size` items each. */
  lemma {:induction false} FlattenFullLength<T>(rows: seq<seq<T>>, size: nat)
    requires AllFull(rows, size)
    ensures |Flatten(rows)| == |rows| * size
  {
    if rows != [] {
      var n := |rows| - 1;
      FlattenFullLength(rows[..n], size);
      assert |Flatten(rows)| == n * size + size;
      assert n * size + size == |rows| * size;
    }
  }

  /** A row split of `s` has `ceil(|s| / size)` rows. */
  lemma RowCount<T>(rows: seq<seq<T>>, s: seq<T>, size: nat)
    requires size > 0 && IsRowSplit(rows, s, size)
    ensures |rows| == (|s| + size - 1) / size
  {
    if rows != [] {
      var n := |rows| - 1;
      FlattenFullLength(rows[..n], size);
      assert |s| + size - 1 == (n + 1) * size + (|rows[n]| - 1);
      DivUnique(|s| + size - 1, size, n + 1, |rows[n]| - 1);
    }
  }

  /** Division by a positive size recovers the quotient of `q * size + r` when `0 <= r < size`. */
  lemma DivUnique(x: int, size: int, q: int, r: int)
    requires size > 0 && x == q * size + r && 0 <= r < size
    ensures x / size == q && x % size == r
  {
    var d := x / size - q;
    assert d * size == r - x % size;
  }

  /** The last row holds `|s| % size` items, or a full `size` when that is 0. */
  lemma LastRowLength<T>(rows: seq<seq<T>>, s: seq<T>, size: nat)
    requires size > 0 && IsRowSplit(rows, s, size) && s != []
    ensures rows != [] && |rows[|rows| - 1]| == if |s| % size == 0 then size else |s| % size
  {
    var n := |rows| - 1;
    var m := |rows[n]|;
    FlattenFullLength(rows[..n], size);
    assert Flatten(rows) == Flatten(rows[..n]) + rows[n];
    if m == size {
      DivUnique(|s|, size, n + 1, 0);
    } else {
      DivUnique(|s|, size, n, m);
    }
  }

  /** The empty input yields no rows. */
  lemma EmptyHasNoRows<T>(rows: seq<seq<T>>, size: nat)
    requires size > 0 && IsRowSplit(rows, [], size)
    ensures rows == []
  {
    RowCount(rows, [], size);
  }

  /** There is only one row split of a sequence for a given size. */
  lemma {:induction false} RowSplitUnique<T>(a: seq<seq<T>>, b: seq<seq<T>>, s: seq<T>, size: nat)
    requires size > 0 && IsRowSplit(a, s, size) && IsRowSplit(b, s, size)
    ensures a == b
    decreases |s|
  {
    RowCount(a, s, size);
    RowCount(b, s, size);
    if a != [] {
      var n := |a| - 1;
      var k := |s| - |a[n]|;
      FlattenFullLength(a[..n], size);
      FlattenFullLength(b[..n], size);
      assert |b[n]| == |a[n]|;
      assert Flatten(a[..n]) == s[..k] && a[n] == s[k..] by {
        assert Flatten(a) == Flatten(a[..n]) + a[n];
      }
      assert Flatten(b[..n]) == s[..k] && b[n] == s[k..] by {
        assert Flatten(b) == Flatten(b[..n]) + b[n];
      }
      assert IsRowSplit(a[..n], s[..k], size);
      assert IsRowSplit(b[..n], s[..k], size);
      RowSplitUnique(a[..n], b[..n], s[..k], size);
      assert a == a[..n] + [a[n]] && b == b[..n] + [b[n]];
    }
  }
}
