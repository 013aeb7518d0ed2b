/**
 * A loop over the rows of a scraped table that skips some rows, turns the
 * others into entries, and gives up on the whole table when reading one row
 * raises (the `except` around the loop then returns `[]`).
 */
module Rows {
  import opened Wrappers

  /**
   * What the loop has collected after the given rows, where `read(row)` is
   * Some(None) for a skipped row, Some(Some(e)) for a row giving entry `e`,
   * and None for a row whose reading raises; None when some row raised.
   */
  function Collect<R, E>(rows: seq<R>, read: R -> Option<Option<E>>): Option<seq<E>> {
    if rows == [] then Some([])
    else Extend(Collect(rows[..|rows| - 1], read), read(rows[|rows| - 1]))
  }

  /** One more row read into what the loop has collected. */
  function Extend<E>(acc: Option<seq<E>>, r: Option<Option<E>>): Option<seq<E>> {
    match acc
    case None => None
    case Some(es) =>
      match r
      case None => None
      case Some(None) => Some(es)
      case Some(Some(e)) => Some(es + [e])
  }

  /** Reading row `i` after the rows before it. */
  lemma CollectNext<R, E>(rows: seq<R>, i: nat, read: R -> Option<Option<E>>)
    requires i < |rows|
    ensures Collect(rows[..i + 1], read) == Extend(Collect(rows[..i], read), read(rows[i]))
  {
    assert rows[..i + 1][..i] == rows[..i];
  }

  /** A table of two rows: the first read, then the second. */
  lemma CollectPair<R, E>(a: R, b: R, read: R -> Option<Option<E>>)
    ensures Collect([a, b], read) == Extend(Extend(Some([]), read(a)), read(b))
  {
    var rows := [a, b];
    assert rows[..0] == [] && rows[..2] == rows;
    CollectNext(rows, 0, read);
    CollectNext(rows, 1, read);
  }

  /** A pair whose first row gives an entry and whose second is skipped collects that entry alone. */
  lemma CollectPairFirst<R, E>(a: R, b: R, read: R -> Option<Option<E>>, x: E)
    requires read(a) == Some(Some(x)) && read(b) == Some(None)
    ensures Collect([a, b], read) == Some([x])
  {
    CollectPair(a, b, read);
    assert [] + [x] == [x];
  }

  /** Two ways of reading rows that agree on every row of a table collect the same from it. */
  lemma {:induction false} CollectAgree<R, E>(rows: seq<R>, read: R -> Option<Option<E>>, other: R -> Option<Option<E>>)
    requires forall i :: 0 <= i < |rows| ==> read(rows[i]) == other(rows[i])
    ensures Collect(rows, read) == Collect(rows, other)
  {
    if rows != [] {
      var n := |rows| - 1;
      assert forall i :: 0 <= i < n ==> rows[..n][i] == rows[i];
      CollectAgree(rows[..n], read, other);
    }
  }

  /** The entry a row contributes: one, or none when it is skipped or raises. */
  function Contribution<R, E>(row: R, read: R -> Option<Option<E>>): seq<E> {
    match read(row)
    case Some(Some(e)) => [e]
    case _ => []
  }

  /** The entries of the rows, read front to back: the reference for the order of the output. */
  function Kept<R, E>(rows: seq<R>, read: R -> Option<Option<E>>): seq<E> {
    if rows == [] then [] else Contribution(rows[0], read) + Kept(rows[1..], read)
  }

  lemma {:induction false} KeptAppend<R, E>(rows: seq<R>, row: R, read: R -> Option<Option<E>>)
    ensures Kept(rows + [row], read) == Kept(rows, read) + Contribution(row, read)
  {
    if rows != [] {
      assert (rows + [row])[0] == rows[0] && (rows + [row])[1..] == rows[1..] + [row];
      KeptAppend(rows[1..], row, read);
    } else {
      assert [row][1..] == [];
    }
  }

  /** At most one entry per row. */
  lemma {:induction false} KeptLength<R, E>(rows: seq<R>, read: R -> Option<Option<E>>)
    ensures |Kept(rows, read)| <= |rows|
  {
    if rows != [] {
      KeptLength(rows[1..], read);
    }
  }

  /** Once a row raised, the rows after it change nothing. */
  lemma {:induction false} CollectFailed<R, E>(rows: seq<R>, i: nat, read: R -> Option<Option<E>>)
    requires i <= |rows| && Collect(rows[..i], read) == None
    ensures Collect(rows, read) == None
  {
    if i < |rows| {
      CollectFailed(rows[..|rows| - 1], i, read) by {
        assert rows[..|rows| - 1][..i] == rows[..i];
      }
    } else {
      assert rows[..i] == rows;
    }
  }

  /** The loop gives no list exactly when one of the rows raises. */
  lemma {:induction false} CollectFails<R, E>(rows: seq<R>, read: R -> Option<Option<E>>)
    ensures Collect(rows, read).None? <==> exists i :: 0 <= i < |rows| && read(rows[i]).None?
  {
    if rows != [] {
      var n := |rows| - 1;
      CollectFails(rows[..n], read);
      if Collect(rows[..n], read).None? {
        var i :| 0 <= i < n && read(rows[..n][i]).None?;
        assert rows[i] == rows[..n][i];
      }
      if exists i :: 0 <= i < |rows| && read(rows[i]).None? {
        var i :| 0 <= i < |rows| && read(rows[i]).None?;
        if i < n {
          assert rows[..n][i] == rows[i];
        }
      }
    }
  }

  /** When no row raises, the loop gives the entry of every kept row, in row order. */
  lemma {:induction false} CollectKept<R, E>(rows: seq<R>, read: R -> Option<Option<E>>)
    requires Collect(rows, read).Some?
    ensures Collect(rows, read).value == Kept(rows, read)
  {
    if rows != [] {
      var n := |rows| - 1;
      CollectKept(rows[..n], read);
      assert rows[..n] + [rows[n]] == rows;
      KeptAppend(rows[..n], rows[n], read);
    }
  }

  /** An entry is in the output exactly when some row gives it. */
  lemma {:induction false} KeptMember<R, E>(rows: seq<R>, read: R -> Option<Option<E>>, e: E)
    ensures e in Kept(rows, read) <==> exists i :: 0 <= i < |rows| && read(rows[i]) == Some(Some(e))
  {
    if rows != [] {
      KeptMember(rows[1..], read, e);
      if exists i :: 0 <= i < |rows| && read(rows[i]) == Some(Some(e)) {
        var i :| 0 <= i < |rows| && read(rows[i]) == Some(Some(e));
        if i > 0 {
          assert rows[1..][i - 1] == rows[i];
        }
      }
      if e in Kept(rows[1..], read) {
        var i :| 0 <= i < |rows[1..]| && read(rows[1..][i]) == Some(Some(e));
        assert rows[i + 1] == rows[1..][i];
      }
    }
  }
}
