/** The order in which the engine walks the board, and sets of points listed in that order. */
module Scans {
  import opened Model

  ghost function Column(x: nat, k: nat): (cells: seq<Coord>)
    ensures |cells| == k && forall i :: 0 <= i < k ==> cells[i] == Coord(x, i)
  {
    if k == 0 then [] else Column(x, k - 1) + [Coord(x, k - 1)]
  }

  /** The points of the first k columns, in scan order. */
  ghost function Scan(size: nat, k: nat): (cells: seq<Coord>)
    ensures forall c :: c in cells <==> c.x < k && c.y < size
    ensures Sorted(cells)
  {
    if k == 0 then [] else
      ColumnHas(k - 1, size);
      Scan(size, k - 1) + Column(k - 1, size)
  }

  lemma ColumnHas(x: nat, k: nat)
    ensures forall c :: c in Column(x, k) <==> c.x == x && c.y < k
  {
    forall c: Coord | c.x == x && c.y < k ensures c in Column(x, k) {
      assert Column(x, k)[c.y] == c;
    }
  }

  lemma {:induction false} ScanLength(size: nat, k: nat)
    ensures |Scan(size, k)| == k * size
  {
    hide Sorted, ScanLess, Column;
    if k == 0 {
    } else {
      ScanLength(size, k - 1);
      assert |Scan(size, k)| == |Scan(size, k - 1)| + size;
      OneMoreColumn(k, size);
    }
  }

  lemma OneMoreColumn(k: int, size: int)
    ensures (k - 1) * size + size == k * size
  {
  }

  /** The points of a list that belong to a set, in the order of the list. */
  ghost function Pick(cells: seq<Coord>, chosen: set<Coord>): (picked: seq<Coord>)
    ensures forall c :: c in picked <==> c in cells && c in chosen
    ensures Sorted(cells) ==> Sorted(picked)
  {
    if cells == [] then [] else
      var init, last := cells[..|cells| - 1], cells[|cells| - 1];
      assert cells == init + [last];
      var picked := Pick(init, chosen);
      if last in chosen then
        assert Sorted(cells) ==> forall c :: c in picked ==> ScanLess(c, last);
        picked + [last]
      else picked
  }

  /** A set of points of the board, listed in scan order. */
  ghost function ListOf(size: nat, chosen: set<Coord>): (cells: seq<Coord>)
    ensures Sorted(cells)
    ensures forall c :: c in cells <==> c in chosen && InBounds(size, c)
  {
    Pick(Scan(size, size), chosen)
  }

  lemma SortedHasNoDup(cells: seq<Coord>)
    requires Sorted(cells)
    ensures NoDup(cells)
  {
  }

  lemma SortedAppend(cells: seq<Coord>, c: Coord)
    requires Sorted(cells) && forall d :: d in cells ==> ScanLess(d, c)
    ensures Sorted(cells + [c])
  {
  }

  lemma LastIsGreatest(cells: seq<Coord>, c: Coord)
    requires Sorted(cells) && c in cells
    ensures c == cells[|cells| - 1] || ScanLess(c, cells[|cells| - 1])
  {
  }

  lemma InitOfSorted(cells: seq<Coord>)
    requires Sorted(cells) && cells != []
    ensures Elems(cells[..|cells| - 1]) == Elems(cells) - {cells[|cells| - 1]}
    ensures Sorted(cells[..|cells| - 1])
  {
    SortedHasNoDup(cells);
    assert cells == cells[..|cells| - 1] + [cells[|cells| - 1]];
  }

  lemma SameLast(a: seq<Coord>, b: seq<Coord>)
    requires Sorted(a) && Sorted(b) && a != [] && Elems(a) == Elems(b)
    ensures b != [] && a[|a| - 1] == b[|b| - 1]
  {
    assert a[|a| - 1] in Elems(b);
    assert b[|b| - 1] in Elems(a);
    LastIsGreatest(a, b[|b| - 1]);
    LastIsGreatest(b, a[|a| - 1]);
  }

  /** A set has only one listing in scan order. */
  lemma {:induction false} SortedIsUnique(a: seq<Coord>, b: seq<Coord>)
    requires Sorted(a) && Sorted(b)
    requires Elems(a) == Elems(b)
    ensures a == b
  {
    hide Sorted, ScanLess;
    assert |b| > 0 ==> b[0] in Elems(b);
    if a == [] {
    } else {
      SameLast(a, b);
      InitOfSorted(a);
      InitOfSorted(b);
      assert a == a[..|a| - 1] + [a[|a| - 1]] && b == b[..|b| - 1] + [b[|b| - 1]];
      SortedIsUnique(a[..|a| - 1], b[..|b| - 1]);
    }
  }
}
