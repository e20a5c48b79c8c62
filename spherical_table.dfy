/**
 * Spherical neighbour tables of ROG-Map.
 *
 * A table of step `s` lists integer offsets (dx, dy, dz) of the cube [-s, s]^3,
 * generated by three nested loops in lexicographic order and then sorted by
 * squared Euclidean norm. The inflation and unknown-inflation tables keep the
 * whole cube when s == 1 (the "unit-cube rule"); the nearest-search table
 * keeps only the ball dx^2 + dy^2 + dz^2 <= s^2.
 */
module SphericalTable {

  datatype Offset = Offset(dx: int, dy: int, dz: int)

  const Origin := Offset(0, 0, 0)

  /** Squared Euclidean norm, the sort key of every table. */
  function SqNorm(o: Offset): (n: int)
    ensures n >= 0
  {
    o.dx * o.dx + o.dy * o.dy + o.dz * o.dz
  }

  /** Only the origin has squared norm zero. */
  lemma SqNormZero(o: Offset)
    ensures SqNorm(o) == 0 <==> o == Origin
  {
    if o.dx != 0 { assert o.dx * o.dx > 0; }
    if o.dy != 0 { assert o.dy * o.dy > 0; }
    if o.dz != 0 { assert o.dz * o.dz > 0; }
  }

  predicate InColumn(o: Offset, step: int) {
    -step <= o.dz <= step
  }

  predicate InSquare(o: Offset, step: int) {
    -step <= o.dy <= step && InColumn(o, step)
  }

  /** Every coordinate in [-step, step]. */
  predicate InCube(o: Offset, step: int) {
    -step <= o.dx <= step && InSquare(o, step)
  }

  /** The membership test of the innermost loop. */
  predicate Keep(o: Offset, step: int, unitCubeRule: bool) {
    (unitCubeRule && step == 1) || SqNorm(o) <= step * step
  }

  /** An offset the table of `step` must contain (exactly once). */
  predicate Admitted(o: Offset, step: int, unitCubeRule: bool) {
    InCube(o, step) && Keep(o, step, unitCubeRule)
  }

  /** The membership test as a value, so the loop nest below is written once for all tables. */
  function KeepTest(step: int, unitCubeRule: bool): Offset -> bool {
    o => Keep(o, step, unitCubeRule)
  }

  // The generated (unsorted) table, in the order of the loops: dz innermost.

  /** The blocks f(lo), f(lo + 1), ..., f(hi - 1) one after the other: one loop level. */
  function Concat(lo: int, hi: int, f: int -> seq<Offset>): seq<Offset>
    decreases hi - lo
  {
    if hi <= lo then [] else Concat(lo, hi - 1, f) + f(hi - 1)
  }

  /** What the innermost loop body appends for one offset. */
  function Kept(keep: Offset -> bool, o: Offset): seq<Offset> {
    if keep(o) then [o] else []
  }

  /** Offsets (x, y, z) passing `keep`, for z in [-step, zEnd). */
  function Line(step: int, keep: Offset -> bool, x: int, y: int, zEnd: int): seq<Offset> {
    Concat(-step, zEnd, LineBlock(keep, x, y))
  }

  function LineBlock(keep: Offset -> bool, x: int, y: int): int -> seq<Offset> {
    z => Kept(keep, Offset(x, y, z))
  }

  /** Offsets (x, y, z) passing `keep`, for y in [-step, yEnd), z in [-step, step]. */
  function Plane(step: int, keep: Offset -> bool, x: int, yEnd: int): seq<Offset> {
    Concat(-step, yEnd, PlaneBlock(step, keep, x))
  }

  function PlaneBlock(step: int, keep: Offset -> bool, x: int): int -> seq<Offset> {
    y => Line(step, keep, x, y, step + 1)
  }

  /** Offsets passing `keep`, for x in [-step, xEnd), y and z in [-step, step]. */
  function Cube(step: int, keep: Offset -> bool, xEnd: int): seq<Offset> {
    Concat(-step, xEnd, CubeBlock(step, keep))
  }

  function CubeBlock(step: int, keep: Offset -> bool): int -> seq<Offset> {
    x => Plane(step, keep, x, step + 1)
  }

  /** The whole generated table, before sorting. */
  function Table(step: int, unitCubeRule: bool): seq<Offset> {
    Cube(step, KeepTest(step, unitCubeRule), step + 1)
  }

  /** Non-decreasing in `key`, the order std::sort's comparator asks for. */
  predicate SortedBy(t: seq<Offset>, key: Offset -> int) {
    forall i, j :: 0 <= i < j < |t| ==> key(t[i]) <= key(t[j])
  }

  predicate SortedBySqNorm(t: seq<Offset>) {
    SortedBy(t, SqNorm)
  }

  predicate Distinct(t: seq<Offset>) {
    forall i, j :: 0 <= i < j < |t| ==> t[i] != t[j]
  }

  // Counting lemmas: every offset of the cube that passes the test occurs once, nothing else occurs.

  /** How many entries of `t` equal `o`. */
  function Occurrences(t: seq<Offset>, o: Offset): nat {
    if t == [] then 0
    else Occurrences(t[..|t| - 1], o) + (if t[|t| - 1] == o then 1 else 0)
  }

  /** Occurrences in a concatenation add up. */
  lemma {:induction false} OccurrencesConcat(a: seq<Offset>, b: seq<Offset>, o: Offset)
    ensures Occurrences(a + b, o) == Occurrences(a, o) + Occurrences(b, o)
    decreases |b|
  {
    if b != [] {
      assert (a + b)[..|a + b| - 1] == a + b[..|b| - 1];
      OccurrencesConcat(a, b[..|b| - 1], o);
    } else {
      assert a + b == a;
    }
  }

  /** Occurrences is the multiplicity in the multiset of the entries. */
  lemma {:induction false} OccurrencesMultiset(t: seq<Offset>, o: Offset)
    ensures Occurrences(t, o) == multiset(t)[o]
    decreases |t|
  {
    if t != [] {
      assert t == t[..|t| - 1] + [t[|t| - 1]];
      OccurrencesMultiset(t[..|t| - 1], o);
    }
  }

  /** If only block k can hold `o`, the loop level holds `o` as often as block k does. */
  lemma {:induction false} ConcatCount(lo: int, hi: int, f: int -> seq<Offset>, o: Offset, k: int)
    requires forall i :: lo <= i < hi && i != k ==> Occurrences(f(i), o) == 0
    ensures Occurrences(Concat(lo, hi, f), o) == if lo <= k < hi then Occurrences(f(k), o) else 0
    decreases hi - lo
  {
    if hi > lo {
      OccurrencesConcat(Concat(lo, hi - 1, f), f(hi - 1), o);
      ConcatCount(lo, hi - 1, f, o, k);
    }
  }

  lemma LineCount(step: int, keep: Offset -> bool, x: int, y: int, zEnd: int, o: Offset)
    ensures Occurrences(Line(step, keep, x, y, zEnd), o)
         == if o.dx == x && o.dy == y && -step <= o.dz < zEnd && keep(o) then 1 else 0
  {
    var f := LineBlock(keep, x, y);
    forall z | z != o.dz ensures Occurrences(f(z), o) == 0 { }
    ConcatCount(-step, zEnd, f, o, o.dz);
  }

  /** Block y of a plane is the line (x, y, .): it holds `o` once iff `o` lies on it and passes. */
  lemma PlaneBlockCount(step: int, keep: Offset -> bool, x: int, y: int, o: Offset)
    ensures Occurrences(PlaneBlock(step, keep, x)(y), o)
         == if o.dx == x && o.dy == y && InColumn(o, step) && keep(o) then 1 else 0
  {
    LineCount(step, keep, x, y, step + 1, o);
  }

  lemma PlaneCount(step: int, keep: Offset -> bool, x: int, yEnd: int, o: Offset)
    ensures Occurrences(Plane(step, keep, x, yEnd), o)
         == if o.dx == x && -step <= o.dy < yEnd && InColumn(o, step) && keep(o) then 1 else 0
  {
    var f := PlaneBlock(step, keep, x);
    forall y | y != o.dy ensures Occurrences(f(y), o) == 0 {
      PlaneBlockCount(step, keep, x, y, o);
    }
    ConcatCount(-step, yEnd, f, o, o.dy);
    PlaneBlockCount(step, keep, x, o.dy, o);
  }

  /** Block x of a cube is the plane (x, ., .): it holds `o` once iff `o` lies in it and passes. */
  lemma CubeBlockCount(step: int, keep: Offset -> bool, x: int, o: Offset)
    ensures Occurrences(CubeBlock(step, keep)(x), o)
         == if o.dx == x && InSquare(o, step) && keep(o) then 1 else 0
  {
    PlaneCount(step, keep, x, step + 1, o);
  }

  lemma CubeCount(step: int, keep: Offset -> bool, xEnd: int, o: Offset)
    ensures Occurrences(Cube(step, keep, xEnd), o)
         == if -step <= o.dx < xEnd && InSquare(o, step) && keep(o) then 1 else 0
  {
    var f := CubeBlock(step, keep);
    forall x | x != o.dx ensures Occurrences(f(x), o) == 0 {
      CubeBlockCount(step, keep, x, o);
    }
    ConcatCount(-step, xEnd, f, o, o.dx);
    CubeBlockCount(step, keep, o.dx, o);
  }

  /** An entry that occurs at two positions is counted at least twice. */
  lemma TwiceCounted(t: seq<Offset>, i: int, j: int)
    requires 0 <= i < j < |t| && t[i] == t[j]
    ensures multiset(t)[t[i]] >= 2
  {
    var o := t[i];
    assert t == t[..j] + t[j..];
    assert t[..j][i] == o;
    assert t[j..][0] == o;
    assert multiset(t[..j])[o] >= 1;
    assert multiset(t[j..])[o] >= 1;
  }

  /** A sequence in which no value occurs twice has pairwise different entries. */
  lemma SingleCountsDistinct(t: seq<Offset>)
    requires forall o :: multiset(t)[o] <= 1
    ensures Distinct(t)
  {
    forall i, j | 0 <= i < j < |t|
      ensures t[i] != t[j]
    {
      if t[i] == t[j] {
        TwiceCounted(t, i, j);
        assert false;
      }
    }
  }

  /** The least entry of a table sorted by squared norm that contains the origin is the origin. */
  lemma SortedStartsAtOrigin(t: seq<Offset>)
    requires SortedBySqNorm(t)
    requires Origin in t
    ensures |t| > 0 && t[0] == Origin
  {
    var k :| 0 <= k < |t| && t[k] == Origin;
    if k > 0 {
      assert SqNorm(t[0]) <= SqNorm(t[k]);
      SqNormZero(t[0]);
    }
  }

  /** Each admitted offset occurs exactly once in `t`, and nothing else does. */
  ghost predicate HoldsExactly(t: seq<Offset>, step: int, unitCubeRule: bool) {
    forall o :: Occurrences(t, o) == if Admitted(o, step, unitCubeRule) then 1 else 0
  }

  /** The generated table holds each admitted offset exactly once and nothing else. */
  lemma TableHoldsExactly(step: int, unitCubeRule: bool)
    ensures HoldsExactly(Table(step, unitCubeRule), step, unitCubeRule)
  {
    forall o ensures Occurrences(Table(step, unitCubeRule), o) == if Admitted(o, step, unitCubeRule) then 1 else 0 {
      CubeCount(step, KeepTest(step, unitCubeRule), step + 1, o);
    }
  }

  /** A permutation of the generated table holds exactly the admitted offsets too. */
  lemma PermutedTableHoldsExactly(t: seq<Offset>, step: int, unitCubeRule: bool)
    requires multiset(t) == multiset(Table(step, unitCubeRule))
    ensures HoldsExactly(t, step, unitCubeRule)
  {
    TableHoldsExactly(step, unitCubeRule);
    forall o ensures Occurrences(t, o) == Occurrences(Table(step, unitCubeRule), o) {
      OccurrencesMultiset(t, o);
      OccurrencesMultiset(Table(step, unitCubeRule), o);
    }
  }

  /** A table that holds exactly the admitted offsets contains an offset iff it is admitted. */
  lemma HoldsExactlyMembers(t: seq<Offset>, step: int, unitCubeRule: bool)
    requires HoldsExactly(t, step, unitCubeRule)
    ensures forall o :: o in t <==> Admitted(o, step, unitCubeRule)
    ensures forall o :: multiset(t)[o] <= 1
  {
    forall o ensures (o in t <==> Admitted(o, step, unitCubeRule)) && multiset(t)[o] <= 1 {
      OccurrencesMultiset(t, o);
      assert o in t <==> o in multiset(t);
    }
  }

  /** Two sequences that both hold exactly the admitted offsets are permutations of each other. */
  lemma HoldsExactlyPermutation(t: seq<Offset>, u: seq<Offset>, step: int, unitCubeRule: bool)
    requires HoldsExactly(t, step, unitCubeRule) && HoldsExactly(u, step, unitCubeRule)
    ensures multiset(t) == multiset(u)
    ensures |t| == |u|
  {
    forall o ensures multiset(t)[o] == multiset(u)[o] {
      OccurrencesMultiset(t, o);
      OccurrencesMultiset(u, o);
    }
    assert multiset(t) == multiset(u);
    assert |multiset(t)| == |t|;
  }

  lemma OriginAdmitted(step: int, unitCubeRule: bool)
    requires step >= 0
    ensures Admitted(Origin, step, unitCubeRule)
  {
    assert InCube(Origin, step);
  }

  /**
   * What the constructor promises of a table once it is sorted: a table that holds exactly
   * the admitted offsets has no duplicates, contains an offset iff it is admitted, and, sorted
   * by squared norm with a step that is not negative, starts at the origin.
   */
  lemma SortedTableFacts(t: seq<Offset>, step: int, unitCubeRule: bool)
    requires SortedBySqNorm(t)
    requires HoldsExactly(t, step, unitCubeRule)
    ensures forall o :: o in t <==> Admitted(o, step, unitCubeRule)
    ensures Distinct(t)
    ensures step >= 0 ==> |t| > 0 && t[0] == Origin
  {
    HoldsExactlyMembers(t, step, unitCubeRule);
    SingleCountsDistinct(t);
    if step >= 0 {
      OriginAdmitted(step, unitCubeRule);
      SortedStartsAtOrigin(t);
    }
  }

  /** With the unit-cube rule and step 1 the table is the full 27-cell neighbourhood. */
  lemma UnitCubeTable()
    ensures |Table(1, true)| == 27
    ensures forall o :: o in Table(1, true) <==> InCube(o, 1)
  {
    TableHoldsExactly(1, true);
    HoldsExactlyMembers(Table(1, true), 1, true);
    UnitCubeLength();
  }

  /** A loop level whose blocks all have length n has (hi - lo) * n entries. */
  lemma {:induction false} ConcatLength(lo: int, hi: int, f: int -> seq<Offset>, n: int)
    requires lo <= hi
    requires forall i :: lo <= i < hi ==> |f(i)| == n
    ensures |Concat(lo, hi, f)| == (hi - lo) * n
    decreases hi - lo
  {
    if hi > lo {
      ConcatLength(lo, hi - 1, f, n);
    }
  }

  lemma UnitCubeLength()
    ensures |Table(1, true)| == 27
  {
    var keep := KeepTest(1, true);
    forall x, y ensures |Line(1, keep, x, y, 2)| == 3 {
      ConcatLength(-1, 2, LineBlock(keep, x, y), 1);
    }
    forall x ensures |Plane(1, keep, x, 2)| == 9 {
      ConcatLength(-1, 2, PlaneBlock(1, keep, x), 3);
    }
    ConcatLength(-1, 2, CubeBlock(1, keep), 9);
  }

  /** The innermost loop: appends the kept offsets (dx, dy, dz), dz from -step to step. */
  method AppendColumn(t0: seq<Offset>, step: int, unitCubeRule: bool, dx: int, dy: int)
    returns (t: seq<Offset>)
    ensures t == t0 + Line(step, KeepTest(step, unitCubeRule), dx, dy, step + 1)
  {
    ghost var keep := KeepTest(step, unitCubeRule);
    t := t0;
    var dz := -step;
    while dz <= step
      invariant dz == -step || -step <= dz <= step + 1
      invariant t == t0 + Line(step, keep, dx, dy, dz)
    {
      ghost var line := Line(step, keep, dx, dy, dz);
      var o := Offset(dx, dy, dz);
      if Keep(o, step, unitCubeRule) {
        t := t + [o];
        assert t == t0 + (line + [o]);
      } else {
        assert t == t0 + (line + []);
      }
      dz := dz + 1;
    }
    assert dz == -step || dz == step + 1;
  }

  /** The middle loop: appends the kept offsets (dx, dy, dz), dy and dz from -step to step. */
  method AppendPlane(t0: seq<Offset>, step: int, unitCubeRule: bool, dx: int)
    returns (t: seq<Offset>)
    ensures t == t0 + Plane(step, KeepTest(step, unitCubeRule), dx, step + 1)
  {
    ghost var keep := KeepTest(step, unitCubeRule);
    t := t0;
    var dy := -step;
    while dy <= step
      invariant dy == -step || -step <= dy <= step + 1
      invariant t == t0 + Plane(step, keep, dx, dy)
    {
      t := AppendColumn(t, step, unitCubeRule, dx, dy);
      assert t == t0 + (Plane(step, keep, dx, dy) + Line(step, keep, dx, dy, step + 1));
      dy := dy + 1;
    }
    assert dy == -step || dy == step + 1;
  }

  /** The triple loop of the constructor: appends every kept offset of the cube. */
  method BuildTable(step: int, unitCubeRule: bool) returns (t: seq<Offset>)
    ensures t == Table(step, unitCubeRule)
  {
    ghost var keep := KeepTest(step, unitCubeRule);
    t := [];
    var dx := -step;
    while dx <= step
      invariant dx == -step || -step <= dx <= step + 1
      invariant t == Cube(step, keep, dx)
    {
      t := AppendPlane(t, step, unitCubeRule, dx);
      dx := dx + 1;
    }
    assert dx == -step || dx == step + 1;
  }

  /** std::sort with a comparator on `key`, as an in-place insertion sort. */
  method SortBy(a: array<Offset>, key: Offset -> int)
    modifies a
    ensures SortedBy(a[..], key)
    ensures multiset(a[..]) == old(multiset(a[..]))
  {
    var i := 0;
    while i < a.Length
      invariant 0 <= i <= a.Length
      invariant forall p, q :: 0 <= p < q < i ==> key(a[p]) <= key(a[q])
      invariant multiset(a[..]) == old(multiset(a[..]))
    {
      Insert(a, i, key);
      i := i + 1;
    }
  }

  /** One pass of the insertion sort: moves a[i] down into the sorted prefix a[..i]. */
  method Insert(a: array<Offset>, i: int, key: Offset -> int)
    requires 0 <= i < a.Length
    requires forall p, q :: 0 <= p < q < i ==> key(a[p]) <= key(a[q])
    modifies a
    ensures forall p, q :: 0 <= p < q <= i ==> key(a[p]) <= key(a[q])
    ensures multiset(a[..]) == old(multiset(a[..]))
  {
    var j := i;
    while j > 0 && key(a[j - 1]) > key(a[j])
      invariant 0 <= j <= i
      invariant forall p, q :: 0 <= p < q <= i && q != j ==> key(a[p]) <= key(a[q])
      invariant 0 < j < i ==> key(a[j - 1]) <= key(a[j + 1])
      invariant multiset(a[..]) == old(multiset(a[..]))
    {
      Swap(a, j - 1, j);
      j := j - 1;
    }
  }

  /** Exchanges two entries of `a`; the entries as a multiset stay the same. */
  method Swap(a: array<Offset>, i: int, j: int)
    requires 0 <= i < a.Length && 0 <= j < a.Length
    modifies a
    ensures a[..] == old(a[..])[i := old(a[j])][j := old(a[i])]
    ensures multiset(a[..]) == old(multiset(a[..]))
  {
    a[i], a[j] := a[j], a[i];
  }

  /** One table of the constructor: generate, then sort in place. */
  method BuildSortedTable(step: int, unitCubeRule: bool) returns (t: seq<Offset>)
    ensures SortedBySqNorm(t)
    ensures multiset(t) == multiset(Table(step, unitCubeRule))
  {
    var generated := BuildTable(step, unitCubeRule);
    var a := new Offset[|generated|](i requires 0 <= i < |generated| => generated[i]);
    assert a[..] == generated;
    SortBy(a, SqNorm);
    t := a[..];
  }
}
