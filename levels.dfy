// The fixed level catalog: three grids of brick values.
//   0: no brick (an empty placeholder), 1: normal, 2: strong (two hits),
//   3: invulnerable.

module Levels {

  type Level = seq<seq<int>>

  const Catalog: seq<Level> := [
    // starting level
    [
      [0, 3, 1, 1, 1, 1, 0, 0],
      [0, 1, 1, 2, 2, 1, 1, 0],
      [0, 1, 1, 1, 1, 1, 1, 0],
      [0, 0, 1, 1, 1, 1, 0, 0]
    ],
    // mid level
    [
      [0, 0, 2, 1, 1, 1, 0, 0],
      [0, 1, 2, 2, 2, 2, 1, 0],
      [1, 2, 2, 3, 3, 2, 2, 1],
      [2, 1, 2, 2, 2, 2, 1, 2],
      [0, 3, 1, 2, 2, 1, 3, 0]
    ],
    // advanced level
    [
      [0, 0, 1, 3, 1, 1, 0, 0],
      [2, 0, 1, 1, 1, 0, 2, 0],
      [2, 2, 1, 2, 2, 1, 2, 2],
      [2, 2, 2, 3, 3, 2, 2, 2],
      [3, 1, 3, 3, 3, 3, 1, 3]
    ]
  ]

  /** Rows of exactly eight cells, every value one of the four brick values. */
  predicate WellFormedLevel(level: Level) {
    forall r :: 0 <= r < |level| ==>
      |level[r]| == 8 && forall c :: 0 <= c < 8 ==> 0 <= level[r][c] <= 3
  }

  lemma CatalogShape()
    ensures |Catalog| == 3
    ensures |Catalog[0]| == 4 && |Catalog[1]| == 5 && |Catalog[2]| == 5
    ensures forall i :: 0 <= i < |Catalog| ==> WellFormedLevel(Catalog[i])
  {
  }

  /** The cells of a level in row-major order, the order the builder visits them. */
  function Flatten(level: Level): seq<int> {
    if level == [] then [] else Flatten(level[..|level| - 1]) + level[|level| - 1]
  }

  /** With rows of eight cells, cell c of row r is the (8r + c)-th cell visited. */
  lemma {:induction false} FlattenRowMajor(level: Level)
    requires forall r :: 0 <= r < |level| ==> |level[r]| == 8
    ensures |Flatten(level)| == 8 * |level|
    ensures forall r, c :: 0 <= r < |level| && 0 <= c < 8 ==> Flatten(level)[8 * r + c] == level[r][c]
  {
    if level != [] {
      var n := |level| - 1;
      FlattenRowMajor(level[..n]);
      forall r, c | 0 <= r < |level| && 0 <= c < 8
        ensures Flatten(level)[8 * r + c] == level[r][c]
      {
        if r < n {
          assert level[..n][r] == level[r];
        }
      }
    }
  }

  /** Number of cells holding a value that counts as an active brick (1 or 2). */
  function CountActiveValues(cells: seq<int>): nat {
    if cells == [] then 0
    else (if cells[0] == 1 || cells[0] == 2 then 1 else 0) + CountActiveValues(cells[1..])
  }

  lemma {:induction false} CountActiveValuesAppend(a: seq<int>, b: seq<int>)
    ensures CountActiveValues(a + b) == CountActiveValues(a) + CountActiveValues(b)
  {
    if a == [] {
      assert a + b == b;
    } else {
      assert (a + b)[1..] == a[1..] + b;
      CountActiveValuesAppend(a[1..], b);
    }
  }

  /** The starting level, row after row. */
  lemma StartingLevelFlat()
    ensures Flatten(Catalog[0]) == [0, 3, 1, 1, 1, 1, 0, 0] + [0, 1, 1, 2, 2, 1, 1, 0]
                                 + [0, 1, 1, 1, 1, 1, 1, 0] + [0, 0, 1, 1, 1, 1, 0, 0]
  {
    var r0, r1, r2, r3 := [0, 3, 1, 1, 1, 1, 0, 0], [0, 1, 1, 2, 2, 1, 1, 0], [0, 1, 1, 1, 1, 1, 1, 0], [0, 0, 1, 1, 1, 1, 0, 0];
    var l0: Level := [];
    var l1, l2, l3, l4 := l0 + [r0], l0 + [r0, r1], l0 + [r0, r1, r2], l0 + [r0, r1, r2, r3];
    assert Catalog[0] == l4;
    assert l1[..0] == l0 && l2[..1] == l1 && l3[..2] == l2 && l4[..3] == l3;
    assert Flatten(l1) == r0;
    assert Flatten(l2) == r0 + r1;
    assert Flatten(l3) == r0 + r1 + r2;
  }

  lemma StartingLevelRowCounts()
    ensures CountActiveValues([0, 3, 1, 1, 1, 1, 0, 0] + [0, 1, 1, 2, 2, 1, 1, 0]
                              + [0, 1, 1, 1, 1, 1, 1, 0] + [0, 0, 1, 1, 1, 1, 0, 0]) == 20
  {
    var r0, r1, r2, r3 := [0, 3, 1, 1, 1, 1, 0, 0], [0, 1, 1, 2, 2, 1, 1, 0], [0, 1, 1, 1, 1, 1, 1, 0], [0, 0, 1, 1, 1, 1, 0, 0];
    StartingLevelRow0();
    StartingLevelRow1();
    StartingLevelRow2();
    StartingLevelRow3();
    CountActiveValuesAppend(r0, r1);
    CountActiveValuesAppend(r0 + r1, r2);
    CountActiveValuesAppend(r0 + r1 + r2, r3);
  }

  /** The active cells of each row of the starting level, one row at a time. */
  lemma StartingLevelRow0()
    ensures CountActiveValues([0, 3, 1, 1, 1, 1, 0, 0]) == 4
  {
  }

  lemma StartingLevelRow1()
    ensures CountActiveValues([0, 1, 1, 2, 2, 1, 1, 0]) == 6
  {
  }

  lemma StartingLevelRow2()
    ensures CountActiveValues([0, 1, 1, 1, 1, 1, 1, 0]) == 6
  {
  }

  lemma StartingLevelRow3()
    ensures CountActiveValues([0, 0, 1, 1, 1, 1, 0, 0]) == 4
  {
  }

  /** The starting level holds 20 cells of value 1 or 2 among its 32 cells. */
  lemma StartingLevelValues()
    ensures |Flatten(Catalog[0])| == 32
    ensures CountActiveValues(Flatten(Catalog[0])) == 20
  {
    StartingLevelFlat();
    StartingLevelRowCounts();
  }
}
