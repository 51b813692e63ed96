/**
 * Toboggan trajectory (day03/day03.go): a map of open squares '.' and trees
 * '#' repeats endlessly to the right. Starting at the top-left corner and
 * moving by a fixed slope (right dx, down dy) until below the last row, the
 * walk counts the trees it lands on; the answer multiplies the counts of
 * five slopes.
 */
module TobogganTrajectory {

  /** The five slopes (right, down) that are checked. */
  const PathsToCheck: seq<(int, int)> := [(1, 1), (3, 1), (5, 1), (7, 1), (1, 2)]

  /** A character the map may hold: open, tree, or a line break that is ignored. */
  predicate IsMapChar(ch: char)
  {
    ch == '.' || ch == '#' || ch == '\n'
  }

  /** Whether line `r` of the text has a tree in column `c`. */
  predicate IsTree(rawData: seq<string>, r: int, c: int)
  {
    0 <= r < |rawData| && 0 <= c < |rawData[r]| && rawData[r][c] == '#'
  }

  /** The text laid out on a rows x cols grid of booleans, true for a tree. */
  function GridOf(rawData: seq<string>, rows: nat, cols: nat): (g: seq<seq<bool>>)
    ensures |g| == rows && forall r :: 0 <= r < rows ==> |g[r]| == cols
    ensures forall r, c :: 0 <= r < rows && 0 <= c < cols ==> g[r][c] == IsTree(rawData, r, c)
  {
    seq(rows, r => seq(cols, c => IsTree(rawData, r, c)))
  }

  /** A grid whose rows all have `cols` cells, at least one. */
  predicate IsGrid(g: seq<seq<bool>>, cols: int)
  {
    cols >= 1 && forall r :: 0 <= r < |g| ==> |g[r]| == cols
  }

  /** The contents of a tree map, row by row. */
  ghost function Cells(treeMap: array2<bool>): (g: seq<seq<bool>>)
    reads treeMap
    ensures |g| == treeMap.Length0
    ensures forall r :: 0 <= r < |g| ==> |g[r]| == treeMap.Length1
    ensures forall r, c :: 0 <= r < treeMap.Length0 && 0 <= c < treeMap.Length1 ==> g[r][c] == treeMap[r, c]
  {
    seq(treeMap.Length0, r requires 0 <= r < treeMap.Length0 reads treeMap =>
      seq(treeMap.Length1, c requires 0 <= c < treeMap.Length1 reads treeMap => treeMap[r, c]))
  }

  /**
   * Trees met from the k-th move on: move k lands on row k*dy and, as the
   * map repeats to the right, on column (k*dx) mod cols.
   */
  function HitsFrom(g: seq<seq<bool>>, cols: int, dx: nat, dy: int, k: nat): nat
    requires IsGrid(g, cols) && dy >= 1
    decreases |g| - k
  {
    if k * dy >= |g| then 0
    else
      assert k <= k * dy;
      (if g[k * dy][(k * dx) % cols] then 1 else 0) + HitsFrom(g, cols, dx, dy, k + 1)
  }

  /** The trees met on one slope: every move k >= 1 that stays on the map. */
  function Hits(g: seq<seq<bool>>, cols: int, dx: nat, dy: int): nat
    requires IsGrid(g, cols) && dy >= 1
  {
    HitsFrom(g, cols, dx, dy, 1)
  }

  /**
   * The start square is never tested: two maps that differ only in the
   * top-left square give the same count on every slope.
   */
  lemma {:induction false} HitsIgnoreStart(g: seq<seq<bool>>, g': seq<seq<bool>>, cols: int, dx: nat, dy: int, k: nat)
    requires IsGrid(g, cols) && IsGrid(g', cols) && |g| == |g'| && dy >= 1 && k >= 1
    requires forall r, c :: 0 <= r < |g| && 0 <= c < cols && (r, c) != (0, 0) ==> g[r][c] == g'[r][c]
    ensures HitsFrom(g, cols, dx, dy, k) == HitsFrom(g', cols, dx, dy, k)
    decreases |g| - k
  {
    if k * dy < |g| {
      assert k <= k * dy;
      HitsIgnoreStart(g, g', cols, dx, dy, k + 1);
    }
  }

  /** A slope the walk can follow on a map `cols` wide. */
  predicate ValidSlope(slope: (int, int), cols: int)
  {
    0 <= slope.0 <= cols && slope.1 >= 1
  }

  /** The product of the tree counts of all slopes. */
  function ProductOfHits(g: seq<seq<bool>>, cols: int, slopes: seq<(int, int)>): int
    requires IsGrid(g, cols)
    requires forall i :: 0 <= i < |slopes| ==> ValidSlope(slopes[i], cols)
  {
    if slopes == [] then 1
    else
      var last := slopes[|slopes| - 1];
      assert ValidSlope(last, cols);
      ProductOfHits(g, cols, slopes[..|slopes| - 1]) * Hits(g, cols, last.0, last.1)
  }

  /** One more step of dx, wrapped by subtracting the width once, stays the product modulo the width. */
  lemma WrapStep(a: nat, dx: nat, cols: int)
    requires 1 <= cols && dx <= cols
    ensures var x := a % cols + dx;
            (if x + 1 > cols then x - cols else x) == (a + dx) % cols
  {
    var q := a / cols;
    var x := a % cols + dx;
    if x + 1 > cols {
      ModUnique(a + dx, cols, q + 1, x - cols);
    } else {
      ModUnique(a + dx, cols, q, x);
    }
  }

  /** Move k + 1 lands one slope further on: its row and its wrapped column follow from move k's. */
  lemma NextMove(k: nat, dx: nat, dy: int, cols: int)
    requires 1 <= cols && dx <= cols
    ensures (k + 1) * dy == k * dy + dy
    ensures var x := (k * dx) % cols + dx;
            (if x + 1 > cols then x - cols else x) == ((k + 1) * dx) % cols
  {
    WrapStep(k * dx, dx, cols);
    assert (k + 1) * dx == k * dx + dx;
  }

  /** Euclidean remainders are unique. */
  lemma ModUnique(v: int, n: int, q: int, r: int)
    requires 0 < n && 0 <= r < n && v == q * n + r
    ensures v % n == r
  {
    var q0, r0 := v / n, v % n;
    assert (q - q0) * n == r0 - r;
    if q > q0 {
      MulAtLeast(q - q0, n);
    } else if q < q0 {
      MulAtLeast(q0 - q, n);
    }
  }

  lemma MulAtLeast(a: int, n: int)
    requires 1 <= a && 0 < n
    ensures n <= a * n
  {
  }

  /**
   * The parse loop: every '.' and '#' of line `row`, column `col` is
   * stored in `treeMap[row][col]`; any other character except a line break
   * makes day03.go stop, which is `ok == false` here. Cells no line
   * reaches stay open, as in the zero-valued Go array.
   */
  method ParseTreeMap(rawData: seq<string>, rowsOfTrees: nat, colsOfTrees: nat) returns (treeMap: array2<bool>, ok: bool)
    requires forall r :: 0 <= r < |rawData| ==> |rawData[r]| <= colsOfTrees && (rawData[r] != "" ==> r < rowsOfTrees)
    ensures fresh(treeMap) && treeMap.Length0 == rowsOfTrees && treeMap.Length1 == colsOfTrees
    ensures ok == forall r, c :: 0 <= r < |rawData| && 0 <= c < |rawData[r]| ==> IsMapChar(rawData[r][c])
    ensures ok ==> forall r, c :: 0 <= r < rowsOfTrees && 0 <= c < colsOfTrees ==> treeMap[r, c] == IsTree(rawData, r, c)
  {
    treeMap := new bool[rowsOfTrees, colsOfTrees]((_, _) => false);
    for row := 0 to |rawData|
      invariant forall r, c :: 0 <= r < row && 0 <= c < |rawData[r]| ==> IsMapChar(rawData[r][c])
      invariant forall r, c :: 0 <= r < rowsOfTrees && 0 <= c < colsOfTrees ==>
                  treeMap[r, c] == (r < row && IsTree(rawData, r, c))
    {
      var line := rawData[row];
      for col := 0 to |line|
        invariant forall c :: 0 <= c < col ==> IsMapChar(line[c])
        invariant forall r, c :: 0 <= r < rowsOfTrees && 0 <= c < colsOfTrees ==>
                    treeMap[r, c] == ((r < row || (r == row && c < col)) && IsTree(rawData, r, c))
      {
        var ch := line[col];
        if ch == '.' {
          treeMap[row, col] := false;
        } else if ch == '#' {
          treeMap[row, col] := true;
        } else if ch != '\n' {
          return treeMap, false;
        }
      }
    }
    ok := true;
  }

  /**
   * One slope of the walk: move by (dx, dy) before each test, so the start
   * cell is never counted; wrap the column by subtracting the width once;
   * stop as soon as the row is past the map, and only read the map before
   * that.
   */
  method CountTrees(treeMap: array2<bool>, addToX: int, addToY: int) returns (encounteredTrees: nat)
    requires 1 <= treeMap.Length1 && ValidSlope((addToX, addToY), treeMap.Length1)
    ensures encounteredTrees == Hits(Cells(treeMap), treeMap.Length1, addToX, addToY)
  {
    var rows, cols := treeMap.Length0, treeMap.Length1;
    ghost var g := Cells(treeMap);
    encounteredTrees := 0;
    var posX, posY := 0, 0;
    var stillInTheWoods := true;
    ghost var k: nat := 0;
    while stillInTheWoods
      invariant posY == k * addToY && 0 <= posX < cols && posX == (k * addToX) % cols
      invariant stillInTheWoods ==> posY < rows || k == 0
      invariant stillInTheWoods ==>
                  encounteredTrees + HitsFrom(g, cols, addToX, addToY, k + 1) == Hits(g, cols, addToX, addToY)
      invariant !stillInTheWoods ==> encounteredTrees == Hits(g, cols, addToX, addToY)
      decreases if stillInTheWoods then rows - posY + 1 else 0
    {
      NextMove(k, addToX, addToY, cols);
      posX := posX + addToX;
      posY := posY + addToY;
      k := k + 1;
      if posX + 1 > cols {
        posX := posX - cols;
      }
      if posY + 1 > rows {
        stillInTheWoods := false;
      } else {
        if treeMap[posY, posX] {
          encounteredTrees := encounteredTrees + 1;
        }
      }
    }
  }

  /** The answer loop: multiply the tree counts of the slopes together, starting from 1. */
  method SlopeProduct(treeMap: array2<bool>, pathsToCheck: seq<(int, int)>) returns (answer: int)
    requires 1 <= treeMap.Length1
    requires forall i :: 0 <= i < |pathsToCheck| ==> ValidSlope(pathsToCheck[i], treeMap.Length1)
    ensures answer == ProductOfHits(Cells(treeMap), treeMap.Length1, pathsToCheck)
  {
    answer := 1;
    for path := 0 to |pathsToCheck|
      invariant answer == ProductOfHits(Cells(treeMap), treeMap.Length1, pathsToCheck[..path])
    {
      var encounteredTrees := CountTrees(treeMap, pathsToCheck[path].0, pathsToCheck[path].1);
      assert pathsToCheck[..path + 1][..path] == pathsToCheck[..path];
      answer := answer * encounteredTrees;
    }
    assert pathsToCheck[..|pathsToCheck|] == pathsToCheck;
  }

  /**
   * The program as a whole: parse the lines into a rows x cols map, then
   * multiply the tree counts of the five slopes.
   */
  method TreeProduct(rawData: seq<string>, rowsOfTrees: nat, colsOfTrees: nat) returns (ok: bool, answer: int)
    requires colsOfTrees >= 7
    requires forall r :: 0 <= r < |rawData| ==> |rawData[r]| <= colsOfTrees && (rawData[r] != "" ==> r < rowsOfTrees)
    ensures ok == forall r, c :: 0 <= r < |rawData| && 0 <= c < |rawData[r]| ==> IsMapChar(rawData[r][c])
    ensures ok ==> answer == ProductOfHits(GridOf(rawData, rowsOfTrees, colsOfTrees), colsOfTrees, PathsToCheck)
  {
    var treeMap;
    treeMap, ok := ParseTreeMap(rawData, rowsOfTrees, colsOfTrees);
    if !ok {
      return false, 0;
    }
    forall r | 0 <= r < rowsOfTrees
      ensures Cells(treeMap)[r] == GridOf(rawData, rowsOfTrees, colsOfTrees)[r]
    {
    }
    assert Cells(treeMap) == GridOf(rawData, rowsOfTrees, colsOfTrees);
    answer := SlopeProduct(treeMap, PathsToCheck);
  }

  /** The map of the documented example, eleven lines of eleven squares. */
  const SampleMap: seq<string> := [
    "..##.......",
    "#...#...#..",
    ".#....#..#.",
    "..#.#...#.#",
    ".#...##..#.",
    "..#.##.....",
    ".#.#.#....#",
    ".#........#",
    "#.##...#...",
    "#...##....#",
    ".#..#...#.#"
  ]

  /** On the documented map the five slopes meet 2, 7, 3, 4 and 2 trees; their product is 336. */
  lemma DocumentedSample()
    ensures ProductOfHits(GridOf(SampleMap, 11, 11), 11, PathsToCheck) == 336
  {
    var g := GridOf(SampleMap, 11, 11);
    SampleSlope11();
    SampleSlope31();
    SampleSlope51();
    SampleSlope71();
    SampleSlope12();
    assert ProductOfHits(g, 11, PathsToCheck[..1]) == 2 by {
      assert PathsToCheck[..1][..0] == [];
    }
    assert ProductOfHits(g, 11, PathsToCheck[..2]) == 14 by {
      assert PathsToCheck[..2][..1] == PathsToCheck[..1];
    }
    assert ProductOfHits(g, 11, PathsToCheck[..3]) == 42 by {
      assert PathsToCheck[..3][..2] == PathsToCheck[..2];
    }
    assert ProductOfHits(g, 11, PathsToCheck[..4]) == 168 by {
      assert PathsToCheck[..4][..3] == PathsToCheck[..3];
    }
  }

  /** One move of the walk on a map `cols` wide: the move's cell, then the moves after it. */
  lemma HitsStep(g: seq<seq<bool>>, cols: int, dx: nat, dy: int, k: nat, r: int, c: int, rest: nat)
    requires IsGrid(g, cols) && dy >= 1 && 0 <= r < |g| && r == k * dy && c == (k * dx) % cols
    requires HitsFrom(g, cols, dx, dy, k + 1) == rest
    ensures HitsFrom(g, cols, dx, dy, k) == rest + if g[r][c] then 1 else 0
  {
  }

  /** Slope right 1, down 1 on the documented map meets 2 trees (counted from the last move back). */
  lemma SampleSlope11()
    ensures Hits(GridOf(SampleMap, 11, 11), 11, 1, 1) == 2
  {
    var g := GridOf(SampleMap, 11, 11);
    SampleSlope11From4();
    assert !g[3][3] && !g[2][2] && !g[1][1];
    HitsStep(g, 11, 1, 1, 3, 3, 3, 2);
    HitsStep(g, 11, 1, 1, 2, 2, 2, 2);
    HitsStep(g, 11, 1, 1, 1, 1, 1, 2);
  }

  /** The moves of slope right 1, down 1 from move 4 on meet 2 of those trees. */
  lemma SampleSlope11From4()
    ensures HitsFrom(GridOf(SampleMap, 11, 11), 11, 1, 1, 4) == 2
  {
    var g := GridOf(SampleMap, 11, 11);
    SampleSlope11From8();
    assert !g[7][7] && !g[6][6] && g[5][5] && !g[4][4];
    HitsStep(g, 11, 1, 1, 7, 7, 7, 1);
    HitsStep(g, 11, 1, 1, 6, 6, 6, 1);
    HitsStep(g, 11, 1, 1, 5, 5, 5, 1);
    HitsStep(g, 11, 1, 1, 4, 4, 4, 2);
  }

  /** The moves of slope right 1, down 1 from move 8 on meet 1 of those tree. */
  lemma SampleSlope11From8()
    ensures HitsFrom(GridOf(SampleMap, 11, 11), 11, 1, 1, 8) == 1
  {
    var g := GridOf(SampleMap, 11, 11);
    assert HitsFrom(g, 11, 1, 1, 11) == 0;
    assert g[10][10] && !g[9][9] && !g[8][8];
    HitsStep(g, 11, 1, 1, 10, 10, 10, 0);
    HitsStep(g, 11, 1, 1, 9, 9, 9, 1);
    HitsStep(g, 11, 1, 1, 8, 8, 8, 1);
  }

  /** Slope right 3, down 1 on the documented map meets 7 trees (counted from the last move back). */
  lemma SampleSlope31()
    ensures Hits(GridOf(SampleMap, 11, 11), 11, 3, 1) == 7
  {
    var g := GridOf(SampleMap, 11, 11);
    SampleSlope31From4();
    assert !g[3][9] && g[2][6] && !g[1][3];
    HitsStep(g, 11, 3, 1, 3, 3, 9, 6);
    HitsStep(g, 11, 3, 1, 2, 2, 6, 6);
    HitsStep(g, 11, 3, 1, 1, 1, 3, 7);
  }

  /** The moves of slope right 3, down 1 from move 4 on meet 6 of those trees. */
  lemma SampleSlope31From4()
    ensures HitsFrom(GridOf(SampleMap, 11, 11), 11, 3, 1, 4) == 6
  {
    var g := GridOf(SampleMap, 11, 11);
    SampleSlope31From8();
    assert g[7][10] && !g[6][7] && g[5][4] && g[4][1];
    HitsStep(g, 11, 3, 1, 7, 7, 10, 3);
    HitsStep(g, 11, 3, 1, 6, 6, 7, 4);
    HitsStep(g, 11, 3, 1, 5, 5, 4, 4);
    HitsStep(g, 11, 3, 1, 4, 4, 1, 5);
  }

  /** The moves of slope right 3, down 1 from move 8 on meet 3 of those trees. */
  lemma SampleSlope31From8()
    ensures HitsFrom(GridOf(SampleMap, 11, 11), 11, 3, 1, 8) == 3
  {
    var g := GridOf(SampleMap, 11, 11);
    assert HitsFrom(g, 11, 3, 1, 11) == 0;
    assert g[10][8] && g[9][5] && g[8][2];
    HitsStep(g, 11, 3, 1, 10, 10, 8, 0);
    HitsStep(g, 11, 3, 1, 9, 9, 5, 1);
    HitsStep(g, 11, 3, 1, 8, 8, 2, 2);
  }

  /** Slope right 5, down 1 on the documented map meets 3 trees (counted from the last move back). */
  lemma SampleSlope51()
    ensures Hits(GridOf(SampleMap, 11, 11), 11, 5, 1) == 3
  {
    var g := GridOf(SampleMap, 11, 11);
    SampleSlope51From4();
    assert g[3][4] && !g[2][10] && !g[1][5];
    HitsStep(g, 11, 5, 1, 3, 3, 4, 2);
    HitsStep(g, 11, 5, 1, 2, 2, 10, 3);
    HitsStep(g, 11, 5, 1, 1, 1, 5, 3);
  }

  /** The moves of slope right 5, down 1 from move 4 on meet 2 of those trees. */
  lemma SampleSlope51From4()
    ensures HitsFrom(GridOf(SampleMap, 11, 11), 11, 5, 1, 4) == 2
  {
    var g := GridOf(SampleMap, 11, 11);
    SampleSlope51From8();
    assert !g[7][2] && !g[6][8] && !g[5][3] && g[4][9];
    HitsStep(g, 11, 5, 1, 7, 7, 2, 1);
    HitsStep(g, 11, 5, 1, 6, 6, 8, 1);
    HitsStep(g, 11, 5, 1, 5, 5, 3, 1);
    HitsStep(g, 11, 5, 1, 4, 4, 9, 1);
  }

  /** The moves of slope right 5, down 1 from move 8 on meet 1 of those tree. */
  lemma SampleSlope51From8()
    ensures HitsFrom(GridOf(SampleMap, 11, 11), 11, 5, 1, 8) == 1
  {
    var g := GridOf(SampleMap, 11, 11);
    assert HitsFrom(g, 11, 5, 1, 11) == 0;
    assert !g[10][6] && !g[9][1] && g[8][7];
    HitsStep(g, 11, 5, 1, 10, 10, 6, 0);
    HitsStep(g, 11, 5, 1, 9, 9, 1, 0);
    HitsStep(g, 11, 5, 1, 8, 8, 7, 0);
  }

  /** Slope right 7, down 1 on the documented map meets 4 trees (counted from the last move back). */
  lemma SampleSlope71()
    ensures Hits(GridOf(SampleMap, 11, 11), 11, 7, 1) == 4
  {
    var g := GridOf(SampleMap, 11, 11);
    SampleSlope71From4();
    assert g[3][10] && !g[2][3] && !g[1][7];
    HitsStep(g, 11, 7, 1, 3, 3, 10, 3);
    HitsStep(g, 11, 7, 1, 2, 2, 3, 4);
    HitsStep(g, 11, 7, 1, 1, 1, 7, 4);
  }

  /** The moves of slope right 7, down 1 from move 4 on meet 3 of those trees. */
  lemma SampleSlope71From4()
    ensures HitsFrom(GridOf(SampleMap, 11, 11), 11, 7, 1, 4) == 3
  {
    var g := GridOf(SampleMap, 11, 11);
    SampleSlope71From8();
    assert !g[7][5] && !g[6][9] && g[5][2] && g[4][6];
    HitsStep(g, 11, 7, 1, 7, 7, 5, 1);
    HitsStep(g, 11, 7, 1, 6, 6, 9, 1);
    HitsStep(g, 11, 7, 1, 5, 5, 2, 1);
    HitsStep(g, 11, 7, 1, 4, 4, 6, 2);
  }

  /** The moves of slope right 7, down 1 from move 8 on meet 1 of those tree. */
  lemma SampleSlope71From8()
    ensures HitsFrom(GridOf(SampleMap, 11, 11), 11, 7, 1, 8) == 1
  {
    var g := GridOf(SampleMap, 11, 11);
    assert HitsFrom(g, 11, 7, 1, 11) == 0;
    assert g[10][4] && !g[9][8] && !g[8][1];
    HitsStep(g, 11, 7, 1, 10, 10, 4, 0);
    HitsStep(g, 11, 7, 1, 9, 9, 8, 1);
    HitsStep(g, 11, 7, 1, 8, 8, 1, 1);
  }

  /** Slope right 1, down 2 on the documented map meets 2 trees (counted from the last move back). */
  lemma SampleSlope12()
    ensures Hits(GridOf(SampleMap, 11, 11), 11, 1, 2) == 2
  {
    var g := GridOf(SampleMap, 11, 11);
    SampleSlope12From3();
    assert !g[4][2] && g[2][1];
    HitsStep(g, 11, 1, 2, 2, 4, 2, 1);
    HitsStep(g, 11, 1, 2, 1, 2, 1, 1);
  }

  /** The moves of slope right 1, down 2 from move 3 on meet 1 of those tree. */
  lemma SampleSlope12From3()
    ensures HitsFrom(GridOf(SampleMap, 11, 11), 11, 1, 2, 3) == 1
  {
    var g := GridOf(SampleMap, 11, 11);
    assert HitsFrom(g, 11, 1, 2, 6) == 0;
    assert !g[10][5] && !g[8][4] && g[6][3];
    HitsStep(g, 11, 1, 2, 5, 10, 5, 0);
    HitsStep(g, 11, 1, 2, 4, 8, 4, 0);
    HitsStep(g, 11, 1, 2, 3, 6, 3, 0);
  }
}
