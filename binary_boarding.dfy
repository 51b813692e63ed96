/**
 * Binary boarding (day05/day05.go): a seat locator such as "FBFBBFFRLR"
 * names one of 128 rows with its F/B letters and one of 8 columns with its
 * L/R letters, each by repeatedly keeping the lower or the upper half of a
 * range. Decoded seats are marked on a 128 x 8 occupancy grid, which is then
 * scanned for the highest seat id and for the one free seat between two
 * occupied ones.
 */
module BinaryBoarding {

  /** The dimensions of the seat grid (`gridSpec`). */
  datatype GridSpec = GridSpec(rows: int, cols: int)

  /** A decoded boarding pass (`seat`). */
  datatype Seat = Seat(locationCode: string, row: int, col: int, id: int)

  /** The zero value of a Go `seat`: what every unused slot of the list holds. */
  const EmptySeat := Seat("", 0, 0, 0)

  /** The aircraft: 128 rows of 8 seats. */
  const Plane := GridSpec(128, 8)

  /** Capacity of the list of boarding passes. */
  const SeatListSize := 1000

  /**
   * The outcome of the search for the free seat: its id, none (day05.go's
   * -1), or a fault: day05.go reads the left neighbour of column 0, which
   * is outside the row and stops a Go program.
   */
  datatype SeatSearch = MySeat(id: int) | NoSeat | LeftNeighbourOutOfRange(row: int)

  /** Go's `/ 2` on int, which truncates toward zero. */
  function GoHalf(w: int): (h: int)
    ensures w >= 0 ==> 0 <= h && 2 * h <= w <= 2 * h + 1
    ensures w < 0 ==> h <= 0 && 2 * h - 1 <= w <= 2 * h
  {
    if w >= 0 then w / 2 else -((-w) / 2)
  }

  function Pow2(k: nat): (p: nat)
    ensures p >= 1
  {
    if k == 0 then 1 else 2 * Pow2(k - 1)
  }

  /**
   * The number a string of letters spells in binary, most significant letter
   * first, where the letters in `ones` stand for the digit 1 and any other
   * letter for 0.
   */
  function BinaryValue(s: string, ones: set<char>): (v: nat)
    ensures v < Pow2(|s|)
  {
    if s == [] then 0
    else (if s[0] in ones then Pow2(|s| - 1) else 0) + BinaryValue(s[1..], ones)
  }

  /** How many letters of `s` are `lowLetter` or `highLetter`. */
  function LetterCount(s: string, lowLetter: char, highLetter: char): (n: nat)
    ensures n <= |s|
  {
    if s == [] then 0
    else (if s[0] == lowLetter || s[0] == highLetter then 1 else 0)
         + LetterCount(s[1..], lowLetter, highLetter)
  }

  /**
   * What `findRowOrCol` computes once it holds the bounds `lo..hi` and has
   * `s` left to read: each `lowLetter` keeps the lower half, each
   * `highLetter` the upper half, any other letter is skipped; as soon as the
   * half is a single value that value is the answer, and running out of
   * letters before that gives -1.
   */
  function Partition(s: string, lo: int, hi: int, lowLetter: char, highLetter: char): int
    decreases |s|
  {
    if s == [] then -1
    else
      var diff := GoHalf(hi - lo + 1);
      if s[0] == lowLetter then
        if diff == 1 then lo else Partition(s[1..], lo, lo + diff - 1, lowLetter, highLetter)
      else if s[0] == highLetter then
        if diff == 1 then hi else Partition(s[1..], hi - diff + 1, hi, lowLetter, highLetter)
      else
        Partition(s[1..], lo, hi, lowLetter, highLetter)
  }

  /** While at least two values remain, the answer is -1 or one of them. */
  lemma {:induction false} PartitionWithinBounds(s: string, lo: int, hi: int, lowLetter: char, highLetter: char)
    requires lo < hi
    ensures var r := Partition(s, lo, hi, lowLetter, highLetter); r == -1 || lo <= r <= hi
    decreases |s|
  {
    if s != [] {
      var diff := GoHalf(hi - lo + 1);
      if s[0] == lowLetter {
        if diff != 1 {
          PartitionWithinBounds(s[1..], lo, lo + diff - 1, lowLetter, highLetter);
        }
      } else if s[0] == highLetter {
        if diff != 1 {
          PartitionWithinBounds(s[1..], hi - diff + 1, hi, lowLetter, highLetter);
        }
      } else {
        PartitionWithinBounds(s[1..], lo, hi, lowLetter, highLetter);
      }
    }
  }

  /** Letters that are neither `lowLetter` nor `highLetter` leave the bounds alone. */
  lemma {:induction false} PartitionSkipsOtherLetters(p: string, q: string, lo: int, hi: int, lowLetter: char, highLetter: char)
    requires forall i :: 0 <= i < |p| ==> p[i] != lowLetter && p[i] != highLetter
    ensures Partition(p + q, lo, hi, lowLetter, highLetter) == Partition(q, lo, hi, lowLetter, highLetter)
    decreases |p|
  {
    if p == [] {
      assert p + q == q;
    } else {
      assert (p + q)[0] == p[0];
      assert (p + q)[1..] == p[1..] + q;
      assert Partition(p + q, lo, hi, lowLetter, highLetter) == Partition(p[1..] + q, lo, hi, lowLetter, highLetter);
      PartitionSkipsOtherLetters(p[1..], q, lo, hi, lowLetter, highLetter);
    }
  }

  /**
   * On a range of 2^k values, k letters each naming a half single out the
   * value that those letters spell in binary: the width halves on every
   * letter and the last one picks one of two neighbours.
   */
  lemma {:induction false} PartitionDecodesBinary(s: string, lo: int, k: nat, lowLetter: char, highLetter: char)
    requires 1 <= k <= |s| && lowLetter != highLetter
    requires forall i :: 0 <= i < k ==> s[i] == lowLetter || s[i] == highLetter
    ensures Partition(s, lo, lo + Pow2(k) - 1, lowLetter, highLetter) == lo + BinaryValue(s[..k], {highLetter})
    decreases k
  {
    if k == 1 {
      PartitionLastLetter(s, lo, lowLetter, highLetter);
    } else {
      var lo' := if s[0] == lowLetter then lo else lo + Pow2(k - 1);
      PartitionHalves(s, lo, k, lowLetter, highLetter);
      PartitionDecodesBinary(s[1..], lo', k - 1, lowLetter, highLetter);
    }
  }

  /** On two values, one letter naming a half picks the lower or the upper one. */
  lemma PartitionLastLetter(s: string, lo: int, lowLetter: char, highLetter: char)
    requires 1 <= |s| && lowLetter != highLetter
    requires s[0] == lowLetter || s[0] == highLetter
    ensures Partition(s, lo, lo + Pow2(1) - 1, lowLetter, highLetter) == lo + BinaryValue(s[..1], {highLetter})
  {
    assert GoHalf(2) == 1 && Pow2(1) == 2;
    assert s[..1][0] == s[0] && s[..1][1..] == [];
  }

  /** On 2^k values with k >= 2, a letter naming a half leaves the 2^(k-1) values of that half. */
  lemma PartitionHalves(s: string, lo: int, k: nat, lowLetter: char, highLetter: char)
    requires 2 <= k <= |s| && lowLetter != highLetter
    requires s[0] == lowLetter || s[0] == highLetter
    ensures var lo' := if s[0] == lowLetter then lo else lo + Pow2(k - 1);
            Partition(s, lo, lo + Pow2(k) - 1, lowLetter, highLetter)
            == Partition(s[1..], lo', lo' + Pow2(k - 1) - 1, lowLetter, highLetter)
    ensures BinaryValue(s[..k], {highLetter})
            == (if s[0] == highLetter then Pow2(k - 1) else 0) + BinaryValue(s[1..][..k - 1], {highLetter})
  {
    assert Pow2(k - 1) == 2 * Pow2(k - 2);
    assert GoHalf(Pow2(k)) == Pow2(k - 1);
    assert s[..k][0] == s[0] && s[..k][1..] == s[1..][..k - 1];
  }

  /**
   * On a range of 2^k values, fewer than k recognised letters never narrow it
   * to two neighbours, so the answer is -1.
   */
  lemma {:induction false} PartitionTooFewLetters(s: string, lo: int, k: nat, lowLetter: char, highLetter: char)
    requires LetterCount(s, lowLetter, highLetter) < k
    ensures Partition(s, lo, lo + Pow2(k) - 1, lowLetter, highLetter) == -1
    decreases |s|
  {
    if s != [] {
      var hi := lo + Pow2(k) - 1;
      if s[0] == lowLetter || s[0] == highLetter {
        assert k >= 2;
        assert Pow2(k) == 2 * Pow2(k - 1) && Pow2(k - 1) == 2 * Pow2(k - 2);
        assert GoHalf(hi - lo + 1) == Pow2(k - 1);
        var lo' := if s[0] == lowLetter then lo else lo + Pow2(k - 1);
        PartitionTooFewLetters(s[1..], lo', k - 1, lowLetter, highLetter);
      } else {
        PartitionTooFewLetters(s[1..], lo, k, lowLetter, highLetter);
      }
    }
  }

  /** A boarding pass: seven F/B letters, then three L/R letters. */
  predicate IsLocator(s: string)
  {
    && |s| >= 10
    && (forall i :: 0 <= i < 7 ==> s[i] == 'F' || s[i] == 'B')
    && (forall i :: 7 <= i < 10 ==> s[i] == 'L' || s[i] == 'R')
  }

  /**
   * `findRowOrCol`: halve `0..highBound-1` once per recognised letter and
   * return the value singled out, or -1 if the letters run out first.
   */
  method FindRowOrCol(seatLocator: string, highBound: int, lowLetter: char, highLetter: char) returns (r: int)
    ensures r == Partition(seatLocator, 0, highBound - 1, lowLetter, highLetter)
    ensures highBound >= 2 ==> -1 <= r < highBound
  {
    var lowBound, hiBound := 0, highBound - 1;
    var i := 0;
    while i < |seatLocator|
      invariant 0 <= i <= |seatLocator|
      invariant Partition(seatLocator[i..], lowBound, hiBound, lowLetter, highLetter)
                == Partition(seatLocator, 0, highBound - 1, lowLetter, highLetter)
      invariant highBound >= 2 ==> 0 <= lowBound < hiBound <= highBound - 1
    {
      var c := seatLocator[i];
      assert seatLocator[i..][0] == c && seatLocator[i..][1..] == seatLocator[i + 1..];
      var diff := GoHalf(hiBound - lowBound + 1);
      if c == lowLetter {
        if diff == 1 {
          return lowBound;
        }
        hiBound := lowBound + diff - 1;
      } else if c == highLetter {
        if diff == 1 {
          return hiBound;
        }
        lowBound := hiBound - diff + 1;
      }
      i := i + 1;
    }
    return -1;
  }

  /** The row a locator names on `grid`. */
  function LocatorRow(seatLocator: string, grid: GridSpec): int
  {
    Partition(seatLocator, 0, grid.rows - 1, 'F', 'B')
  }

  /** The column a locator names on `grid`. */
  function LocatorCol(seatLocator: string, grid: GridSpec): int
  {
    Partition(seatLocator, 0, grid.cols - 1, 'L', 'R')
  }

  /** The seat id of a locator on the plane. */
  function LocatorSeatId(seatLocator: string): int
  {
    CalculateSeatId(LocatorRow(seatLocator, Plane), LocatorCol(seatLocator, Plane))
  }

  /** `findRow`: the row named by the F/B letters. */
  method FindRow(seatLocator: string, grid: GridSpec) returns (row: int)
    ensures row == LocatorRow(seatLocator, grid)
    ensures grid.rows == 128 && IsLocator(seatLocator) ==>
              row == BinaryValue(seatLocator[..7], {'B'}) && 0 <= row < 128
  {
    row := FindRowOrCol(seatLocator, grid.rows, 'F', 'B');
    if grid.rows == 128 && IsLocator(seatLocator) {
      assert Pow2(7) == 128;
      PartitionDecodesBinary(seatLocator, 0, 7, 'F', 'B');
    }
  }

  /** `findCol`: the column named by the L/R letters; the F/B prefix is skipped. */
  method FindCol(seatLocator: string, grid: GridSpec) returns (col: int)
    ensures col == LocatorCol(seatLocator, grid)
    ensures grid.cols == 8 && IsLocator(seatLocator) ==>
              col == BinaryValue(seatLocator[7..10], {'R'}) && 0 <= col < 8
  {
    col := FindRowOrCol(seatLocator, grid.cols, 'L', 'R');
    if grid.cols == 8 && IsLocator(seatLocator) {
      ColumnDecodes(seatLocator);
    }
  }

  lemma ColumnDecodes(s: string)
    requires IsLocator(s)
    ensures Partition(s, 0, 7, 'L', 'R') == BinaryValue(s[7..10], {'R'})
  {
    assert s == s[..7] + s[7..];
    PartitionSkipsOtherLetters(s[..7], s[7..], 0, 7, 'L', 'R');
    assert Pow2(3) == 8;
    PartitionDecodesBinary(s[7..], 0, 3, 'L', 'R');
    assert s[7..][..3] == s[7..10];
  }

  /** `findSeatLocation`: the row and the column of a locator. */
  method FindSeatLocation(seatLocator: string, grid: GridSpec) returns (row: int, col: int)
    ensures row == LocatorRow(seatLocator, grid) && col == LocatorCol(seatLocator, grid)
    ensures grid == Plane && IsLocator(seatLocator) ==>
              0 <= row < 128 && 0 <= col < 8 &&
              CalculateSeatId(row, col) == BinaryValue(seatLocator[..10], {'B', 'R'})
  {
    row := FindRow(seatLocator, grid);
    col := FindCol(seatLocator, grid);
    if grid == Plane && IsLocator(seatLocator) {
      SeatIdIsBinaryNumber(seatLocator);
    }
  }

  /** `calculateSeatId`: row times eight plus column, so a column below 8 can be read back. */
  function CalculateSeatId(row: int, col: int): (id: int)
    ensures 0 <= col < 8 ==> id / 8 == row && id % 8 == col
  {
    row * 8 + col
  }

  /** Appending letters shifts the value left by their number. */
  lemma {:induction false} BinaryValueAppend(p: string, q: string, ones: set<char>)
    ensures BinaryValue(p + q, ones) == BinaryValue(p, ones) * Pow2(|q|) + BinaryValue(q, ones)
    decreases |p|
  {
    if p == [] {
      assert p + q == q;
    } else {
      assert (p + q)[0] == p[0] && (p + q)[1..] == p[1..] + q;
      var top := if p[0] in ones then Pow2(|p| - 1) else 0;
      BinaryValueAppend(p[1..], q, ones);
      Pow2Add(|p| - 1, |q|);
      calc {
        BinaryValue(p + q, ones);
        (if p[0] in ones then Pow2(|p| + |q| - 1) else 0) + BinaryValue(p[1..] + q, ones);
        top * Pow2(|q|) + BinaryValue(p[1..], ones) * Pow2(|q|) + BinaryValue(q, ones);
        { MulDistributes(top, BinaryValue(p[1..], ones), Pow2(|q|)); }
        (top + BinaryValue(p[1..], ones)) * Pow2(|q|) + BinaryValue(q, ones);
      }
    }
  }

  lemma MulDistributes(a: int, b: int, c: int)
    ensures a * c + b * c == (a + b) * c
  {
  }

  lemma {:induction false} Pow2Add(a: nat, b: nat)
    ensures Pow2(a) * Pow2(b) == Pow2(a + b)
    decreases a
  {
    if a > 0 {
      Pow2Add(a - 1, b);
    }
  }

  /** The value depends only on which letters are ones. */
  lemma {:induction false} BinaryValueSameOnes(s: string, ones: set<char>, ones': set<char>)
    requires forall i :: 0 <= i < |s| ==> (s[i] in ones <==> s[i] in ones')
    ensures BinaryValue(s, ones) == BinaryValue(s, ones')
    decreases |s|
  {
    if s != [] {
      BinaryValueSameOnes(s[1..], ones, ones');
    }
  }

  /**
   * The seat id of a boarding pass is the pass itself read as a ten-digit
   * binary number with B and R as ones, so it lies in 0..1023.
   */
  lemma SeatIdIsBinaryNumber(s: string)
    requires IsLocator(s)
    ensures LocatorSeatId(s) == BinaryValue(s[..10], {'B', 'R'}) < 1024
  {
    assert Pow2(7) == 128 && Pow2(3) == 8 && Pow2(10) == 1024;
    PartitionDecodesBinary(s, 0, 7, 'F', 'B');
    ColumnDecodes(s);
    assert s[..10] == s[..7] + s[7..10];
    BinaryValueAppend(s[..7], s[7..10], {'B', 'R'});
    BinaryValueSameOnes(s[..7], {'B'}, {'B', 'R'});
    BinaryValueSameOnes(s[7..10], {'R'}, {'B', 'R'});
  }

  /** The boarding passes worked through in the puzzle text. */
  const DocumentedPasses: seq<string> := ["FBFBBFFRLR", "BFFFBBFRRR", "FFFBBBFRRR", "BBFFBBFRLL"]

  /** 1 when the letter is `one`, else 0: one binary digit of a locator. */
  function Digit(c: char, one: char): nat
  {
    if c == one then 1 else 0
  }

  lemma BinaryValueSeven(s: string, one: char)
    requires |s| == 7
    ensures BinaryValue(s, {one}) == 64 * Digit(s[0], one) + 32 * Digit(s[1], one) + 16 * Digit(s[2], one)
                                     + 8 * Digit(s[3], one) + 4 * Digit(s[4], one) + 2 * Digit(s[5], one) + Digit(s[6], one)
  {
    assert s == s[..4] + s[4..];
    BinaryValueAppend(s[..4], s[4..], {one});
    assert Pow2(3) == 8;
    BinaryValueThree(s[4..], one);
    BinaryValueFour(s[..4], one);
  }

  lemma BinaryValueFour(s: string, one: char)
    requires |s| == 4
    ensures BinaryValue(s, {one}) == 8 * Digit(s[0], one) + 4 * Digit(s[1], one) + 2 * Digit(s[2], one) + Digit(s[3], one)
  {
    assert Pow2(3) == 8;
    BinaryValueThree(s[1..], one);
  }

  lemma BinaryValueThree(s: string, one: char)
    requires |s| == 3
    ensures BinaryValue(s, {one}) == 4 * Digit(s[0], one) + 2 * Digit(s[1], one) + Digit(s[2], one)
  {
    assert Pow2(2) == 4 && Pow2(1) == 2;
    assert BinaryValue(s[2..], {one}) == Digit(s[2], one) by {
      assert s[2..][1..] == [];
    }
    assert BinaryValue(s[1..], {one}) == 2 * Digit(s[1], one) + BinaryValue(s[2..], {one}) by {
      assert s[1..][1..] == s[2..];
    }
  }

  /** A locator decodes to the row and column its letters spell, digit by digit. */
  lemma DocumentedPass(s: string, row: int, col: int)
    requires IsLocator(s)
    requires row == 64 * Digit(s[0], 'B') + 32 * Digit(s[1], 'B') + 16 * Digit(s[2], 'B')
                    + 8 * Digit(s[3], 'B') + 4 * Digit(s[4], 'B') + 2 * Digit(s[5], 'B') + Digit(s[6], 'B')
    requires col == 4 * Digit(s[7], 'R') + 2 * Digit(s[8], 'R') + Digit(s[9], 'R')
    ensures LocatorRow(s, Plane) == row && LocatorCol(s, Plane) == col
    ensures LocatorSeatId(s) == row * 8 + col
  {
    PassDecodes(s);
    BinaryValueSeven(s[..7], 'B');
    BinaryValueThree(s[7..10], 'R');
  }

  /** The documented boarding pass FBFBBFFRLR: row 44, column 5, seat id 357. */
  lemma DocumentedSeat357()
    ensures LocatorRow(DocumentedPasses[0], Plane) == 44 && LocatorCol(DocumentedPasses[0], Plane) == 5
    ensures LocatorSeatId(DocumentedPasses[0]) == 357
  {
    DocumentedPass(DocumentedPasses[0], 44, 5);
  }

  /** The documented boarding pass BFFFBBFRRR: row 70, column 7, seat id 567. */
  lemma DocumentedSeat567()
    ensures LocatorRow(DocumentedPasses[1], Plane) == 70 && LocatorCol(DocumentedPasses[1], Plane) == 7
    ensures LocatorSeatId(DocumentedPasses[1]) == 567
  {
    DocumentedPass(DocumentedPasses[1], 70, 7);
  }

  /** The documented boarding pass FFFBBBFRRR: row 14, column 7, seat id 119. */
  lemma DocumentedSeat119()
    ensures LocatorRow(DocumentedPasses[2], Plane) == 14 && LocatorCol(DocumentedPasses[2], Plane) == 7
    ensures LocatorSeatId(DocumentedPasses[2]) == 119
  {
    DocumentedPass(DocumentedPasses[2], 14, 7);
  }

  /** The documented boarding pass BBFFBBFRLL: row 102, column 4, seat id 820. */
  lemma DocumentedSeat820()
    ensures LocatorRow(DocumentedPasses[3], Plane) == 102 && LocatorCol(DocumentedPasses[3], Plane) == 4
    ensures LocatorSeatId(DocumentedPasses[3]) == 820
  {
    DocumentedPass(DocumentedPasses[3], 102, 4);
  }

  /** Row and column of a boarding pass are its two binary numbers. */
  lemma PassDecodes(s: string)
    requires IsLocator(s)
    ensures LocatorRow(s, Plane) == BinaryValue(s[..7], {'B'})
    ensures LocatorCol(s, Plane) == BinaryValue(s[7..10], {'R'})
  {
    assert Pow2(7) == 128;
    PartitionDecodesBinary(s, 0, 7, 'F', 'B');
    ColumnDecodes(s);
  }

  predicate InGrid(seatMap: array2<bool>, row: int, col: int)
  {
    0 <= row < seatMap.Length0 && 0 <= col < seatMap.Length1
  }

  /**
   * `processSeat`: an empty line changes nothing; otherwise the pass is
   * decoded, its seat marked occupied and the seat stored in slot
   * `entryNumber` of the list (the slot day05.go hands over by pointer).
   * A locator that decodes outside the grid makes day05.go index out of
   * range and stop before any observable change; here `ok` is false and
   * nothing changes.
   */
  method ProcessSeat(entryNumber: int, seatLocator: string, seatList: array<Seat>, grid: GridSpec, seatMap: array2<bool>)
    returns (ok: bool)
    requires 0 <= entryNumber < seatList.Length
    modifies seatList, seatMap
    ensures ok == (seatLocator == "" || InGrid(seatMap, LocatorRow(seatLocator, grid), LocatorCol(seatLocator, grid)))
    ensures seatLocator == "" || !ok ==> unchanged(seatList) && unchanged(seatMap)
    ensures seatLocator != "" && ok ==>
              var row, col := LocatorRow(seatLocator, grid), LocatorCol(seatLocator, grid);
              && seatList[..] == old(seatList[..])[entryNumber := Seat(seatLocator, row, col, CalculateSeatId(row, col))]
              && seatMap[row, col]
              && forall r, c :: InGrid(seatMap, r, c) && (r != row || c != col) ==> seatMap[r, c] == old(seatMap[r, c])
  {
    if seatLocator == "" {
      return true;
    }
    var row, col := FindSeatLocation(seatLocator, grid);
    if !InGrid(seatMap, row, col) {
      return false;
    }
    seatMap[row, col] := true;
    seatList[entryNumber] := Seat(seatLocator, row, col, CalculateSeatId(row, col));
    return true;
  }

  /** `findHighestSeatId`: the largest id on the list, and 0 if none is larger. */
  method FindHighestSeatId(seatList: array<Seat>) returns (highest: int)
    ensures highest >= 0
    ensures forall i :: 0 <= i < seatList.Length ==> seatList[i].id <= highest
    ensures highest == 0 || exists i :: 0 <= i < seatList.Length && seatList[i].id == highest
  {
    highest := 0;
    for i := 0 to seatList.Length
      invariant highest >= 0
      invariant forall j :: 0 <= j < i ==> seatList[j].id <= highest
      invariant highest == 0 || exists j :: 0 <= j < i && seatList[j].id == highest
    {
      if seatList[i].id > highest {
        highest := seatList[i].id;
      }
    }
  }

  /**
   * Where the scan of `findMySeatId` stops: a seat that is not in the last
   * column, is empty and has an occupied right neighbour, and whose left
   * neighbour is occupied or (in column 0) is read out of range.
   */
  ghost predicate ScanStopsAt(seatMap: array2<bool>, row: int, col: int)
    reads seatMap
    requires InGrid(seatMap, row, col)
  {
    && col != seatMap.Length1 - 1
    && !seatMap[row, col]
    && seatMap[row, col + 1]
    && (col == 0 || seatMap[row, col - 1])
  }

  /** No seat before (row, col) in row-major order stops the scan. */
  ghost predicate NoStopBefore(seatMap: array2<bool>, row: int, col: int)
    reads seatMap
  {
    forall r, c :: InGrid(seatMap, r, c) && (r < row || (r == row && c < col)) ==> !ScanStopsAt(seatMap, r, c)
  }

  /**
   * `findMySeatId`: the id of the first seat in row-major order that is
   * empty with both neighbours occupied, or none; the scan faults instead
   * when it first meets an empty seat in column 0 with an occupied right
   * neighbour, as day05.go then reads column -1.
   */
  method FindMySeatId(seatMap: array2<bool>) returns (result: SeatSearch)
    ensures result.MySeat? ==>
              exists row, col :: InGrid(seatMap, row, col) && col > 0 && ScanStopsAt(seatMap, row, col)
                && NoStopBefore(seatMap, row, col) && result.id == CalculateSeatId(row, col)
    ensures result.LeftNeighbourOutOfRange? ==>
              InGrid(seatMap, result.row, 0) && ScanStopsAt(seatMap, result.row, 0)
                && NoStopBefore(seatMap, result.row, 0)
    ensures result.NoSeat? <==> NoStopBefore(seatMap, seatMap.Length0, 0)
  {
    var row := 0;
    while row < seatMap.Length0
      invariant 0 <= row <= seatMap.Length0
      invariant NoStopBefore(seatMap, row, 0)
    {
      var col := 0;
      while col < seatMap.Length1
        invariant 0 <= col <= seatMap.Length1
        invariant NoStopBefore(seatMap, row, col)
      {
        if col != seatMap.Length1 - 1 {
          if !seatMap[row, col] && seatMap[row, col + 1] {
            if col == 0 {
              assert ScanStopsAt(seatMap, row, col);
              return LeftNeighbourOutOfRange(row);
            }
            if seatMap[row, col - 1] {
              assert ScanStopsAt(seatMap, row, col);
              return MySeat(CalculateSeatId(row, col));
            }
          }
        }
        col := col + 1;
      }
      row := row + 1;
    }
    return NoSeat;
  }

  /** The seat (row, col) is named by some non-empty line among the first `n`. */
  ghost predicate Booked(rawData: seq<string>, n: int, row: int, col: int)
    requires n <= |rawData|
  {
    exists j :: 0 <= j < n && rawData[j] != ""
                && LocatorRow(rawData[j], Plane) == row && LocatorCol(rawData[j], Plane) == col
  }

  /** Every non-empty line among the first `n` names a seat on the plane. */
  predicate AllOnPlane(rawData: seq<string>, n: int)
    requires n <= |rawData|
  {
    forall j :: 0 <= j < n && rawData[j] != "" ==>
      0 <= LocatorRow(rawData[j], Plane) < 128 && 0 <= LocatorCol(rawData[j], Plane) < 8
  }

  /** Slot `j` of the list holds the seat of line `j` once that line is processed, and the zero seat otherwise. */
  ghost predicate ListHolds(seatList: array<Seat>, rawData: seq<string>, n: int)
    requires n <= |rawData|
    reads seatList
  {
    forall j :: 0 <= j < seatList.Length ==>
      seatList[j] == if j < n && rawData[j] != "" then
                       var row, col := LocatorRow(rawData[j], Plane), LocatorCol(rawData[j], Plane);
                       Seat(rawData[j], row, col, CalculateSeatId(row, col))
                     else EmptySeat
  }

  /** A cell of the map is occupied exactly when one of the first `n` lines names it. */
  ghost predicate MapHolds(seatMap: array2<bool>, rawData: seq<string>, n: int)
    requires n <= |rawData|
    reads seatMap
  {
    forall r, c :: InGrid(seatMap, r, c) ==> (seatMap[r, c] <==> Booked(rawData, n, r, c))
  }

  /** One pass of the main loop: line `i` is processed, or the run stops at it when it is off the plane. */
  method ProcessLine(rawData: seq<string>, i: int, seatList: array<Seat>, seatMap: array2<bool>) returns (ok: bool)
    requires 0 <= i < |rawData| <= seatList.Length
    requires seatMap.Length0 == 128 && seatMap.Length1 == 8
    requires AllOnPlane(rawData, i) && ListHolds(seatList, rawData, i) && MapHolds(seatMap, rawData, i)
    modifies seatList, seatMap
    ensures ok == AllOnPlane(rawData, i + 1)
    ensures ok ==> ListHolds(seatList, rawData, i + 1) && MapHolds(seatMap, rawData, i + 1)
  {
    ok := ProcessSeat(i, rawData[i], seatList, Plane, seatMap);
    if !ok {
      return;
    }
    forall r, c | InGrid(seatMap, r, c)
      ensures seatMap[r, c] <==> Booked(rawData, i + 1, r, c)
    {
      if rawData[i] != "" && r == LocatorRow(rawData[i], Plane) && c == LocatorCol(rawData[i], Plane) {
        assert Booked(rawData, i + 1, r, c);
      } else if Booked(rawData, i + 1, r, c) {
        var j :| 0 <= j < i + 1 && rawData[j] != ""
                 && LocatorRow(rawData[j], Plane) == r && LocatorCol(rawData[j], Plane) == c;
        assert j < i;
      }
    }
  }

  /**
   * The program as a whole: every line is processed into a list of 1000
   * seats and a 128 x 8 map, then the highest id and the free seat are
   * looked up. `ok` is false when a line decodes off the plane, where the
   * Go program stops with an index fault. With `ok`, the seat search can
   * still fault: `LeftNeighbourOutOfRange` is the first stop falling in
   * column 0, where day05.go reads the left neighbour at column -1.
   */
  method BoardingAnswers(rawData: seq<string>) returns (ok: bool, highestSeatId: int, seatMap: array2<bool>, mySeat: SeatSearch)
    requires |rawData| <= SeatListSize
    ensures ok == AllOnPlane(rawData, |rawData|)
    ensures fresh(seatMap) && seatMap.Length0 == 128 && seatMap.Length1 == 8
    ensures ok ==> forall r, c :: InGrid(seatMap, r, c) ==> (seatMap[r, c] <==> Booked(rawData, |rawData|, r, c))
    ensures ok ==> highestSeatId >= 0
    ensures ok ==> forall j :: 0 <= j < |rawData| && rawData[j] != "" ==> LocatorSeatId(rawData[j]) <= highestSeatId
    ensures ok ==> highestSeatId == 0 || exists j :: 0 <= j < |rawData| && rawData[j] != "" && LocatorSeatId(rawData[j]) == highestSeatId
    ensures ok ==> (mySeat.NoSeat? <==> NoStopBefore(seatMap, 128, 0))
    ensures ok && mySeat.MySeat? ==>
              exists row, col :: InGrid(seatMap, row, col) && col > 0 && ScanStopsAt(seatMap, row, col)
                && NoStopBefore(seatMap, row, col) && mySeat.id == CalculateSeatId(row, col)
    ensures ok && mySeat.LeftNeighbourOutOfRange? ==>
              InGrid(seatMap, mySeat.row, 0) && ScanStopsAt(seatMap, mySeat.row, 0)
                && NoStopBefore(seatMap, mySeat.row, 0)
  {
    var seatList := new Seat[SeatListSize](_ => EmptySeat);
    seatMap := new bool[128, 8]((_, _) => false);
    highestSeatId, mySeat := 0, NoSeat;
    for i := 0 to |rawData|
      invariant AllOnPlane(rawData, i) && ListHolds(seatList, rawData, i) && MapHolds(seatMap, rawData, i)
    {
      ok := ProcessLine(rawData, i, seatList, seatMap);
      if !ok {
        return;
      }
    }
    ok := true;
    highestSeatId := FindHighestSeatId(seatList);
    forall j | 0 <= j < |rawData| && rawData[j] != ""
      ensures LocatorSeatId(rawData[j]) <= highestSeatId
    {
      assert seatList[j].id == LocatorSeatId(rawData[j]);
    }
    if highestSeatId != 0 {
      var k :| 0 <= k < seatList.Length && seatList[k].id == highestSeatId;
      assert k < |rawData| && rawData[k] != "" && LocatorSeatId(rawData[k]) == highestSeatId;
    }
    mySeat := FindMySeatId(seatMap);
  }

}
