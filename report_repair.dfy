/**
 * Report repair (2020/day01/day01.go): the expense report's numbers are
 * stored in a fixed array of 200 slots; a brute-force nested loop with a
 * `found` flag looks for two entries (then three) summing to 2020 and
 * reports their product. Indices may repeat: the loops do not require
 * i, j, k to differ.
 */
module ReportRepair {

  datatype Option<T> = None | Some(value: T)

  /** The number of slots of the expense array. */
  const ExpenseCount := 200

  /** The sum the searches look for. */
  const Target := 2020

  /**
   * What scanning one line with "%d" gives: a number, the end of the input
   * (the error `check` lets through), or any other error (which `check`
   * turns into a panic).
   */
  datatype Scan = Number(value: int) | AtEnd | Malformed

  /** The fill loop completes: no line is malformed and every number fits in the array. */
  predicate Readable(scans: seq<Scan>)
  {
    forall i :: 0 <= i < |scans| ==> !scans[i].Malformed? && (scans[i].Number? ==> i < ExpenseCount)
  }

  /** Slot `i` after the fill loop: the number scanned from line `i`, or 0 when that line gave none. */
  function Slot(scans: seq<Scan>, i: int): int
  {
    if 0 <= i < |scans| && scans[i].Number? then scans[i].value else 0
  }

  /**
   * The fill loop: slot `i` takes the number on line `i`; lines at the end
   * of the input leave their slot at 0. A malformed line or a number beyond
   * slot 199 stops the program (`ok` is false).
   */
  method FillExpenses(scans: seq<Scan>) returns (expenses: array<int>, ok: bool)
    ensures fresh(expenses) && expenses.Length == ExpenseCount
    ensures ok == Readable(scans)
    ensures ok ==> forall i :: 0 <= i < ExpenseCount ==> expenses[i] == Slot(scans, i)
  {
    expenses := new int[ExpenseCount](_ => 0);
    ok := true;
    var i := 0;
    while i < |scans|
      invariant 0 <= i <= |scans|
      invariant forall i' :: 0 <= i' < i ==> !scans[i'].Malformed? && (scans[i'].Number? ==> i' < ExpenseCount)
      invariant forall s :: 0 <= s < ExpenseCount ==> expenses[s] == Slot(scans[..i], s)
    {
      if scans[i].Malformed? {
        ok := false;
        return;
      } else if scans[i].Number? {
        if i >= ExpenseCount {
          ok := false;
          return;
        }
        expenses[i] := scans[i].value;
      }
      i := i + 1;
    }
    assert scans[..i] == scans;
  }

  /** Entries `i` and `j` (possibly the same entry) sum to the target. */
  predicate PairAt(e: seq<int>, i: int, j: int)
  {
    0 <= i < |e| && 0 <= j < |e| && e[i] + e[j] == Target
  }

  /** Entries `i`, `j` and `k` (not necessarily different) sum to the target. */
  predicate TripleAt(e: seq<int>, i: int, j: int, k: int)
  {
    0 <= i < |e| && 0 <= j < |e| && 0 <= k < |e| && e[i] + e[j] + e[k] == Target
  }

  /** (i, j) is a matching pair and no pair before it in the loops' order (by i, then j) matches. */
  ghost predicate FirstPair(e: seq<int>, i: int, j: int)
  {
    PairAt(e, i, j)
    && forall i', j' :: PairAt(e, i', j') ==> i < i' || (i == i' && j <= j')
  }

  /** (i, j, k) is a matching triple and no triple before it in the loops' order matches. */
  ghost predicate FirstTriple(e: seq<int>, i: int, j: int, k: int)
  {
    TripleAt(e, i, j, k)
    && forall i', j', k' :: TripleAt(e, i', j', k') ==> i < i' || (i == i' && (j < j' || (j == j' && k <= k')))
  }

  /** There is at most one first pair, so the reported product is determined by the entries. */
  lemma FirstPairUnique(e: seq<int>, i: int, j: int, i2: int, j2: int)
    requires FirstPair(e, i, j) && FirstPair(e, i2, j2)
    ensures i == i2 && j == j2
  {
  }

  /** There is at most one first triple. */
  lemma FirstTripleUnique(e: seq<int>, i: int, j: int, k: int, i2: int, j2: int, k2: int)
    requires FirstTriple(e, i, j, k) && FirstTriple(e, i2, j2, k2)
    ensures i == i2 && j == j2 && k == k2
  {
  }

  /** The inner pair loop for a fixed first index: the first `j` that completes a pair with `i`. */
  method ScanPairs(expenses: array<int>, i: int) returns (found: bool, j: int)
    requires 0 <= i < expenses.Length
    ensures found <==> exists j' :: PairAt(expenses[..], i, j')
    ensures found ==> PairAt(expenses[..], i, j) && forall j' :: PairAt(expenses[..], i, j') ==> j <= j'
  {
    found := false;
    j := 0;
    while j < expenses.Length && !found
      invariant 0 <= j <= expenses.Length
      invariant !found ==> forall j' :: 0 <= j' < j ==> !PairAt(expenses[..], i, j')
      invariant found ==> 0 < j && PairAt(expenses[..], i, j - 1)
                          && forall j' :: PairAt(expenses[..], i, j') ==> j - 1 <= j'
    {
      if expenses[i] + expenses[j] == Target {
        found := true;
      }
      j := j + 1;
    }
    if found {
      j := j - 1;
    }
  }

  /**
   * Part 1: the nested loops over all slots, stopped by `found`. The answer
   * is the product of the first matching pair, or nothing when no pair of
   * slots sums to the target.
   */
  method FindPair(expenses: array<int>) returns (answer: Option<int>)
    ensures answer.None? <==> forall i, j :: !PairAt(expenses[..], i, j)
    ensures answer.Some? ==> exists i, j :: FirstPair(expenses[..], i, j) && answer.value == expenses[i] * expenses[j]
  {
    answer := None;
    var found := false;
    var i := 0;
    while i < expenses.Length && !found
      invariant 0 <= i <= expenses.Length
      invariant !found ==> answer.None? && forall i', j' :: 0 <= i' < i ==> !PairAt(expenses[..], i', j')
      invariant found ==> answer.Some?
                          && exists a, b :: FirstPair(expenses[..], a, b) && answer.value == expenses[a] * expenses[b]
    {
      var j;
      found, j := ScanPairs(expenses, i);
      if found {
        assert FirstPair(expenses[..], i, j);
        answer := Some(expenses[i] * expenses[j]);
      }
      i := i + 1;
    }
  }

  /** The innermost triple loop for fixed `i` and `j`: the first `k` that completes the triple. */
  method ScanThirds(expenses: array<int>, i: int, j: int) returns (found: bool, k: int)
    requires 0 <= i < expenses.Length && 0 <= j < expenses.Length
    ensures found <==> exists k' :: TripleAt(expenses[..], i, j, k')
    ensures found ==> TripleAt(expenses[..], i, j, k) && forall k' :: TripleAt(expenses[..], i, j, k') ==> k <= k'
  {
    found := false;
    k := 0;
    while k < expenses.Length && !found
      invariant 0 <= k <= expenses.Length
      invariant !found ==> forall k' :: 0 <= k' < k ==> !TripleAt(expenses[..], i, j, k')
      invariant found ==> 0 < k && TripleAt(expenses[..], i, j, k - 1)
                          && forall k' :: TripleAt(expenses[..], i, j, k') ==> k - 1 <= k'
    {
      if expenses[i] + expenses[j] + expenses[k] == Target {
        found := true;
      }
      k := k + 1;
    }
    if found {
      k := k - 1;
    }
  }

  /** The middle triple loop for a fixed `i`: the first (j, k) that completes the triple. */
  method ScanTriples(expenses: array<int>, i: int) returns (found: bool, j: int, k: int)
    requires 0 <= i < expenses.Length
    ensures found <==> exists j', k' :: TripleAt(expenses[..], i, j', k')
    ensures found ==> TripleAt(expenses[..], i, j, k)
                      && forall j', k' :: TripleAt(expenses[..], i, j', k') ==> j < j' || (j == j' && k <= k')
  {
    found := false;
    j, k := 0, 0;
    while j < expenses.Length && !found
      invariant 0 <= j <= expenses.Length
      invariant !found ==> forall j', k' :: 0 <= j' < j ==> !TripleAt(expenses[..], i, j', k')
      invariant found ==> 0 < j && TripleAt(expenses[..], i, j - 1, k)
                          && forall j', k' :: TripleAt(expenses[..], i, j', k') ==> j - 1 < j' || (j - 1 == j' && k <= k')
    {
      found, k := ScanThirds(expenses, i, j);
      j := j + 1;
    }
    if found {
      j := j - 1;
    }
  }

  /**
   * Part 2: the triple-nested loops, stopped by `found`. The answer is the
   * product of the first matching triple, or nothing when none exists.
   */
  method FindTriple(expenses: array<int>) returns (answer: Option<int>)
    ensures answer.None? <==> forall i, j, k :: !TripleAt(expenses[..], i, j, k)
    ensures answer.Some? ==> exists i, j, k :: FirstTriple(expenses[..], i, j, k)
                                               && answer.value == expenses[i] * expenses[j] * expenses[k]
  {
    answer := None;
    var found := false;
    var i := 0;
    while i < expenses.Length && !found
      invariant 0 <= i <= expenses.Length
      invariant !found ==> answer.None? && forall i', j', k' :: 0 <= i' < i ==> !TripleAt(expenses[..], i', j', k')
      invariant found ==> answer.Some?
                          && exists a, b, c :: FirstTriple(expenses[..], a, b, c)
                                               && answer.value == expenses[a] * expenses[b] * expenses[c]
    {
      var j, k;
      found, j, k := ScanTriples(expenses, i);
      if found {
        assert FirstTriple(expenses[..], i, j, k);
        answer := Some(expenses[i] * expenses[j] * expenses[k]);
      }
      i := i + 1;
    }
  }

  /** The 200 slots after a completed fill loop. */
  function Padded(scans: seq<Scan>): (e: seq<int>)
    ensures |e| == ExpenseCount
    ensures forall i :: 0 <= i < ExpenseCount ==> e[i] == Slot(scans, i)
  {
    seq(ExpenseCount, i => Slot(scans, i))
  }

  /**
   * The program as written: fill the 200 slots, then search all of them.
   * Slots no line filled take part in the search with the value 0.
   */
  method RepairAsWritten(scans: seq<Scan>) returns (ok: bool, part1: Option<int>, part2: Option<int>)
    ensures ok == Readable(scans)
    ensures ok ==> (part1.None? <==> forall i, j :: !PairAt(Padded(scans), i, j))
    ensures ok && part1.Some? ==> exists i, j :: FirstPair(Padded(scans), i, j)
                                                 && part1.value == Padded(scans)[i] * Padded(scans)[j]
    ensures ok ==> (part2.None? <==> forall i, j, k :: !TripleAt(Padded(scans), i, j, k))
    ensures ok && part2.Some? ==> exists i, j, k :: FirstTriple(Padded(scans), i, j, k)
                                                    && part2.value == Padded(scans)[i] * Padded(scans)[j] * Padded(scans)[k]
  {
    var expenses;
    expenses, ok := FillExpenses(scans);
    part1, part2 := None, None;
    if ok {
      ghost var e := Padded(scans);
      assert expenses[..] == e;
      part1 := FindPair(expenses);
      part2 := FindTriple(expenses);
      assert expenses[..] == e;
    }
  }

  /** No line is malformed. */
  predicate WellFormed(scans: seq<Scan>)
  {
    forall i :: 0 <= i < |scans| ==> !scans[i].Malformed?
  }

  /** The numbers of the report, in order: the values of the lines that scanned as numbers. */
  function Numbers(scans: seq<Scan>): (nums: seq<int>)
    ensures |nums| <= |scans|
  {
    if scans == [] then []
    else Numbers(scans[..|scans| - 1]) + if scans[|scans| - 1].Number? then [scans[|scans| - 1].value] else []
  }

  /** Every number of the report is the value of some line, so a search over them only meets entries of the report. */
  lemma {:induction false} NumbersFromLines(scans: seq<Scan>, n: int)
    requires 0 <= n < |Numbers(scans)|
    ensures exists i :: 0 <= i < |scans| && scans[i] == Number(Numbers(scans)[n])
  {
    var prev := scans[..|scans| - 1];
    if n < |Numbers(prev)| {
      NumbersFromLines(prev, n);
      var i :| 0 <= i < |prev| && prev[i] == Number(Numbers(prev)[n]);
      assert scans[i] == prev[i];
    } else {
      assert scans[|scans| - 1] == Number(Numbers(scans)[n]);
    }
  }

  /** The corrected reading: keep exactly the numbers of the report, with no padding slots. */
  method ReadEntries(scans: seq<Scan>) returns (entries: array<int>, ok: bool)
    ensures fresh(entries)
    ensures ok == WellFormed(scans)
    ensures ok ==> entries[..] == Numbers(scans)
  {
    var nums: seq<int> := [];
    ok := true;
    var i := 0;
    while i < |scans|
      invariant 0 <= i <= |scans|
      invariant forall i' :: 0 <= i' < i ==> !scans[i'].Malformed?
      invariant nums == Numbers(scans[..i])
    {
      assert scans[..i + 1][..i] == scans[..i];
      if scans[i].Malformed? {
        ok := false;
        break;
      } else if scans[i].Number? {
        nums := nums + [scans[i].value];
      }
      i := i + 1;
    }
    if ok {
      assert scans[..i] == scans;
    }
    entries := new int[|nums|](k requires 0 <= k < |nums| => nums[k]);
  }

  /**
   * The corrected program: search only the numbers of the report. A reported
   * product is then always a product of entries of the report.
   */
  method Repair(scans: seq<Scan>) returns (ok: bool, part1: Option<int>, part2: Option<int>)
    ensures ok == WellFormed(scans)
    ensures ok ==> (part1.None? <==> forall i, j :: !PairAt(Numbers(scans), i, j))
    ensures ok && part1.Some? ==> exists i, j :: FirstPair(Numbers(scans), i, j)
                                                 && part1.value == Numbers(scans)[i] * Numbers(scans)[j]
    ensures ok ==> (part2.None? <==> forall i, j, k :: !TripleAt(Numbers(scans), i, j, k))
    ensures ok && part2.Some? ==> exists i, j, k :: FirstTriple(Numbers(scans), i, j, k)
                                                    && part2.value == Numbers(scans)[i] * Numbers(scans)[j] * Numbers(scans)[k]
  {
    var entries;
    entries, ok := ReadEntries(scans);
    part1, part2 := None, None;
    if ok {
      ghost var e := Numbers(scans);
      part1 := FindPair(entries);
      part2 := FindTriple(entries);
      assert entries[..] == e;
    }
  }

  lemma NumbersSnoc(scans: seq<Scan>, s: Scan)
    ensures Numbers(scans + [s]) == Numbers(scans) + if s.Number? then [s.value] else []
  {
    assert (scans + [s])[..|scans|] == scans;
  }

  /** The documented report, with the empty line the final newline leaves. */
  const DocumentedReport := [Number(1721), Number(979), Number(366), Number(299), Number(675), Number(1456), AtEnd]

  /** The documented entries. */
  const DocumentedEntries := [1721, 979, 366, 299, 675, 1456]

  lemma DocumentedNumbers()
    ensures WellFormed(DocumentedReport) && Readable(DocumentedReport)
    ensures Numbers(DocumentedReport) == DocumentedEntries
  {
    var r := DocumentedReport;
    for k := 0 to |r|
      invariant Numbers(r[..k]) == DocumentedEntries[..if k < 6 then k else 6]
    {
      assert r[..k + 1] == r[..k] + [r[k]];
      NumbersSnoc(r[..k], r[k]);
    }
    assert r[..|r|] == r;
  }

  /** In the documented entries the first pair is 1721 + 299 and the first triple 979 + 366 + 675. */
  lemma DocumentedFirstMatches()
    ensures FirstPair(DocumentedEntries, 0, 3)
    ensures FirstTriple(DocumentedEntries, 1, 2, 4)
  {
  }

  /**
   * In the 200 padded slots the first pair is still 1721 + 299, but the
   * first triple is 1721 + 299 + 0, where the 0 is slot 6, which no line filled.
   */
  lemma DocumentedPaddedMatches()
    ensures FirstPair(Padded(DocumentedReport), 0, 3)
    ensures FirstTriple(Padded(DocumentedReport), 0, 3, 6)
  {
  }

  /** The corrected program on the documented report answers 514579 and 241861950. */
  method DocumentedAnswers() returns (part1: Option<int>, part2: Option<int>)
    ensures part1 == Some(514579) && part2 == Some(241861950)
  {
    DocumentedNumbers();
    DocumentedFirstMatches();
    var ok;
    ok, part1, part2 := Repair(DocumentedReport);
    ghost var i, j :| FirstPair(DocumentedEntries, i, j) && part1.value == DocumentedEntries[i] * DocumentedEntries[j];
    FirstPairUnique(DocumentedEntries, i, j, 0, 3);
    ghost var a, b, c :| FirstTriple(DocumentedEntries, a, b, c)
                   && part2.value == DocumentedEntries[a] * DocumentedEntries[b] * DocumentedEntries[c];
    FirstTripleUnique(DocumentedEntries, a, b, c, 1, 2, 4);
  }

  /** The program as written on the documented report answers 514579 and then 0, not 241861950. */
  method DocumentedAnswersAsWritten() returns (part1: Option<int>, part2: Option<int>)
    ensures part1 == Some(514579) && part2 == Some(0)
  {
    DocumentedNumbers();
    DocumentedPaddedMatches();
    ghost var e := Padded(DocumentedReport);
    var ok;
    ok, part1, part2 := RepairAsWritten(DocumentedReport);
    ghost var i, j :| FirstPair(e, i, j) && part1.value == e[i] * e[j];
    FirstPairUnique(e, i, j, 0, 3);
    ghost var a, b, c :| FirstTriple(e, a, b, c) && part2.value == e[a] * e[b] * e[c];
    FirstTripleUnique(e, a, b, c, 0, 3, 6);
  }
}
