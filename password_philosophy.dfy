/**
 * Password philosophy (2020/day02/day02.go): each line "low-high letter:
 * password" gives a policy and a password. Part 1 accepts a password whose
 * letter count is positive and within [low, high]; Part 2 reads low and high
 * as 1-based positions and accepts when exactly one of them holds the letter.
 * Both parts count the accepted lines.
 */
module PasswordPhilosophy {

  /**
   * The values day02.go scans from a line with "%d-%d %s" and "%s": two
   * numbers, the letter (a whitespace-free word, normally one character) and
   * the password. Part 1 reads the numbers as bounds, Part 2 as positions.
   */
  datatype Policy = Policy(low: int, high: int, letter: string, password: string)

  /**
   * What the two `fmt.Sscanf` calls give for a line split into two chunks:
   * the values scanned (a field the input ran out before keeps its zero
   * value, and end of input is no error), or a scan error other than end of
   * input, on which `check` panics.
   */
  datatype Scan = Scanned(policy: Policy) | ScanError

  /** The zero values the fields keep when a line is not scanned. */
  const Unscanned := Policy(0, 0, "", "")

  /** The positions (0-based) among the first `n` characters of the password that hold the letter. */
  function MatchingPositions(password: string, letter: string, n: int): set<int>
    requires n <= |password|
  {
    set i | 0 <= i < n && [password[i]] == letter
  }

  /** How often the letter occurs in the password: the number of positions holding it. */
  function Occurrences(password: string, letter: string): nat
  {
    |MatchingPositions(password, letter, |password|)|
  }

  /** `len(strings.Split(line, ":"))`: one more chunk than there are colons. */
  function ChunkCount(line: string): nat
  {
    Occurrences(line, ":") + 1
  }

  /** The line is split into two chunks and scanning them fails: `check` panics. */
  predicate Panics(line: string, scan: Scan)
  {
    ChunkCount(line) == 2 && scan.ScanError?
  }

  /**
   * The policy a line is checked against: the scanned one if the line splits
   * into exactly two chunks at ':', otherwise the zero values.
   */
  function PolicyOf(line: string, scan: Scan): Policy
  {
    if ChunkCount(line) == 2 && scan.Scanned? then scan.policy else Unscanned
  }

  /** Part 1: the letter occurs at least once and between low and high times. */
  predicate ValidPart1(p: Policy)
  {
    var n := Occurrences(p.password, p.letter);
    n > 0 && p.low <= n <= p.high
  }

  /** Whether 1-based position `pos` of the password holds the letter. */
  predicate HoldsAt(p: Policy, pos: int)
  {
    1 <= pos <= |p.password| && [p.password[pos - 1]] == p.letter
  }

  /** Part 2: exactly one of the two positions holds the letter. */
  predicate ValidPart2(p: Policy)
  {
    HoldsAt(p, p.low) != HoldsAt(p, p.high)
  }

  /** The lines among the first `n` that Part 1 accepts. */
  function ValidLines1(rawData: seq<string>, scanned: seq<Scan>, n: int): set<int>
    requires |scanned| == |rawData| && n <= |rawData|
  {
    set i | 0 <= i < n && ValidPart1(PolicyOf(rawData[i], scanned[i]))
  }

  /** The lines among the first `n` that Part 2 accepts. */
  function ValidLines2(rawData: seq<string>, scanned: seq<Scan>, n: int): set<int>
    requires |scanned| == |rawData| && n <= |rawData|
  {
    set i | 0 <= i < n && ValidPart2(PolicyOf(rawData[i], scanned[i]))
  }

  /** Extending the prefix by line `i` adds one to the Part 1 count exactly when that line passes. */
  lemma ValidLines1Step(rawData: seq<string>, scanned: seq<Scan>, i: nat)
    requires |scanned| == |rawData| && i < |rawData|
    ensures |ValidLines1(rawData, scanned, i + 1)|
            == |ValidLines1(rawData, scanned, i)| + if ValidPart1(PolicyOf(rawData[i], scanned[i])) then 1 else 0
  {
    assert ValidLines1(rawData, scanned, i + 1)
           == ValidLines1(rawData, scanned, i) + if ValidPart1(PolicyOf(rawData[i], scanned[i])) then {i} else {};
  }

  /** Extending the prefix by line `i` adds one to the Part 2 count exactly when that line passes. */
  lemma ValidLines2Step(rawData: seq<string>, scanned: seq<Scan>, i: nat)
    requires |scanned| == |rawData| && i < |rawData|
    ensures |ValidLines2(rawData, scanned, i + 1)|
            == |ValidLines2(rawData, scanned, i)| + if ValidPart2(PolicyOf(rawData[i], scanned[i])) then 1 else 0
  {
    assert ValidLines2(rawData, scanned, i + 1)
           == ValidLines2(rawData, scanned, i) + if ValidPart2(PolicyOf(rawData[i], scanned[i])) then {i} else {};
  }

  /** The inner Part 1 loop: count the characters of the password equal to the letter. */
  method CountOccurrences(password: string, letter: string) returns (numberOccurrences: nat)
    ensures numberOccurrences == Occurrences(password, letter)
    ensures numberOccurrences <= |password|
  {
    numberOccurrences := 0;
    for j := 0 to |password|
      invariant numberOccurrences == |MatchingPositions(password, letter, j)| <= j
    {
      assert MatchingPositions(password, letter, j + 1)
             == MatchingPositions(password, letter, j) + if [password[j]] == letter then {j} else {};
      if [password[j]] == letter {
        numberOccurrences := numberOccurrences + 1;
      }
    }
  }

  /**
   * The inner Part 2 loop: one hit for each of the two positions that holds
   * the letter (two when both name the same matching position).
   */
  method CountPositionHits(pos1: int, pos2: int, letter: string, password: string) returns (numberOccurrences: nat)
    ensures numberOccurrences == (if HoldsAt(Policy(pos1, pos2, letter, password), pos1) then 1 else 0)
                                 + (if HoldsAt(Policy(pos1, pos2, letter, password), pos2) then 1 else 0)
  {
    ghost var p := Policy(pos1, pos2, letter, password);
    numberOccurrences := 0;
    for n := 0 to |password|
      invariant numberOccurrences == (if HoldsAt(p, pos1) && pos1 <= n then 1 else 0)
                                     + (if HoldsAt(p, pos2) && pos2 <= n then 1 else 0)
    {
      if n + 1 == pos1 && [password[n]] == letter {
        numberOccurrences := numberOccurrences + 1;
      }
      if n + 1 == pos2 && [password[n]] == letter {
        numberOccurrences := numberOccurrences + 1;
      }
    }
  }

  /**
   * Part 1 loop: for each line, count the letter in the password and count
   * the line if that number is positive and within the bounds.
   */
  method CountValidPart1(rawData: seq<string>, scanned: seq<Scan>) returns (ok: bool, validPasswordCount: nat)
    requires |scanned| == |rawData|
    ensures ok <==> forall i :: 0 <= i < |rawData| ==> !Panics(rawData[i], scanned[i])
    ensures ok ==> validPasswordCount == |ValidLines1(rawData, scanned, |rawData|)|
    ensures validPasswordCount <= |rawData|
  {
    validPasswordCount := 0;
    for i := 0 to |rawData|
      invariant forall j :: 0 <= j < i ==> !Panics(rawData[j], scanned[j])
      invariant validPasswordCount == |ValidLines1(rawData, scanned, i)| <= i
    {
      var low, high, letter, password := 0, 0, "", "";
      if ChunkCount(rawData[i]) == 2 {
        if scanned[i].ScanError? {
          return false, 0;
        }
        low, high, letter, password := scanned[i].policy.low, scanned[i].policy.high, scanned[i].policy.letter, scanned[i].policy.password;
      }
      assert PolicyOf(rawData[i], scanned[i]) == Policy(low, high, letter, password);
      var numberOccurrences := CountOccurrences(password, letter);
      ValidLines1Step(rawData, scanned, i);
      if numberOccurrences > 0 && numberOccurrences >= low && numberOccurrences <= high {
        validPasswordCount := validPasswordCount + 1;
      }
    }
    ok := true;
  }

  /**
   * Part 2 loop: walk the password and count a hit when the 1-based index
   * equals either position and holds the letter; the line counts when there
   * is exactly one hit.
   */
  method CountValidPart2(rawData: seq<string>, scanned: seq<Scan>) returns (ok: bool, validPasswordCount: nat)
    requires |scanned| == |rawData|
    ensures ok <==> forall i :: 0 <= i < |rawData| ==> !Panics(rawData[i], scanned[i])
    ensures ok ==> validPasswordCount == |ValidLines2(rawData, scanned, |rawData|)|
    ensures validPasswordCount <= |rawData|
  {
    validPasswordCount := 0;
    for i := 0 to |rawData|
      invariant forall j :: 0 <= j < i ==> !Panics(rawData[j], scanned[j])
      invariant validPasswordCount == |ValidLines2(rawData, scanned, i)| <= i
    {
      var pos1, pos2, letter, password := 0, 0, "", "";
      if ChunkCount(rawData[i]) == 2 {
        if scanned[i].ScanError? {
          return false, 0;
        }
        pos1, pos2, letter, password := scanned[i].policy.low, scanned[i].policy.high, scanned[i].policy.letter, scanned[i].policy.password;
      }
      ghost var p := Policy(pos1, pos2, letter, password);
      assert PolicyOf(rawData[i], scanned[i]) == p;
      var numberOccurrences := CountPositionHits(pos1, pos2, letter, password);
      ValidLines2Step(rawData, scanned, i);
      if numberOccurrences == 1 {
        validPasswordCount := validPasswordCount + 1;
      }
    }
    ok := true;
  }

  /** A line without exactly one ':' keeps the zero values and passes neither rule. */
  lemma UnsplitLineNeverValid(line: string, scan: Scan)
    requires Occurrences(line, ":") != 1
    ensures !Panics(line, scan)
    ensures !ValidPart1(PolicyOf(line, scan)) && !ValidPart2(PolicyOf(line, scan))
  {
    assert MatchingPositions("", "", 0) == {};
  }

  /** Naming the same position twice never passes Part 2, whatever it holds. */
  lemma SamePositionNeverValid(p: Policy)
    requires p.low == p.high
    ensures !ValidPart2(p)
  {
  }

  /** The documented lines: Part 1 accepts "1-3 a: abcde" and "2-9 c: ccccccccc" but not "1-3 b: cdefg". */
  lemma DocumentedPart1()
    ensures ValidPart1(Policy(1, 3, "a", "abcde"))
    ensures !ValidPart1(Policy(1, 3, "b", "cdefg"))
    ensures ValidPart1(Policy(2, 9, "c", "ccccccccc"))
  {
    assert MatchingPositions("abcde", "a", 5) == {0};
    assert MatchingPositions("cdefg", "b", 5) == {};
    assert MatchingPositions("ccccccccc", "c", 9) == {0, 1, 2, 3, 4, 5, 6, 7, 8};
  }

  /** The documented lines: Part 2 accepts "1-3 a: abcde" only. */
  lemma DocumentedPart2()
    ensures ValidPart2(Policy(1, 3, "a", "abcde"))
    ensures !ValidPart2(Policy(1, 3, "b", "cdefg"))
    ensures !ValidPart2(Policy(2, 9, "c", "ccccccccc"))
  {
  }

  /** The documented example list, with the values scanning each line gives. */
  const DocumentedLines: seq<string> := ["1-3 a: abcde", "1-3 b: cdefg", "2-9 c: ccccccccc"]
  const DocumentedScans: seq<Scan> :=
    [Scanned(Policy(1, 3, "a", "abcde")), Scanned(Policy(1, 3, "b", "cdefg")), Scanned(Policy(2, 9, "c", "ccccccccc"))]

  /** A line with one ':' at `at` splits into two chunks. */
  lemma SingleColon(line: string, at: nat)
    requires at < |line| && line[at] == ':'
    requires forall i :: 0 <= i < |line| && i != at ==> line[i] != ':'
    ensures ChunkCount(line) == 2
  {
    assert MatchingPositions(line, ":", |line|) == {at};
  }

  /**
   * On the documented list both loops run to the end; Part 1 counts the
   * first and third lines (2 valid) and Part 2 the first only (1 valid).
   */
  lemma DocumentedCounts()
    ensures forall i :: 0 <= i < 3 ==> !Panics(DocumentedLines[i], DocumentedScans[i])
    ensures ValidLines1(DocumentedLines, DocumentedScans, 3) == {0, 2}
    ensures |ValidLines1(DocumentedLines, DocumentedScans, 3)| == 2
    ensures ValidLines2(DocumentedLines, DocumentedScans, 3) == {0}
    ensures |ValidLines2(DocumentedLines, DocumentedScans, 3)| == 1
  {
    SingleColon(DocumentedLines[0], 5);
    SingleColon(DocumentedLines[1], 5);
    SingleColon(DocumentedLines[2], 5);
    DocumentedPart1();
    DocumentedPart2();
  }
}
