/**
 * Custom customs (day06/day06.go): lines of answers ("abc") are grouped by
 * blank lines. Round 1 sums, over the groups, how many questions anyone in
 * the group answered; round 2 sums how many everyone answered. The program
 * keeps a bool map (answered at all) and an int map (how often answered)
 * keyed by answer letter, tallies them at each blank line and resets them.
 */
module CustomCustoms {

  /** The 26 keys both maps start with. */
  const Alphabet: set<char> := {'a', 'b', 'c', 'd', 'e', 'f', 'g', 'h', 'i', 'j', 'k', 'l', 'm',
                                'n', 'o', 'p', 'q', 'r', 's', 't', 'u', 'v', 'w', 'x', 'y', 'z'}

  /** The number of times `ch` occurs in `s`. */
  function CountChar(s: string, ch: char): (n: nat)
    ensures n <= |s|
  {
    if s == [] then 0 else CountChar(s[..|s| - 1], ch) + if s[|s| - 1] == ch then 1 else 0
  }

  /** The characters of one line. */
  function CharSet(s: string): set<char>
  {
    set c | c in s
  }

  /** Every character that occurs in some line of `ls`. */
  function Chars(ls: seq<string>): set<char>
  {
    if ls == [] then {} else Chars(ls[..|ls| - 1]) + CharSet(ls[|ls| - 1])
  }

  /** How often `k` occurs over all lines of a group. */
  function Occ(group: seq<string>, k: char): nat
  {
    if group == [] then 0 else Occ(group[..|group| - 1], k) + CountChar(group[|group| - 1], k)
  }

  /** The lines of the group still open after reading `ls`: those after the last blank line. */
  function Pending(ls: seq<string>): seq<string>
  {
    if ls == [] then []
    else if ls[|ls| - 1] == "" then []
    else Pending(ls[..|ls| - 1]) + [ls[|ls| - 1]]
  }

  /** The groups a blank line has closed, in order, after reading `ls`. */
  function Closed(ls: seq<string>): seq<seq<string>>
  {
    if ls == [] then []
    else if ls[|ls| - 1] == "" then Closed(ls[..|ls| - 1]) + [Pending(ls[..|ls| - 1])]
    else Closed(ls[..|ls| - 1])
  }

  /** The keys of both maps after reading `ls`: the alphabet plus every character seen. */
  function Keys(ls: seq<string>): set<char>
  {
    Alphabet + Chars(ls)
  }

  /** The keys whose tally equals the number of lines in the open group. */
  function FullTally(ls: seq<string>): set<char>
  {
    set k | k in Keys(ls) && Occ(Pending(ls), k) == |Pending(ls)|
  }

  /** Round 1 total: at each blank line, add the number of characters the open group used. */
  function Total1(ls: seq<string>): nat
  {
    if ls == [] then 0
    else Total1(ls[..|ls| - 1]) + if ls[|ls| - 1] == "" then |Chars(Pending(ls[..|ls| - 1]))| else 0
  }

  /** Round 2 total: at each blank line, add the number of keys tallied once per line of the open group. */
  function Total2(ls: seq<string>): nat
  {
    if ls == [] then 0
    else Total2(ls[..|ls| - 1]) + if ls[|ls| - 1] == "" then |FullTally(ls[..|ls| - 1])| else 0
  }

  /** The questions everyone in a group answered. */
  function Intersection(group: seq<string>): set<char>
  {
    set c | c in Chars(group) && forall l :: l in group ==> c in l
  }

  /** The sum over the groups of how many questions anyone answered. */
  function SumUnions(groups: seq<seq<string>>): nat
  {
    if groups == [] then 0 else SumUnions(groups[..|groups| - 1]) + |Chars(groups[|groups| - 1])|
  }

  /** The sum over the groups of how many questions everyone answered. */
  function SumIntersections(groups: seq<seq<string>>): nat
  {
    if groups == [] then 0 else SumIntersections(groups[..|groups| - 1]) + |Intersection(groups[|groups| - 1])|
  }

  /** No character occurs twice in the line. */
  predicate NoRepeats(s: string)
  {
    forall i, j :: 0 <= i < j < |s| ==> s[i] != s[j]
  }

  /** Every group holds at least one line. */
  predicate NoEmptyGroup(groups: seq<seq<string>>)
  {
    forall g :: g in groups ==> g != []
  }

  /** A missing key reads as the zero value. */
  function Get(m: map<char, int>, k: char): int
  {
    if k in m then m[k] else 0
  }

  /** The keys among `s` that `m` marks true. */
  function TrueKeys(m: map<char, bool>, s: set<char>): set<char>
  {
    set k | k in s && k in m && m[k]
  }

  /** The keys among `s` whose value in `m` is `v`. */
  function KeysWithValue(m: map<char, int>, s: set<char>, v: int): set<char>
  {
    set k | k in s && k in m && m[k] == v
  }

  lemma TrueKeysAdd(m: map<char, bool>, s: set<char>, key: char)
    requires key in m && key !in s
    ensures |TrueKeys(m, s + {key})| == |TrueKeys(m, s)| + if m[key] then 1 else 0
  {
    assert TrueKeys(m, s + {key}) == TrueKeys(m, s) + if m[key] then {key} else {};
  }

  lemma KeysWithValueAdd(m: map<char, int>, s: set<char>, key: char, v: int)
    requires key in m && key !in s
    ensures |KeysWithValue(m, s + {key}, v)| == |KeysWithValue(m, s, v)| + if m[key] == v then 1 else 0
  {
    assert KeysWithValue(m, s + {key}, v) == KeysWithValue(m, s, v) + if m[key] == v then {key} else {};
  }

  /** The two answer maps of the program, updated in place. */
  class Answers {
    var letters: map<char, bool>
    var letters2: map<char, int>

    /** Both maps start with the 26 letter keys, all false and all zero. */
    constructor ()
      ensures letters == map c | c in Alphabet :: false
      ensures letters2 == map c | c in Alphabet :: 0
    {
      letters := map c | c in Alphabet :: false;
      letters2 := map c | c in Alphabet :: 0;
    }

    /** Sets every key of the bool map to false; the keys stay. */
    method LettersReset()
      modifies this
      ensures letters.Keys == old(letters).Keys
      ensures forall k :: k in letters ==> !letters[k]
      ensures letters2 == old(letters2)
    {
      var keys := letters.Keys;
      while keys != {}
        invariant keys <= letters.Keys == old(letters).Keys
        invariant forall k :: k in letters && k !in keys ==> !letters[k]
        invariant letters2 == old(letters2)
        decreases |keys|
      {
        var key :| key in keys;
        letters := letters[key := false];
        keys := keys - {key};
      }
    }

    /** Sets every key of the int map to zero; the keys stay. */
    method Letters2Reset()
      modifies this
      ensures letters2.Keys == old(letters2).Keys
      ensures forall k :: k in letters2 ==> letters2[k] == 0
      ensures letters == old(letters)
    {
      var keys := letters2.Keys;
      while keys != {}
        invariant keys <= letters2.Keys == old(letters2).Keys
        invariant forall k :: k in letters2 && k !in keys ==> letters2[k] == 0
        invariant letters == old(letters)
        decreases |keys|
      {
        var key :| key in keys;
        letters2 := letters2[key := 0];
        keys := keys - {key};
      }
    }

    /** The number of keys marked true: the questions anyone in the group answered. */
    method CountGroup1Responses() returns (count: nat)
      ensures count == |TrueKeys(letters, letters.Keys)|
    {
      count := 0;
      var m := letters;
      var keys := m.Keys;
      ghost var seen: set<char> := {};
      while keys != {}
        invariant keys !! seen && keys + seen == m.Keys
        invariant count == |TrueKeys(m, seen)|
        decreases |keys|
      {
        var key :| key in keys;
        TrueKeysAdd(m, seen, key);
        if m[key] {
          count := count + 1;
        }
        keys := keys - {key};
        seen := seen + {key};
      }
    }

    /** The number of keys whose tally equals the number of answerers. */
    method CountGroup2Responses(totalAnswerers: int) returns (count: nat)
      ensures count == |KeysWithValue(letters2, letters2.Keys, totalAnswerers)|
    {
      count := 0;
      var m := letters2;
      var keys := m.Keys;
      ghost var seen: set<char> := {};
      while keys != {}
        invariant keys !! seen && keys + seen == m.Keys
        invariant count == |KeysWithValue(m, seen, totalAnswerers)|
        decreases |keys|
      {
        var key :| key in keys;
        KeysWithValueAdd(m, seen, key, totalAnswerers);
        if m[key] == totalAnswerers {
          count := count + 1;
        }
        keys := keys - {key};
        seen := seen + {key};
      }
    }

    /**
     * Records one person's answers: each character of the line is marked
     * true in the bool map and counted once more in the int map, adding the
     * key if it is missing.
     */
    method Mark(line: string)
      modifies this
      ensures letters.Keys == old(letters).Keys + CharSet(line)
      ensures forall k :: k in letters ==> letters[k] == ((k in old(letters) && old(letters)[k]) || k in line)
      ensures letters2.Keys == old(letters2).Keys + CharSet(line)
      ensures forall k :: k in letters2 ==> letters2[k] == Get(old(letters2), k) + CountChar(line, k)
    {
      for j := 0 to |line|
        invariant letters.Keys == old(letters).Keys + CharSet(line[..j])
        invariant forall k :: k in letters ==> letters[k] == ((k in old(letters) && old(letters)[k]) || k in line[..j])
        invariant letters2.Keys == old(letters2).Keys + CharSet(line[..j])
        invariant forall k :: k in letters2 ==> letters2[k] == Get(old(letters2), k) + CountChar(line[..j], k)
      {
        var c := line[j];
        assert line[..j + 1] == line[..j] + [c];
        MarkStep(old(letters), old(letters2), line[..j], c, letters, letters2);
        letters := letters[c := true];
        letters2 := letters2[c := Get(letters2, c) + 1];
      }
      assert line[..|line|] == line;
    }
  }

  /** Marking one more character `c` keeps both maps in step with the characters read so far. */
  lemma MarkStep(letters0: map<char, bool>, letters20: map<char, int>, read: string, c: char,
                 letters: map<char, bool>, letters2: map<char, int>)
    requires letters.Keys == letters0.Keys + CharSet(read)
    requires forall k :: k in letters ==> letters[k] == ((k in letters0 && letters0[k]) || k in read)
    requires letters2.Keys == letters20.Keys + CharSet(read)
    requires forall k :: k in letters2 ==> letters2[k] == Get(letters20, k) + CountChar(read, k)
    ensures letters[c := true].Keys == letters0.Keys + CharSet(read + [c])
    ensures forall k :: k in letters[c := true] ==> letters[c := true][k] == ((k in letters0 && letters0[k]) || k in read + [c])
    ensures letters2[c := Get(letters2, c) + 1].Keys == letters20.Keys + CharSet(read + [c])
    ensures forall k :: k in letters2[c := Get(letters2, c) + 1] ==>
              letters2[c := Get(letters2, c) + 1][k] == Get(letters20, k) + CountChar(read + [c], k)
  {
    var after2 := letters2[c := Get(letters2, c) + 1];
    assert (read + [c])[..|read|] == read;
    forall k | k in after2
      ensures after2[k] == Get(letters20, k) + CountChar(read + [c], k)
    {
      assert CountChar(read + [c], k) == CountChar(read, k) + if c == k then 1 else 0;
      if k != c {
        assert k in letters2;
      } else if k !in letters2 {
        CountCharAbsent(read, k);
      }
    }
  }

  /** The maps hold the state of the open group after reading `ls`. */
  ghost predicate Mirrors(letters: map<char, bool>, letters2: map<char, int>, ls: seq<string>)
  {
    && letters.Keys == Keys(ls)
    && letters2.Keys == Keys(ls)
    && (forall k :: k in letters ==> letters[k] == (k in Chars(Pending(ls))))
    && (forall k :: k in letters2 ==> letters2[k] == Occ(Pending(ls), k))
  }

  lemma {:induction false} CountCharAbsent(s: string, k: char)
    requires k !in s
    ensures CountChar(s, k) == 0
  {
    if s != [] {
      assert forall c :: c in s[..|s| - 1] ==> c in s;
      CountCharAbsent(s[..|s| - 1], k);
    }
  }

  lemma {:induction false} OccAbsent(group: seq<string>, k: char)
    requires k !in Chars(group)
    ensures Occ(group, k) == 0
  {
    if group != [] {
      OccAbsent(group[..|group| - 1], k);
      CountCharAbsent(group[|group| - 1], k);
    }
  }

  /** The characters of the open group were all seen. */
  lemma {:induction false} PendingWithinChars(ls: seq<string>)
    ensures Chars(Pending(ls)) <= Chars(ls)
  {
    if ls != [] && ls[|ls| - 1] != "" {
      var p := ls[..|ls| - 1];
      PendingWithinChars(p);
      assert (Pending(p) + [ls[|ls| - 1]])[..|Pending(p)|] == Pending(p);
    }
  }

  /** Reading one more line: how the open group and the keys change. */
  lemma AppendLine(ls: seq<string>, l: string)
    ensures Pending(ls + [l]) == if l == "" then [] else Pending(ls) + [l]
    ensures Keys(ls + [l]) == Keys(ls) + CharSet(l)
    ensures Total1(ls + [l]) == Total1(ls) + if l == "" then |Chars(Pending(ls))| else 0
    ensures Total2(ls + [l]) == Total2(ls) + if l == "" then |FullTally(ls)| else 0
  {
    assert (ls + [l])[..|ls|] == ls;
  }

  /** Reading one more line: which groups are closed. */
  lemma AppendLineCloses(ls: seq<string>, l: string)
    ensures Pending(ls + [l]) == if l == "" then [] else Pending(ls) + [l]
    ensures Closed(ls + [l]) == if l == "" then Closed(ls) + [Pending(ls)] else Closed(ls)
  {
    assert (ls + [l])[..|ls|] == ls;
  }

  lemma AppendToGroup(group: seq<string>, l: string)
    ensures Chars(group + [l]) == Chars(group) + CharSet(l)
    ensures forall k :: Occ(group + [l], k) == Occ(group, k) + CountChar(l, k)
  {
    assert (group + [l])[..|group|] == group;
  }

  /** At a blank line, the two counts over the maps are the open group's characters and its full tally. */
  lemma CloseGroup(letters: map<char, bool>, letters2: map<char, int>, ls: seq<string>)
    requires Mirrors(letters, letters2, ls)
    ensures TrueKeys(letters, letters.Keys) == Chars(Pending(ls))
    ensures KeysWithValue(letters2, letters2.Keys, |Pending(ls)|) == FullTally(ls)
  {
    PendingWithinChars(ls);
  }

  /** After the resets the maps hold the empty group that a blank line opens. */
  lemma ResetOpensGroup(letters: map<char, bool>, letters2: map<char, int>, ls: seq<string>)
    requires letters.Keys == Keys(ls) && forall k :: k in letters ==> !letters[k]
    requires letters2.Keys == Keys(ls) && forall k :: k in letters2 ==> letters2[k] == 0
    ensures Mirrors(letters, letters2, ls + [""])
  {
    AppendLine(ls, "");
  }

  /** Marking a non-blank line extends the open group by that line. */
  lemma MarkExtendsGroup(letters: map<char, bool>, letters2: map<char, int>, ls: seq<string>, l: string,
                         letters': map<char, bool>, letters2': map<char, int>)
    requires l != "" && Mirrors(letters, letters2, ls)
    requires letters'.Keys == letters.Keys + CharSet(l)
    requires forall k :: k in letters' ==> letters'[k] == ((k in letters && letters[k]) || k in l)
    requires letters2'.Keys == letters2.Keys + CharSet(l)
    requires forall k :: k in letters2' ==> letters2'[k] == Get(letters2, k) + CountChar(l, k)
    ensures Mirrors(letters', letters2', ls + [l])
  {
    AppendLine(ls, l);
    AppendToGroup(Pending(ls), l);
    PendingWithinChars(ls);
    forall k | k in letters2'
      ensures letters2'[k] == Occ(Pending(ls + [l]), k)
    {
      if k !in letters2 {
        OccAbsent(Pending(ls), k);
      }
    }
  }

  /** The fresh maps hold the empty group before any line is read. */
  lemma NothingReadMirrors(letters: map<char, bool>, letters2: map<char, int>)
    requires letters == map c | c in Alphabet :: false
    requires letters2 == map c | c in Alphabet :: 0
    ensures Mirrors(letters, letters2, [])
  {
  }

  /**
   * The blank-line branch of the group loop: tally both maps, then reset
   * them, which opens a new, empty group.
   */
  method CloseGroupAndReset(answers: Answers, ghost ls: seq<string>, round2Answerers: int)
    returns (group1Count: nat, group2Count: nat)
    requires Mirrors(answers.letters, answers.letters2, ls) && round2Answerers == |Pending(ls)|
    modifies answers
    ensures group1Count == |Chars(Pending(ls))| && group2Count == |FullTally(ls)|
    ensures Mirrors(answers.letters, answers.letters2, ls + [""])
  {
    CloseGroup(answers.letters, answers.letters2, ls);
    group1Count := answers.CountGroup1Responses();
    group2Count := answers.CountGroup2Responses(round2Answerers);
    answers.LettersReset();
    answers.Letters2Reset();
    ResetOpensGroup(answers.letters, answers.letters2, ls);
  }

  /** The answer-line branch of the group loop: mark the line's characters, extending the open group. */
  method MarkAnswerLine(answers: Answers, ghost ls: seq<string>, line: string)
    requires line != "" && Mirrors(answers.letters, answers.letters2, ls)
    modifies answers
    ensures Mirrors(answers.letters, answers.letters2, ls + [line])
  {
    ghost var before1, before2 := answers.letters, answers.letters2;
    answers.Mark(line);
    MarkExtendsGroup(before1, before2, ls, line, answers.letters, answers.letters2);
  }

  /** The loop state of the group loop mirrors the lines `ls` read so far. */
  ghost predicate Tallied(letters: map<char, bool>, letters2: map<char, int>, round2Answerers: int,
                          totalRound1Count: int, totalRound2Count: int, ls: seq<string>)
  {
    && Mirrors(letters, letters2, ls)
    && round2Answerers == |Pending(ls)|
    && totalRound1Count == Total1(ls)
    && totalRound2Count == Total2(ls)
  }

  /**
   * One pass of the group loop: a non-blank line counts one more answerer
   * and marks its characters; a blank line adds the two group counts to the
   * totals and resets both maps and the answerer count.
   */
  method ReadGroupLine(answers: Answers, ghost ls: seq<string>, line: string,
                       round2Answerers: nat, totalRound1Count: nat, totalRound2Count: nat)
    returns (round2Answerers': nat, totalRound1Count': nat, totalRound2Count': nat)
    requires Tallied(answers.letters, answers.letters2, round2Answerers, totalRound1Count, totalRound2Count, ls)
    modifies answers
    ensures Tallied(answers.letters, answers.letters2, round2Answerers', totalRound1Count', totalRound2Count', ls + [line])
  {
    AppendLine(ls, line);
    if line == "" {
      var group1Count, group2Count := CloseGroupAndReset(answers, ls, round2Answerers);
      totalRound1Count' := totalRound1Count + group1Count;
      totalRound2Count' := totalRound2Count + group2Count;
      round2Answerers' := 0;
    } else {
      totalRound1Count', totalRound2Count' := totalRound1Count, totalRound2Count;
      round2Answerers' := round2Answerers + 1;
      MarkAnswerLine(answers, ls, line);
    }
  }

  /** The group loop of the program, over every line of the input. */
  method TallyGroups(rawData: seq<string>) returns (totalRound1Count: nat, totalRound2Count: nat)
    ensures totalRound1Count == Total1(rawData)
    ensures totalRound2Count == Total2(rawData)
  {
    totalRound1Count, totalRound2Count := 0, 0;
    var round2Answerers := 0;
    var answers := new Answers();
    assert rawData[..0] == [];
    NothingReadMirrors(answers.letters, answers.letters2);
    for i := 0 to |rawData|
      invariant Tallied(answers.letters, answers.letters2, round2Answerers, totalRound1Count, totalRound2Count, rawData[..i])
    {
      assert rawData[..i + 1] == rawData[..i] + [rawData[i]];
      round2Answerers, totalRound1Count, totalRound2Count :=
        ReadGroupLine(answers, rawData[..i], rawData[i], round2Answerers, totalRound1Count, totalRound2Count);
    }
    assert rawData[..|rawData|] == rawData;
  }

  /** Round 1 is the sum, over the groups a blank line closed, of how many questions anyone answered. */
  lemma {:induction false} Total1IsSumOfUnions(ls: seq<string>)
    ensures Total1(ls) == SumUnions(Closed(ls))
  {
    if ls != [] {
      var p, l := ls[..|ls| - 1], ls[|ls| - 1];
      assert ls == p + [l];
      Total1IsSumOfUnions(p);
      if l == "" {
        assert (Closed(p) + [Pending(p)])[..|Closed(p)|] == Closed(p);
      }
    }
  }

  lemma {:induction false} CountCharNoRepeats(s: string, k: char)
    requires NoRepeats(s)
    ensures CountChar(s, k) == if k in s then 1 else 0
  {
    if s != [] {
      var p := s[..|s| - 1];
      assert NoRepeats(p);
      CountCharNoRepeats(p, k);
      assert s == p + [s[|s| - 1]];
      if s[|s| - 1] == k {
        assert k !in p;
      }
    }
  }

  /** With no repeated answer in a line, a tally equals the group size exactly when every line holds the key. */
  lemma {:induction false} TallyFullIffEveryLine(group: seq<string>, k: char)
    requires forall l :: l in group ==> NoRepeats(l)
    ensures Occ(group, k) <= |group|
    ensures Occ(group, k) == |group| <==> forall l :: l in group ==> k in l
  {
    if group != [] {
      var q, l := group[..|group| - 1], group[|group| - 1];
      assert group == q + [l];
      TallyFullIffEveryLine(q, k);
      CountCharNoRepeats(l, k);
    }
  }

  lemma {:induction false} CharsHoldLines(group: seq<string>, l: string, c: char)
    requires l in group && c in l
    ensures c in Chars(group)
  {
    var q := group[..|group| - 1];
    if l != group[|group| - 1] {
      assert group == q + [group[|group| - 1]];
      CharsHoldLines(q, l, c);
    }
  }

  /** For a non-empty group whose lines repeat no answer, the full tally is the intersection. */
  lemma FullTallyIsIntersection(ls: seq<string>)
    requires Pending(ls) != []
    requires forall l :: l in Pending(ls) ==> NoRepeats(l)
    ensures FullTally(ls) == Intersection(Pending(ls))
  {
    var g := Pending(ls);
    PendingWithinChars(ls);
    forall k | k in Keys(ls)
      ensures (Occ(g, k) == |g|) == (k in Intersection(g))
    {
      TallyFullIffEveryLine(g, k);
      if forall l :: l in g ==> k in l {
        CharsHoldLines(g, g[0], k);
      }
    }
    forall k | k in Intersection(g)
      ensures k in Keys(ls)
    {
    }
  }

  lemma {:induction false} PendingLinesRead(ls: seq<string>)
    ensures forall l :: l in Pending(ls) ==> l in ls
  {
    if ls != [] && ls[|ls| - 1] != "" {
      var p := ls[..|ls| - 1];
      PendingLinesRead(p);
      assert ls == p + [ls[|ls| - 1]];
    }
  }

  /**
   * Round 2 is the sum, over the closed groups, of how many questions
   * everyone answered, provided no closed group is empty and no line repeats
   * an answer.
   */
  lemma {:induction false} Total2IsSumOfIntersections(ls: seq<string>)
    requires forall l :: l in ls ==> NoRepeats(l)
    requires NoEmptyGroup(Closed(ls))
    ensures Total2(ls) == SumIntersections(Closed(ls))
  {
    if ls != [] {
      var p, l := ls[..|ls| - 1], ls[|ls| - 1];
      assert ls == p + [l];
      assert forall g :: g in Closed(p) ==> g in Closed(ls);
      Total2IsSumOfIntersections(p);
      if l == "" {
        assert Pending(p) in Closed(ls);
        PendingLinesRead(p);
        FullTallyIsIntersection(p);
        assert (Closed(p) + [Pending(p)])[..|Closed(p)|] == Closed(p);
      }
    }
  }

  /** A blank line closing an empty group adds every key to round 2: each tally is 0, as is the answerer count. */
  lemma EmptyGroupCountsEveryKey(ls: seq<string>)
    requires Pending(ls) == []
    ensures Total2(ls + [""]) == Total2(ls) + |Keys(ls)|
  {
    AppendLine(ls, "");
    assert FullTally(ls) == Keys(ls);
  }

  /** Lines after the last blank line add nothing: a final group without a blank line is not counted. */
  lemma UnterminatedGroupNotCounted(ls: seq<string>, l: string)
    requires l != ""
    ensures Total1(ls + [l]) == Total1(ls) && Total2(ls + [l]) == Total2(ls)
  {
    AppendLine(ls, l);
  }

  /** Reading a group's non-blank lines after a blank line: they become the open group and close nothing. */
  lemma {:induction false} ReadLines(ls: seq<string>, g: seq<string>)
    requires Pending(ls) == []
    requires forall l :: l in g ==> l != ""
    ensures Pending(ls + g) == g && Closed(ls + g) == Closed(ls)
  {
    if g == [] {
      assert ls + g == ls;
    } else {
      var q, l := g[..|g| - 1], g[|g| - 1];
      assert g == q + [l];
      assert forall x :: x in q ==> x in g;
      assert l in g;
      ReadLines(ls, q);
      assert ls + g == (ls + q) + [l];
      AppendLineCloses(ls + q, l);
      assert Pending((ls + q) + [l]) == q + [l];
    }
  }

  /** The example of the puzzle text: five groups, each ending with a blank line. */
  const DocumentedAnswers: seq<string> :=
    ["abc", "", "a", "b", "c", "", "ab", "ac", "", "a", "a", "a", "a", "", "b", ""]

  lemma {:induction false} OneLineGroup(l: string)
    ensures Chars([l]) == CharSet(l)
    ensures Intersection([l]) == CharSet(l)
  {
    assert [l][..0] == [];
  }

  /** Adding a line to a non-empty group intersects its common answers with that line's. */
  lemma IntersectionAppend(g: seq<string>, l: string)
    requires g != []
    ensures Intersection(g + [l]) == Intersection(g) * CharSet(l)
  {
    AppendToGroup(g, l);
    forall c | c in Intersection(g)
      ensures c in Chars(g)
    {
    }
    forall c | c in Intersection(g) * CharSet(l)
      ensures c in Intersection(g + [l])
    {
      assert forall l' :: l' in g + [l] ==> l' in g || l' == l;
    }
    forall c | c in Intersection(g + [l])
      ensures c in Intersection(g)
    {
      CharsHoldLines(g, g[0], c);
    }
  }

  lemma DocumentedGroup1()
    ensures |Chars(["abc"])| == 3 && |Intersection(["abc"])| == 3
  {
    OneLineGroup("abc");
    assert CharSet("abc") == {'a', 'b', 'c'};
  }

  lemma DocumentedGroup2Start()
    ensures Chars(["a", "b"]) == {'a', 'b'} && Intersection(["a", "b"]) == {}
  {
    OneLineGroup("a");
    AppendToGroup(["a"], "b");
    IntersectionAppend(["a"], "b");
    assert ["a"] + ["b"] == ["a", "b"];
    assert CharSet("a") == {'a'} && CharSet("b") == {'b'};
  }

  lemma DocumentedGroup2()
    ensures |Chars(["a", "b", "c"])| == 3 && |Intersection(["a", "b", "c"])| == 0
  {
    DocumentedGroup2Start();
    AppendToGroup(["a", "b"], "c");
    IntersectionAppend(["a", "b"], "c");
    assert ["a", "b"] + ["c"] == ["a", "b", "c"];
    assert CharSet("c") == {'c'};
    assert {'a', 'b'} + {'c'} == {'a', 'b', 'c'};
  }

  lemma DocumentedGroup3()
    ensures |Chars(["ab", "ac"])| == 3 && |Intersection(["ab", "ac"])| == 1
  {
    OneLineGroup("ab");
    AppendToGroup(["ab"], "ac");
    IntersectionAppend(["ab"], "ac");
    assert ["ab"] + ["ac"] == ["ab", "ac"];
    assert CharSet("ab") == {'a', 'b'} && CharSet("ac") == {'a', 'c'};
    assert {'a', 'b'} + {'a', 'c'} == {'a', 'b', 'c'};
    assert {'a', 'b'} * {'a', 'c'} == {'a'};
  }

  lemma DocumentedGroup4()
    ensures |Chars(["a", "a", "a", "a"])| == 1 && |Intersection(["a", "a", "a", "a"])| == 1
  {
    OneLineGroup("a");
    AppendToGroup(["a"], "a");
    IntersectionAppend(["a"], "a");
    assert ["a"] + ["a"] == ["a", "a"];
    AppendToGroup(["a", "a"], "a");
    IntersectionAppend(["a", "a"], "a");
    assert ["a", "a"] + ["a"] == ["a", "a", "a"];
    AppendToGroup(["a", "a", "a"], "a");
    IntersectionAppend(["a", "a", "a"], "a");
    assert ["a", "a", "a"] + ["a"] == ["a", "a", "a", "a"];
    assert CharSet("a") == {'a'};
  }

  lemma DocumentedGroup5()
    ensures |Chars(["b"])| == 1 && |Intersection(["b"])| == 1
  {
    OneLineGroup("b");
    assert CharSet("b") == {'b'};
  }

  lemma DocumentedNoRepeats()
    ensures forall l :: l in DocumentedAnswers ==> NoRepeats(l)
  {
    assert NoRepeats("abc") && NoRepeats("ab") && NoRepeats("ac");
    assert NoRepeats("a") && NoRepeats("b") && NoRepeats("c") && NoRepeats("");
  }

  lemma SumsAppend(gs: seq<seq<string>>, g: seq<string>)
    ensures SumUnions(gs + [g]) == SumUnions(gs) + |Chars(g)|
    ensures SumIntersections(gs + [g]) == SumIntersections(gs) + |Intersection(g)|
  {
    assert (gs + [g])[..|gs|] == gs;
  }

  /** Reading one more documented group and its blank line adds its sizes to the sums and closes it. */
  lemma ReadDocumentedGroup(ls: seq<string>, g: seq<string>, union: nat, common: nat)
    requires Pending(ls) == [] && g != []
    requires forall l :: l in g ==> l != ""
    requires |Chars(g)| == union && |Intersection(g)| == common
    ensures Pending(ls + g + [""]) == []
    ensures SumUnions(Closed(ls + g + [""])) == SumUnions(Closed(ls)) + union
    ensures SumIntersections(Closed(ls + g + [""])) == SumIntersections(Closed(ls)) + common
    ensures NoEmptyGroup(Closed(ls)) ==> NoEmptyGroup(Closed(ls + g + [""]))
  {
    ReadLines(ls, g);
    AppendLineCloses(ls + g, "");
    SumsAppend(Closed(ls), g);
  }

  lemma DocumentedLayout(g1: seq<string>, g2: seq<string>, g3: seq<string>, g4: seq<string>, g5: seq<string>)
    requires g1 == ["abc"] && g2 == ["a", "b", "c"] && g3 == ["ab", "ac"]
    requires g4 == ["a", "a", "a", "a"] && g5 == ["b"]
    ensures [] + g1 + [""] + g2 + [""] + g3 + [""] + g4 + [""] + g5 + [""] == DocumentedAnswers
  {
  }

  /** The first documented group: 3 answers anyone gave, 3 everyone gave. */
  lemma DocumentedGroup1Read(ls: seq<string>, g: seq<string>)
    requires Pending(ls) == []
    requires g == ["abc"]
    ensures Pending(ls + g + [""]) == []
    ensures SumUnions(Closed(ls + g + [""])) == SumUnions(Closed(ls)) + 3
    ensures SumIntersections(Closed(ls + g + [""])) == SumIntersections(Closed(ls)) + 3
    ensures NoEmptyGroup(Closed(ls)) ==> NoEmptyGroup(Closed(ls + g + [""]))
  {
    DocumentedGroup1();
    ReadDocumentedGroup(ls, g, 3, 3);
  }

  /** The second documented group: 3 answers anyone gave, 0 everyone gave. */
  lemma DocumentedGroup2Read(ls: seq<string>, g: seq<string>)
    requires Pending(ls) == []
    requires g == ["a", "b", "c"]
    ensures Pending(ls + g + [""]) == []
    ensures SumUnions(Closed(ls + g + [""])) == SumUnions(Closed(ls)) + 3
    ensures SumIntersections(Closed(ls + g + [""])) == SumIntersections(Closed(ls)) + 0
    ensures NoEmptyGroup(Closed(ls)) ==> NoEmptyGroup(Closed(ls + g + [""]))
  {
    DocumentedGroup2();
    ReadDocumentedGroup(ls, g, 3, 0);
  }

  /** The third documented group: 3 answers anyone gave, 1 everyone gave. */
  lemma DocumentedGroup3Read(ls: seq<string>, g: seq<string>)
    requires Pending(ls) == []
    requires g == ["ab", "ac"]
    ensures Pending(ls + g + [""]) == []
    ensures SumUnions(Closed(ls + g + [""])) == SumUnions(Closed(ls)) + 3
    ensures SumIntersections(Closed(ls + g + [""])) == SumIntersections(Closed(ls)) + 1
    ensures NoEmptyGroup(Closed(ls)) ==> NoEmptyGroup(Closed(ls + g + [""]))
  {
    DocumentedGroup3();
    ReadDocumentedGroup(ls, g, 3, 1);
  }

  /** The fourth documented group: 1 answers anyone gave, 1 everyone gave. */
  lemma DocumentedGroup4Read(ls: seq<string>, g: seq<string>)
    requires Pending(ls) == []
    requires g == ["a", "a", "a", "a"]
    ensures Pending(ls + g + [""]) == []
    ensures SumUnions(Closed(ls + g + [""])) == SumUnions(Closed(ls)) + 1
    ensures SumIntersections(Closed(ls + g + [""])) == SumIntersections(Closed(ls)) + 1
    ensures NoEmptyGroup(Closed(ls)) ==> NoEmptyGroup(Closed(ls + g + [""]))
  {
    DocumentedGroup4();
    ReadDocumentedGroup(ls, g, 1, 1);
  }

  /** The fifth documented group: 1 answers anyone gave, 1 everyone gave. */
  lemma DocumentedGroup5Read(ls: seq<string>, g: seq<string>)
    requires Pending(ls) == []
    requires g == ["b"]
    ensures Pending(ls + g + [""]) == []
    ensures SumUnions(Closed(ls + g + [""])) == SumUnions(Closed(ls)) + 1
    ensures SumIntersections(Closed(ls + g + [""])) == SumIntersections(Closed(ls)) + 1
    ensures NoEmptyGroup(Closed(ls)) ==> NoEmptyGroup(Closed(ls + g + [""]))
  {
    DocumentedGroup5();
    ReadDocumentedGroup(ls, g, 1, 1);
  }

  /** The documented groups have 3, 3, 3, 1, 1 answers anyone gave and 3, 0, 1, 1, 1 everyone gave. */
  lemma DocumentedSums()
    ensures SumUnions(Closed(DocumentedAnswers)) == 11
    ensures SumIntersections(Closed(DocumentedAnswers)) == 6
    ensures NoEmptyGroup(Closed(DocumentedAnswers))
  {
    var g1: seq<string> := ["abc"];
    var g2: seq<string> := ["a", "b", "c"];
    var g3: seq<string> := ["ab", "ac"];
    var g4: seq<string> := ["a", "a", "a", "a"];
    var g5: seq<string> := ["b"];
    var s0: seq<string> := [];
    assert Pending(s0) == [] && Closed(s0) == [];
    DocumentedGroup1Read(s0, g1);
    var s1 := s0 + g1 + [""];
    DocumentedGroup2Read(s1, g2);
    var s2 := s1 + g2 + [""];
    DocumentedGroup3Read(s2, g3);
    var s3 := s2 + g3 + [""];
    DocumentedGroup4Read(s3, g4);
    var s4 := s3 + g4 + [""];
    DocumentedGroup5Read(s4, g5);
    DocumentedLayout(g1, g2, g3, g4, g5);
  }

  /** The documented totals: 3 + 3 + 3 + 1 + 1 = 11 in round 1 and 3 + 0 + 1 + 1 + 1 = 6 in round 2. */
  lemma DocumentedTotals()
    ensures Total1(DocumentedAnswers) == 11
    ensures Total2(DocumentedAnswers) == 6
  {
    Total1IsSumOfUnions(DocumentedAnswers);
    DocumentedSums();
    DocumentedNoRepeats();
    Total2IsSumOfIntersections(DocumentedAnswers);
  }
}
