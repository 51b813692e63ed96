/**
 * Passport processing (day04/day04.go): a batch of lines holds passports as
 * space-separated "key:value" tokens; passports are separated by blank
 * lines. Each passport only records which of the eight fields are present,
 * and a passport is valid when every field except `cid` is present.
 */
module PassportProcessing {

  /** Which fields a passport has; the values are not kept. */
  datatype Passport = Passport(byr: bool, iyr: bool, eyr: bool, hgt: bool,
                               hcl: bool, ecl: bool, pid: bool, cid: bool)

  /** A record no line has touched: the zero value of the struct. */
  const Blank := Passport(false, false, false, false, false, false, false, false)

  /** The number of records the database holds. */
  const DatabaseSize := 500

  /** The eight field names the program recognises. */
  predicate IsField(name: string)
  {
    name in {"byr", "iyr", "eyr", "hgt", "hcl", "ecl", "pid", "cid"}
  }

  /** Whether the passport has the field called `name`; unknown names are never present. */
  predicate Has(p: Passport, name: string)
  {
    if name == "byr" then p.byr
    else if name == "iyr" then p.iyr
    else if name == "eyr" then p.eyr
    else if name == "hgt" then p.hgt
    else if name == "hcl" then p.hcl
    else if name == "ecl" then p.ecl
    else if name == "pid" then p.pid
    else if name == "cid" then p.cid
    else false
  }

  /** The eight field names are pairwise different. */
  lemma FieldNamesDistinct()
    ensures "byr" != "iyr" && "byr" != "eyr" && "byr" != "hgt" && "byr" != "hcl"
    ensures "byr" != "ecl" && "byr" != "pid" && "byr" != "cid" && "iyr" != "eyr"
    ensures "iyr" != "hgt" && "iyr" != "hcl" && "iyr" != "ecl" && "iyr" != "pid"
    ensures "iyr" != "cid" && "eyr" != "hgt" && "eyr" != "hcl" && "eyr" != "ecl"
    ensures "eyr" != "pid" && "eyr" != "cid" && "hgt" != "hcl" && "hgt" != "ecl"
    ensures "hgt" != "pid" && "hgt" != "cid" && "hcl" != "ecl" && "hcl" != "pid"
    ensures "hcl" != "cid" && "ecl" != "pid" && "ecl" != "cid" && "pid" != "cid"
  {
  }

  /** A passport is determined by which of the eight fields it has. */
  lemma HasDetermines(p: Passport, q: Passport)
    requires forall name :: Has(p, name) == Has(q, name)
    ensures p == q
  {
    assert Has(p, "byr") == Has(q, "byr") && Has(p, "iyr") == Has(q, "iyr");
    assert Has(p, "eyr") == Has(q, "eyr") && Has(p, "hgt") == Has(q, "hgt");
    assert Has(p, "hcl") == Has(q, "hcl") && Has(p, "ecl") == Has(q, "ecl");
    assert Has(p, "pid") == Has(q, "pid") && Has(p, "cid") == Has(q, "cid");
  }

  /**
   * `strings.Split(s, sep)`: the pieces between separators, one more piece
   * than there are separators, empty pieces included.
   */
  function SplitOn(s: string, sep: char): (pieces: seq<string>)
    ensures |pieces| >= 1
    ensures forall piece :: piece in pieces ==> sep !in piece
    ensures pieces[0] <= s
    ensures |pieces[0]| < |s| ==> s[|pieces[0]|] == sep
  {
    if s == [] then [""]
    else
      var rest := SplitOn(s[1..], sep);
      if s[0] == sep then [""] + rest
      else
        assert forall piece :: piece in rest[1..] ==> piece in rest;
        [[s[0]] + rest[0]] + rest[1..]
  }

  /** `strings.Join(pieces, sep)`. */
  function Join(pieces: seq<string>, sep: char): string
    requires |pieces| >= 1
  {
    if |pieces| == 1 then pieces[0] else pieces[0] + [sep] + Join(pieces[1..], sep)
  }

  /** Joining the pieces again gives back the split string. */
  lemma {:induction false} JoinSplit(s: string, sep: char)
    ensures Join(SplitOn(s, sep), sep) == s
  {
    if s != [] {
      JoinSplit(s[1..], sep);
      var rest := SplitOn(s[1..], sep);
      if s[0] == sep {
        assert ([""] + rest)[1..] == rest;
      } else {
        var pieces := [[s[0]] + rest[0]] + rest[1..];
        if |rest| > 1 {
          assert pieces[1..] == rest[1..];
        }
      }
    }
  }

  lemma {:induction false} SplitWithoutSep(a: string, sep: char)
    requires sep !in a
    ensures SplitOn(a, sep) == [a]
  {
    if a != [] {
      assert sep !in a[1..] by { assert forall c :: c in a[1..] ==> c in a; }
      SplitWithoutSep(a[1..], sep);
      assert [a[0]] + a[1..] == a;
    }
  }

  /** A leading separator splits off an empty piece. */
  lemma SplitSepFirst(t: string, sep: char)
    ensures SplitOn([sep] + t, sep) == [""] + SplitOn(t, sep)
  {
    assert ([sep] + t)[1..] == t;
  }

  /** A leading character other than the separator joins the first piece. */
  lemma SplitCharFirst(c: char, t: string, sep: char)
    requires c != sep
    ensures SplitOn([c] + t, sep) == [[c] + SplitOn(t, sep)[0]] + SplitOn(t, sep)[1..]
  {
    assert ([c] + t)[1..] == t;
  }

  lemma {:induction false} SplitAtFirstSep(a: string, b: string, sep: char)
    requires sep !in a
    ensures SplitOn(a + [sep] + b, sep) == [a] + SplitOn(b, sep)
  {
    if a == [] {
      assert a + [sep] + b == [sep] + b;
      SplitSepFirst(b, sep);
    } else {
      assert sep !in a[1..] by { assert forall c :: c in a[1..] ==> c in a; }
      SplitAtFirstSep(a[1..], b, sep);
      var tail := a[1..] + [sep] + b;
      assert a + [sep] + b == [a[0]] + tail;
      SplitCharFirst(a[0], tail, sep);
      assert [a[0]] + a[1..] == a;
    }
  }

  /** Splitting a join of separator-free pieces gives back the pieces. */
  lemma {:induction false} SplitJoin(pieces: seq<string>, sep: char)
    requires |pieces| >= 1
    requires forall piece :: piece in pieces ==> sep !in piece
    ensures SplitOn(Join(pieces, sep), sep) == pieces
  {
    if |pieces| == 1 {
      SplitWithoutSep(pieces[0], sep);
    } else {
      assert forall piece :: piece in pieces[1..] ==> piece in pieces;
      SplitJoin(pieces[1..], sep);
      SplitAtFirstSep(pieces[0], Join(pieces[1..], sep), sep);
      assert [pieces[0]] + pieces[1..] == pieces;
    }
  }

  /** The key of a "key:value" token: `words[0]` of its split at ':', the text before the first ':'. */
  function KeyOf(token: string): (key: string)
    ensures key <= token && ':' !in key
    ensures |key| < |token| ==> token[|key|] == ':'
  {
    SplitOn(token, ':')[0]
  }

  lemma KeyOfPair(key: string, value: string)
    requires ':' !in key
    ensures KeyOf(key + ":" + value) == key
  {
    SplitAtFirstSep(key, value, ':');
  }

  /** The switch on a token's key: set the field of that name; an unknown key changes nothing. */
  function MarkField(p: Passport, key: string): (r: Passport)
    ensures forall name :: Has(r, name) == (Has(p, name) || (name == key && IsField(key)))
    ensures !IsField(key) ==> r == p
  {
    FieldNamesDistinct();
    if key == "byr" then p.(byr := true)
    else if key == "iyr" then p.(iyr := true)
    else if key == "eyr" then p.(eyr := true)
    else if key == "hgt" then p.(hgt := true)
    else if key == "hcl" then p.(hcl := true)
    else if key == "ecl" then p.(ecl := true)
    else if key == "pid" then p.(pid := true)
    else if key == "cid" then p.(cid := true)
    else p
  }

  /** Marks the key of each token in turn. */
  function MarkTokens(p: Passport, tokens: seq<string>): Passport
  {
    if tokens == [] then p else MarkField(MarkTokens(p, tokens[..|tokens| - 1]), KeyOf(tokens[|tokens| - 1]))
  }

  /** The keys of a line's tokens. */
  function LineKeys(line: string): set<string>
  {
    set t | t in SplitOn(line, ' ') :: KeyOf(t)
  }

  /** The number of blank lines in `ls`: the record number reached after reading them. */
  function Blanks(ls: seq<string>): nat
  {
    if ls == [] then 0 else Blanks(ls[..|ls| - 1]) + if ls[|ls| - 1] == "" then 1 else 0
  }

  /** Record `r` after reading `ls`: marked by the tokens of the non-blank lines read while the record number was `r`. */
  function Record(ls: seq<string>, r: nat): Passport
  {
    if ls == [] then Blank
    else
      var prev, line := ls[..|ls| - 1], ls[|ls| - 1];
      if line != "" && Blanks(prev) == r then MarkTokens(Record(prev, r), SplitOn(line, ' '))
      else Record(prev, r)
  }

  /** Records 0 .. n-1 after reading `ls`. */
  function Records(ls: seq<string>, n: nat): (rs: seq<Passport>)
    ensures |rs| == n
  {
    if n == 0 then [] else Records(ls, n - 1) + [Record(ls, n - 1)]
  }

  /** The validity test: all seven fields other than `cid` present. */
  predicate Valid(p: Passport)
  {
    p.byr && p.iyr && p.eyr && p.hgt && p.hcl && p.ecl && p.pid
  }

  /** The number of valid records. */
  function CountValid(rs: seq<Passport>): (n: nat)
    ensures n <= |rs|
  {
    if rs == [] then 0 else CountValid(rs[..|rs| - 1]) + if Valid(rs[|rs| - 1]) then 1 else 0
  }

  /** A token sets exactly the field its key names, and fields already set stay set. */
  lemma {:induction false} MarkTokensHas(p: Passport, tokens: seq<string>, name: string)
    ensures Has(MarkTokens(p, tokens), name)
            <==> Has(p, name) || (IsField(name) && exists t :: t in tokens && KeyOf(t) == name)
  {
    if tokens != [] {
      var init := tokens[..|tokens| - 1];
      MarkTokensHas(p, init, name);
      assert tokens == init + [tokens[|tokens| - 1]];
    }
  }

  lemma ReadLine(ls: seq<string>, line: string, r: nat)
    ensures Blanks(ls + [line]) == Blanks(ls) + if line == "" then 1 else 0
    ensures Record(ls + [line], r)
            == if line != "" && Blanks(ls) == r then MarkTokens(Record(ls, r), SplitOn(line, ' ')) else Record(ls, r)
  {
    assert (ls + [line])[..|ls|] == ls;
  }

  /**
   * Record `r` has field `name` exactly when `name` is one of the eight
   * fields and some non-blank line read while the record number was `r`
   * holds a token with that key.
   */
  lemma {:induction false} RecordHas(ls: seq<string>, r: nat, name: string)
    ensures Has(Record(ls, r), name)
            <==> IsField(name)
                 && exists i :: 0 <= i < |ls| && ls[i] != "" && Blanks(ls[..i]) == r && name in LineKeys(ls[i])
  {
    if ls != [] {
      var prev, line := ls[..|ls| - 1], ls[|ls| - 1];
      RecordHas(prev, r, name);
      assert ls == prev + [line];
      ReadLine(prev, line, r);
      if line != "" && Blanks(prev) == r {
        MarkTokensHas(Record(prev, r), SplitOn(line, ' '), name);
        if exists t :: t in SplitOn(line, ' ') && KeyOf(t) == name {
          assert ls[..|ls| - 1] == prev;
        }
        if name in LineKeys(line) {
          var t :| t in SplitOn(line, ' ') && KeyOf(t) == name;
        }
      }
      if exists i :: 0 <= i < |ls| && ls[i] != "" && Blanks(ls[..i]) == r && name in LineKeys(ls[i]) {
        var i :| 0 <= i < |ls| && ls[i] != "" && Blanks(ls[..i]) == r && name in LineKeys(ls[i]);
        if i < |prev| {
          assert ls[..i] == prev[..i];
        }
      }
      forall i | 0 <= i < |prev|
        ensures prev[..i] == ls[..i] && prev[i] == ls[i]
      {
      }
    }
  }

  /** A record beyond the current record number has not been touched. */
  lemma {:induction false} RecordUnreached(ls: seq<string>, r: nat)
    requires Blanks(ls) < r
    ensures Record(ls, r) == Blank
  {
    if ls != [] {
      var prev := ls[..|ls| - 1];
      RecordUnreached(prev, r);
    }
  }

  /** The validity test ignores `cid`. */
  lemma ValidIgnoresCid(p: Passport, present: bool)
    ensures Valid(p.(cid := present)) == Valid(p)
  {
  }

  /** Valid exactly when the seven fields other than `cid` are all present. */
  lemma ValidIffRequiredFields(p: Passport)
    ensures Valid(p) <==> forall name :: IsField(name) && name != "cid" ==> Has(p, name)
  {
    if !Valid(p) {
      var missing := if !p.byr then "byr" else if !p.iyr then "iyr" else if !p.eyr then "eyr"
                     else if !p.hgt then "hgt" else if !p.hcl then "hcl" else if !p.ecl then "ecl" else "pid";
      assert IsField(missing) && missing != "cid" && !Has(p, missing);
    }
  }

  /** Only records 0 .. Blanks(ls) can be valid, so at most that many are counted. */
  lemma CountValidReached(ls: seq<string>, n: nat)
    ensures CountValid(Records(ls, n)) <= Blanks(ls) + 1
    ensures n > Blanks(ls) ==> CountValid(Records(ls, n)) == CountValid(Records(ls, Blanks(ls) + 1))
  {
    var reached := Blanks(ls) + 1;
    if n > reached {
      RecordsPrefix(ls, n, reached);
      forall i | reached <= i < n
        ensures Records(ls, n)[i] == Blank
      {
        RecordUnreached(ls, i);
      }
      CountValidBlankTail(Records(ls, n), reached);
    }
  }

  /** The first m of n records are the first m records, and slot i holds record i. */
  lemma {:induction false} RecordsPrefix(ls: seq<string>, n: nat, m: nat)
    requires m <= n
    ensures Records(ls, n)[..m] == Records(ls, m)
    ensures forall i :: 0 <= i < n ==> Records(ls, n)[i] == Record(ls, i)
  {
    if n > 0 {
      RecordsPrefix(ls, n - 1, if m == n then n - 1 else m);
    }
  }

  /** Blank records after position m add nothing to the count. */
  lemma {:induction false} CountValidBlankTail(rs: seq<Passport>, m: nat)
    requires m <= |rs|
    requires forall i :: m <= i < |rs| ==> rs[i] == Blank
    ensures CountValid(rs) == CountValid(rs[..m])
  {
    if |rs| > m {
      var init := rs[..|rs| - 1];
      CountValidBlankTail(init, m);
      assert init[..m] == rs[..m];
    } else {
      assert rs[..m] == rs;
    }
  }

  /** Whether some token of the line has one of the eight field names as its key. */
  predicate MarksField(line: string)
  {
    exists t :: t in SplitOn(line, ' ') && IsField(KeyOf(t))
  }

  /**
   * The token loop for one non-blank line: split it at spaces, take each
   * token's key and set that field of the current record. The record is
   * indexed only under a recognised key, so a record number past the
   * database faults only on a line that has one.
   */
  method MarkLine(records: array<Passport>, recordNum: nat, line: string)
    requires MarksField(line) ==> recordNum < records.Length
    modifies records
    ensures recordNum < records.Length ==> records[recordNum] == MarkTokens(old(records[recordNum]), SplitOn(line, ' '))
    ensures forall r :: 0 <= r < records.Length && r != recordNum ==> records[r] == old(records[r])
  {
    var pairs := SplitOn(line, ' ');
    for pairNum := 0 to |pairs|
      invariant recordNum < records.Length ==> records[recordNum] == MarkTokens(old(records[recordNum]), pairs[..pairNum])
      invariant forall r :: 0 <= r < records.Length && r != recordNum ==> records[r] == old(records[r])
    {
      assert pairs[..pairNum + 1][..pairNum] == pairs[..pairNum];
      var words := SplitOn(pairs[pairNum], ':');
      var key := words[0];
      if IsField(key) {
        assert pairs[pairNum] in SplitOn(line, ' ') && KeyOf(pairs[pairNum]) == key;
      }
      if key == "byr" {
        records[recordNum] := records[recordNum].(byr := true);
      } else if key == "iyr" {
        records[recordNum] := records[recordNum].(iyr := true);
      } else if key == "eyr" {
        records[recordNum] := records[recordNum].(eyr := true);
      } else if key == "hgt" {
        records[recordNum] := records[recordNum].(hgt := true);
      } else if key == "hcl" {
        records[recordNum] := records[recordNum].(hcl := true);
      } else if key == "ecl" {
        records[recordNum] := records[recordNum].(ecl := true);
      } else if key == "pid" {
        records[recordNum] := records[recordNum].(pid := true);
      } else if key == "cid" {
        records[recordNum] := records[recordNum].(cid := true);
      }
    }
    assert pairs[..|pairs|] == pairs;
  }

  /**
   * The parse loop: read every line into the record database, advancing the
   * record number at each blank line and marking the current record with
   * the keys of any other line.
   */
  method ParseRecords(rawData: seq<string>) returns (records: array<Passport>)
    requires forall i :: 0 <= i < |rawData| && MarksField(rawData[i]) ==> Blanks(rawData[..i]) < DatabaseSize
    ensures fresh(records) && records[..] == Records(rawData, DatabaseSize)
  {
    records := new Passport[DatabaseSize](_ => Blank);
    var recordNum := 0;
    for lineNum := 0 to |rawData|
      invariant recordNum == Blanks(rawData[..lineNum])
      invariant forall r :: 0 <= r < DatabaseSize ==> records[r] == Record(rawData[..lineNum], r)
    {
      var line := rawData[lineNum];
      assert rawData[..lineNum + 1] == rawData[..lineNum] + [line];
      forall r | 0 <= r < DatabaseSize {
        ReadLine(rawData[..lineNum], line, r);
      }
      if line == "" {
        recordNum := recordNum + 1;
        continue;
      }
      MarkLine(records, recordNum, line);
    }
    assert rawData[..|rawData|] == rawData;
    RecordsAre(rawData, records[..]);
  }

  /** The validity loop: count the records that have all seven fields other than `cid`. */
  method CountValidRecords(records: array<Passport>) returns (validPassports: nat)
    ensures validPassports == CountValid(records[..])
  {
    validPassports := 0;
    for recordNum := 0 to records.Length
      invariant validPassports == CountValid(records[..recordNum])
    {
      assert records[..recordNum + 1][..recordNum] == records[..recordNum];
      if records[recordNum].byr && records[recordNum].iyr && records[recordNum].eyr && records[recordNum].hgt
         && records[recordNum].hcl && records[recordNum].ecl && records[recordNum].pid {
        validPassports := validPassports + 1;
      }
    }
    assert records[..records.Length] == records[..];
  }

  /** The program: parse every line into the record database, then count the valid records. */
  method CountValidPassports(rawData: seq<string>) returns (validPassports: nat)
    requires forall i :: 0 <= i < |rawData| && MarksField(rawData[i]) ==> Blanks(rawData[..i]) < DatabaseSize
    ensures validPassports == CountValid(Records(rawData, DatabaseSize))
    ensures validPassports <= Blanks(rawData) + 1
  {
    var records := ParseRecords(rawData);
    validPassports := CountValidRecords(records);
    CountValidReached(rawData, DatabaseSize);
  }

  lemma {:induction false} RecordsAre(ls: seq<string>, rs: seq<Passport>)
    requires forall r :: 0 <= r < |rs| ==> rs[r] == Record(ls, r)
    ensures rs == Records(ls, |rs|)
  {
    if rs != [] {
      RecordsAre(ls, rs[..|rs| - 1]);
      assert rs == rs[..|rs| - 1] + [rs[|rs| - 1]];
    }
  }

  /** Applies the tokens of each line in turn. */
  function MarkLines(p: Passport, lines: seq<string>): Passport
  {
    if lines == [] then p else MarkTokens(MarkLines(p, lines[..|lines| - 1]), SplitOn(lines[|lines| - 1], ' '))
  }

  /** Reading the non-blank lines of one passport fills record `r`, line by line, and touches no other record. */
  lemma {:induction false} ReadPassport(ls: seq<string>, g: seq<string>, r: nat)
    requires Blanks(ls) == r
    requires forall l :: l in g ==> l != ""
    ensures Blanks(ls + g) == r
    ensures Record(ls + g, r) == MarkLines(Record(ls, r), g)
    ensures forall q :: q != r ==> Record(ls + g, q) == Record(ls, q)
  {
    if g == [] {
      assert ls + g == ls;
    } else {
      var h, l := g[..|g| - 1], g[|g| - 1];
      assert g == h + [l];
      assert forall x :: x in h ==> x in g;
      assert l in g;
      ReadPassport(ls, h, r);
      assert ls + g == (ls + h) + [l];
      forall q {
        ReadLine(ls + h, l, q);
      }
    }
  }

  /** A "key:value" token. */
  function Token(key: string, value: string): string
  {
    key + ":" + value
  }

  /** The key of a token built from a key without ':' is that key. */
  lemma KeyOfToken(key: string, value: string)
    requires ':' !in key
    ensures KeyOf(Token(key, value)) == key
  {
    KeyOfPair(key, value);
  }

  /** One more line applies its tokens after those of the lines before it. */
  lemma MarkLinesSnoc(p: Passport, lines: seq<string>, line: string)
    ensures MarkLines(p, lines + [line]) == MarkTokens(MarkLines(p, lines), SplitOn(line, ' '))
  {
    assert (lines + [line])[..|lines|] == lines;
  }

  /** Two lines joined from space-free tokens mark those tokens, line by line. */
  lemma TwoJoinedLines(p: Passport, t0: seq<string>, t1: seq<string>)
    requires |t0| >= 1 && forall piece :: piece in t0 ==> ' ' !in piece
    requires |t1| >= 1 && forall piece :: piece in t1 ==> ' ' !in piece
    ensures MarkLines(p, [Join(t0, ' '), Join(t1, ' ')]) == MarkTokens(MarkTokens(p, t0), t1)
  {
    SplitJoin(t0, ' ');
    SplitJoin(t1, ' ');
    MarkLinesSnoc(p, [], Join(t0, ' '));
    MarkLinesSnoc(p, [Join(t0, ' ')], Join(t1, ' '));
  }

  /** Four lines joined from space-free tokens mark those tokens, line by line. */
  lemma FourJoinedLines(p: Passport, t0: seq<string>, t1: seq<string>, t2: seq<string>, t3: seq<string>)
    requires |t0| >= 1 && forall piece :: piece in t0 ==> ' ' !in piece
    requires |t1| >= 1 && forall piece :: piece in t1 ==> ' ' !in piece
    requires |t2| >= 1 && forall piece :: piece in t2 ==> ' ' !in piece
    requires |t3| >= 1 && forall piece :: piece in t3 ==> ' ' !in piece
    ensures MarkLines(p, [Join(t0, ' '), Join(t1, ' '), Join(t2, ' '), Join(t3, ' ')])
            == MarkTokens(MarkTokens(MarkTokens(MarkTokens(p, t0), t1), t2), t3)
  {
    TwoJoinedLines(p, t0, t1);
    SplitJoin(t2, ' ');
    SplitJoin(t3, ' ');
    var two := [Join(t0, ' '), Join(t1, ' ')];
    assert two + [Join(t2, ' ')] == [Join(t0, ' '), Join(t1, ' '), Join(t2, ' ')];
    MarkLinesSnoc(p, two, Join(t2, ' '));
    assert two + [Join(t2, ' ')] + [Join(t3, ' ')] == [Join(t0, ' '), Join(t1, ' '), Join(t2, ' '), Join(t3, ' ')];
    MarkLinesSnoc(p, two + [Join(t2, ' ')], Join(t3, ' '));
  }

  /** Reading one passport's lines and the blank line after it fills record `r` and moves on to `r + 1`. */
  lemma ReadPassportThenBlank(ls: seq<string>, g: seq<string>, r: nat)
    requires Blanks(ls) == r
    requires forall l :: l in g ==> l != ""
    ensures Blanks(ls + g + [""]) == r + 1
    ensures Record(ls + g + [""], r) == MarkLines(Record(ls, r), g)
    ensures forall q :: q != r ==> Record(ls + g + [""], q) == Record(ls, q)
  {
    ReadPassport(ls, g, r);
    forall q {
      ReadLine(ls + g, "", q);
    }
  }

  /** Four passports separated by three blank lines fill records 0 to 3, each from its own lines only. */
  lemma FourPassports(g0: seq<string>, g1: seq<string>, g2: seq<string>, g3: seq<string>)
    requires forall l :: l in g0 ==> l != ""
    requires forall l :: l in g1 ==> l != ""
    requires forall l :: l in g2 ==> l != ""
    requires forall l :: l in g3 ==> l != ""
    ensures Blanks(g0 + [""] + g1 + [""] + g2 + [""] + g3) == 3
    ensures Record(g0 + [""] + g1 + [""] + g2 + [""] + g3, 0) == MarkLines(Blank, g0)
    ensures Record(g0 + [""] + g1 + [""] + g2 + [""] + g3, 1) == MarkLines(Blank, g1)
    ensures Record(g0 + [""] + g1 + [""] + g2 + [""] + g3, 2) == MarkLines(Blank, g2)
    ensures Record(g0 + [""] + g1 + [""] + g2 + [""] + g3, 3) == MarkLines(Blank, g3)
  {
    var s0 := g0 + [""];
    assert [] + g0 == g0;
    ReadPassportThenBlank([], g0, 0);
    var s1 := s0 + g1 + [""];
    ReadPassportThenBlank(s0, g1, 1);
    var s2 := s1 + g2 + [""];
    ReadPassportThenBlank(s1, g2, 2);
    var ls := s2 + g3;
    ReadPassport(s2, g3, 3);
    var p0, p1, p2, p3 := MarkLines(Blank, g0), MarkLines(Blank, g1), MarkLines(Blank, g2), MarkLines(Blank, g3);
    assert Record(s0, 0) == p0 && Record(s0, 1) == Blank && Record(s0, 2) == Blank && Record(s0, 3) == Blank;
    assert Record(s1, 0) == p0 && Record(s1, 1) == p1 && Record(s1, 2) == Blank && Record(s1, 3) == Blank;
    assert Record(s2, 0) == p0 && Record(s2, 1) == p1 && Record(s2, 2) == p2 && Record(s2, 3) == Blank;
    assert Record(ls, 0) == p0 && Record(ls, 1) == p1 && Record(ls, 2) == p2 && Record(ls, 3) == p3;
  }

  /** No value contains a space, as the values of a line split at spaces do not. */
  predicate NoSpaces(values: seq<string>)
  {
    forall i :: 0 <= i < |values| ==> ' ' !in values[i]
  }

  /** The tokens of a line: each key paired with its value, in order. */
  function Tokens(keys: seq<string>, values: seq<string>): (tokens: seq<string>)
    requires |keys| == |values|
    ensures |tokens| == |keys|
    ensures forall i :: 0 <= i < |keys| ==> tokens[i] == Token(keys[i], values[i])
  {
    seq(|keys|, i requires 0 <= i < |keys| => Token(keys[i], values[i]))
  }

  /** A field name holds neither a space nor a ':'. */
  lemma FieldNamePlain(name: string)
    requires IsField(name)
    ensures ' ' !in name && ':' !in name
  {
  }

  /** Every key is one of the eight field names. */
  predicate AllFields(keys: seq<string>)
  {
    forall i :: 0 <= i < |keys| ==> IsField(keys[i])
  }

  /** The tokens of field names and space-free values hold no space. */
  lemma FieldTokensPlain(keys: seq<string>, values: seq<string>)
    requires |keys| == |values| && AllFields(keys) && NoSpaces(values)
    ensures forall piece :: piece in Tokens(keys, values) ==> ' ' !in piece
  {
    var tokens := Tokens(keys, values);
    forall piece | piece in tokens
      ensures ' ' !in piece
    {
      var i :| 0 <= i < |tokens| && tokens[i] == piece;
      FieldNamePlain(keys[i]);
    }
  }

  /** Marking the tokens of field names sets exactly the fields the keys name. */
  lemma FieldTokensHas(p: Passport, keys: seq<string>, values: seq<string>, name: string)
    requires |keys| == |values| && AllFields(keys)
    ensures Has(MarkTokens(p, Tokens(keys, values)), name) <==> Has(p, name) || (IsField(name) && name in keys)
  {
    var tokens := Tokens(keys, values);
    MarkTokensHas(p, tokens, name);
    if IsField(name) && name in keys {
      var i :| 0 <= i < |keys| && keys[i] == name;
      FieldNamePlain(keys[i]);
      KeyOfToken(keys[i], values[i]);
      assert tokens[i] in tokens;
    }
    if exists t :: t in tokens && KeyOf(t) == name {
      var t :| t in tokens && KeyOf(t) == name;
      var i :| 0 <= i < |tokens| && tokens[i] == t;
      FieldNamePlain(keys[i]);
      KeyOfToken(keys[i], values[i]);
    }
  }

  /** A line whose keys include the field `name` leaves it present. */
  lemma LineSets(p: Passport, keys: seq<string>, values: seq<string>, name: string)
    requires |keys| == |values| && AllFields(keys)
    requires Has(p, name) || (IsField(name) && name in keys)
    ensures Has(MarkTokens(p, Tokens(keys, values)), name)
  {
    FieldTokensHas(p, keys, values, name);
  }

  /** A line whose keys leave out `name` leaves an absent field absent. */
  lemma LineLeaves(p: Passport, keys: seq<string>, values: seq<string>, name: string)
    requires |keys| == |values| && AllFields(keys)
    requires !Has(p, name) && name !in keys
    ensures !Has(MarkTokens(p, Tokens(keys, values)), name)
  {
    FieldTokensHas(p, keys, values, name);
  }

  /** A passport with the seven required fields present is valid. */
  lemma ValidFromFields(p: Passport)
    requires Has(p, "byr") && Has(p, "iyr") && Has(p, "eyr") && Has(p, "hgt")
    requires Has(p, "hcl") && Has(p, "ecl") && Has(p, "pid")
    ensures Valid(p)
  {
    FieldNamesDistinct();
  }

  /** The lines of documented passport 1, with its 8 values open. */
  function DocumentedLines0(v: seq<string>): (lines: seq<string>)
    requires |v| == 8
    ensures forall l :: l in lines ==> l != ""
  {
    [Join(Tokens(["ecl", "pid", "eyr", "hcl"], v[..4]), ' '),
     Join(Tokens(["byr", "iyr", "cid", "hgt"], v[4..]), ' ')]
  }

  /** The lines of documented passport 2, with its 7 values open. */
  function DocumentedLines1(v: seq<string>): (lines: seq<string>)
    requires |v| == 7
    ensures forall l :: l in lines ==> l != ""
  {
    [Join(Tokens(["iyr", "ecl", "cid", "eyr", "pid"], v[..5]), ' '),
     Join(Tokens(["hcl", "byr"], v[5..]), ' ')]
  }

  /** The lines of documented passport 3, with its 7 values open. */
  function DocumentedLines2(v: seq<string>): (lines: seq<string>)
    requires |v| == 7
    ensures forall l :: l in lines ==> l != ""
  {
    [Join(Tokens(["hcl", "iyr"], v[..2]), ' '),
     Join(Tokens(["eyr"], v[2..3]), ' '),
     Join(Tokens(["ecl", "pid", "byr"], v[3..6]), ' '),
     Join(Tokens(["hgt"], v[6..]), ' ')]
  }

  /** The lines of documented passport 4, with its 6 values open. */
  function DocumentedLines3(v: seq<string>): (lines: seq<string>)
    requires |v| == 6
    ensures forall l :: l in lines ==> l != ""
  {
    [Join(Tokens(["hcl", "eyr", "pid"], v[..3]), ' '),
     Join(Tokens(["iyr", "ecl", "hgt"], v[3..]), ' ')]
  }

  /** The documented values of each passport's tokens. */
  const DocumentedValues0: seq<string> := ["gry", "860033327", "2020", "#fffffd", "1937", "2017", "147", "183cm"]
  const DocumentedValues1: seq<string> := ["2013", "amb", "350", "2023", "028048884", "#cfa07d", "1929"]
  const DocumentedValues2: seq<string> := ["#ae17e1", "2013", "2024", "brn", "760753108", "1931", "179cm"]
  const DocumentedValues3: seq<string> := ["#cfa07d", "2025", "166559648", "2011", "brn", "59in"]

  /** The documented batch: four passports separated by blank lines. */
  function DocumentedBatch(v0: seq<string>, v1: seq<string>, v2: seq<string>, v3: seq<string>): seq<string>
    requires |v0| == 8 && |v1| == 7 && |v2| == 7 && |v3| == 6
  {
    DocumentedLines0(v0) + [""] + DocumentedLines1(v1) + [""] + DocumentedLines2(v2) + [""] + DocumentedLines3(v3)
  }

  /** Documented passport 1 has all seven fields other than `cid`, whatever its values. */
  lemma DocumentedPassport1(v: seq<string>)
    requires |v| == 8 && NoSpaces(v)
    ensures Valid(MarkLines(Blank, DocumentedLines0(v)))
  {
    var k0, v0 := ["ecl", "pid", "eyr", "hcl"], v[..4];
    assert AllFields(k0);
    FieldTokensPlain(k0, v0);
    var t0 := Tokens(k0, v0);
    var k1, v1 := ["byr", "iyr", "cid", "hgt"], v[4..];
    assert AllFields(k1);
    FieldTokensPlain(k1, v1);
    var t1 := Tokens(k1, v1);
    TwoJoinedLines(Blank, t0, t1);
    var m0 := MarkTokens(Blank, t0);
    var m1 := MarkTokens(m0, t1);
    LineSets(m0, k1, v1, "byr");
    LineSets(m0, k1, v1, "iyr");
    LineSets(Blank, k0, v0, "eyr");
    LineSets(m0, k1, v1, "eyr");
    LineSets(m0, k1, v1, "hgt");
    LineSets(Blank, k0, v0, "hcl");
    LineSets(m0, k1, v1, "hcl");
    LineSets(Blank, k0, v0, "ecl");
    LineSets(m0, k1, v1, "ecl");
    LineSets(Blank, k0, v0, "pid");
    LineSets(m0, k1, v1, "pid");
    ValidFromFields(m1);
  }

  /** Documented passport 2 lacks `hgt`, whatever its values. */
  lemma DocumentedPassport2(v: seq<string>)
    requires |v| == 7 && NoSpaces(v)
    ensures !Valid(MarkLines(Blank, DocumentedLines1(v)))
  {
    var k0, v0 := ["iyr", "ecl", "cid", "eyr", "pid"], v[..5];
    assert AllFields(k0);
    FieldTokensPlain(k0, v0);
    var t0 := Tokens(k0, v0);
    var k1, v1 := ["hcl", "byr"], v[5..];
    assert AllFields(k1);
    FieldTokensPlain(k1, v1);
    var t1 := Tokens(k1, v1);
    TwoJoinedLines(Blank, t0, t1);
    var m0 := MarkTokens(Blank, t0);
    var m1 := MarkTokens(m0, t1);
    FieldNamesDistinct();
    LineLeaves(Blank, k0, v0, "hgt");
    LineLeaves(m0, k1, v1, "hgt");
  }

  /** Documented passport 3 has all seven fields other than `cid`, whatever its values. */
  lemma DocumentedPassport3(v: seq<string>)
    requires |v| == 7 && NoSpaces(v)
    ensures Valid(MarkLines(Blank, DocumentedLines2(v)))
  {
    var k0, v0 := ["hcl", "iyr"], v[..2];
    assert AllFields(k0);
    FieldTokensPlain(k0, v0);
    var t0 := Tokens(k0, v0);
    var k1, v1 := ["eyr"], v[2..3];
    assert AllFields(k1);
    FieldTokensPlain(k1, v1);
    var t1 := Tokens(k1, v1);
    var k2, v2 := ["ecl", "pid", "byr"], v[3..6];
    assert AllFields(k2);
    FieldTokensPlain(k2, v2);
    var t2 := Tokens(k2, v2);
    var k3, v3 := ["hgt"], v[6..];
    assert AllFields(k3);
    FieldTokensPlain(k3, v3);
    var t3 := Tokens(k3, v3);
    FourJoinedLines(Blank, t0, t1, t2, t3);
    var m0 := MarkTokens(Blank, t0);
    var m1 := MarkTokens(m0, t1);
    var m2 := MarkTokens(m1, t2);
    var m3 := MarkTokens(m2, t3);
    LineSets(m1, k2, v2, "byr");
    LineSets(m2, k3, v3, "byr");
    LineSets(Blank, k0, v0, "iyr");
    LineSets(m0, k1, v1, "iyr");
    LineSets(m1, k2, v2, "iyr");
    LineSets(m2, k3, v3, "iyr");
    LineSets(m0, k1, v1, "eyr");
    LineSets(m1, k2, v2, "eyr");
    LineSets(m2, k3, v3, "eyr");
    LineSets(m2, k3, v3, "hgt");
    LineSets(Blank, k0, v0, "hcl");
    LineSets(m0, k1, v1, "hcl");
    LineSets(m1, k2, v2, "hcl");
    LineSets(m2, k3, v3, "hcl");
    LineSets(m1, k2, v2, "ecl");
    LineSets(m2, k3, v3, "ecl");
    LineSets(m1, k2, v2, "pid");
    LineSets(m2, k3, v3, "pid");
    ValidFromFields(m3);
  }

  /** Documented passport 4 lacks `byr`, whatever its values. */
  lemma DocumentedPassport4(v: seq<string>)
    requires |v| == 6 && NoSpaces(v)
    ensures !Valid(MarkLines(Blank, DocumentedLines3(v)))
  {
    var k0, v0 := ["hcl", "eyr", "pid"], v[..3];
    assert AllFields(k0);
    FieldTokensPlain(k0, v0);
    var t0 := Tokens(k0, v0);
    var k1, v1 := ["iyr", "ecl", "hgt"], v[3..];
    assert AllFields(k1);
    FieldTokensPlain(k1, v1);
    var t1 := Tokens(k1, v1);
    TwoJoinedLines(Blank, t0, t1);
    var m0 := MarkTokens(Blank, t0);
    var m1 := MarkTokens(m0, t1);
    FieldNamesDistinct();
    LineLeaves(Blank, k0, v0, "byr");
    LineLeaves(m0, k1, v1, "byr");
  }

  /** The number of valid records among four, two of them valid. */
  lemma CountValidOfFour(p0: Passport, p1: Passport, p2: Passport, p3: Passport)
    requires Valid(p0) && !Valid(p1) && Valid(p2) && !Valid(p3)
    ensures CountValid([p0, p1, p2, p3]) == 2
  {
    assert [p0][..0] == [];
    assert CountValid([p0]) == 1;
    assert [p0, p1][..1] == [p0];
    assert CountValid([p0, p1]) == 1;
    assert [p0, p1, p2][..2] == [p0, p1];
    assert CountValid([p0, p1, p2]) == 2;
    assert [p0, p1, p2, p3][..3] == [p0, p1, p2];
  }

  /** Four passports, the first and third valid, give a count of 2 over the whole database. */
  lemma CountFourPassports(g0: seq<string>, g1: seq<string>, g2: seq<string>, g3: seq<string>)
    requires forall l :: l in g0 ==> l != ""
    requires forall l :: l in g1 ==> l != ""
    requires forall l :: l in g2 ==> l != ""
    requires forall l :: l in g3 ==> l != ""
    requires Valid(MarkLines(Blank, g0)) && !Valid(MarkLines(Blank, g1))
    requires Valid(MarkLines(Blank, g2)) && !Valid(MarkLines(Blank, g3))
    ensures Blanks(g0 + [""] + g1 + [""] + g2 + [""] + g3) == 3
    ensures CountValid(Records(g0 + [""] + g1 + [""] + g2 + [""] + g3, DatabaseSize)) == 2
  {
    var ls := g0 + [""] + g1 + [""] + g2 + [""] + g3;
    FourPassports(g0, g1, g2, g3);
    var p0, p1, p2, p3 := MarkLines(Blank, g0), MarkLines(Blank, g1), MarkLines(Blank, g2), MarkLines(Blank, g3);
    RecordsAre(ls, [p0, p1, p2, p3]);
    CountValidOfFour(p0, p1, p2, p3);
    CountValidReached(ls, DatabaseSize);
  }

  /**
   * On the documented batch the program counts 2 valid passports, the first
   * and the third, whatever the values of the tokens.
   */
  lemma DocumentedBatchCount(v0: seq<string>, v1: seq<string>, v2: seq<string>, v3: seq<string>)
    requires |v0| == 8 && |v1| == 7 && |v2| == 7 && |v3| == 6
    requires NoSpaces(v0) && NoSpaces(v1) && NoSpaces(v2) && NoSpaces(v3)
    ensures Blanks(DocumentedBatch(v0, v1, v2, v3)) == 3
    ensures CountValid(Records(DocumentedBatch(v0, v1, v2, v3), DatabaseSize)) == 2
  {
    DocumentedPassport1(v0);
    DocumentedPassport2(v1);
    DocumentedPassport3(v2);
    DocumentedPassport4(v3);
    CountFourPassports(DocumentedLines0(v0), DocumentedLines1(v1), DocumentedLines2(v2), DocumentedLines3(v3));
  }

  /** The documented batch, values included, gives the documented answer 2. */
  lemma DocumentedBatchAnswer()
    ensures CountValid(Records(DocumentedBatch(DocumentedValues0, DocumentedValues1, DocumentedValues2, DocumentedValues3), DatabaseSize)) == 2
  {
    DocumentedBatchCount(DocumentedValues0, DocumentedValues1, DocumentedValues2, DocumentedValues3);
  }
}
