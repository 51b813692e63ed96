# Advent of Code solvers in Dafny

This project models six Go solvers from an Advent of Code repository and
proves what each one computes. Each solver is one Dafny module in one file:

- `report_repair.dfy`, module `ReportRepair` (2020/day01/day01.go). The
  expense report fills a fixed array of 200 slots. Nested loops with a
  `found` flag then look for two entries, and then three, that sum to 2020,
  and report their product.
- `password_philosophy.dfy`, module `PasswordPhilosophy` (2020/day02/day02.go).
  Each line is a policy and a password. Part 1 checks the letter count
  against a range. Part 2 checks that exactly one of two 1-based positions
  holds the letter.
- `toboggan_trajectory.dfy`, module `TobogganTrajectory` (day03/day03.go).
  The lines are parsed into a tree map that repeats to the right. For each
  of five slopes the program walks the map and counts the trees it lands
  on, then multiplies the counts together.
- `passport_processing.dfy`, module `PassportProcessing` (day04/day04.go).
  Passports are runs of lines separated by blank lines. Each `key:value`
  token marks a field present. A record is valid when all fields except
  `cid` are present.
- `binary_boarding.dfy`, module `BinaryBoarding` (day05/day05.go). A seat
  locator such as `FBFBBFFRLR` is decoded by binary partitioning. The
  program fills a seat map, finds the highest seat id and looks for the free
  seat between two occupied ones.
- `custom_customs.dfy`, module `CustomCustoms` (day06/day06.go). Groups of
  answer lines are separated by blank lines. A bool map and a count map,
  keyed by letter, are tallied and reset at each blank line. The model sums
  "anyone answered" and "everyone answered" over the groups.

State the Go code updates in place is modelled imperatively:
- arrays for the seat list, the seat map, the tree map, the passport
  records and the expense slots;
- a class with two `map` fields for the day 6 maps;
- loops carrying invariants.

Each method is proved against a specification function written by recursion
over the lines read so far. Lemmas then state what those functions mean, and
check them on the documented examples.

## Model

| member | source | states |
|---|---|---|
| `ReportRepair.FillExpenses` | 2020/day01/day01.go:79-93 | The fill completes exactly when no line is malformed and every number falls within the 200 slots. Slot i then holds line i's number, and 0 when that line scanned as end of input. |
| `ReportRepair.ScanPairs` | 2020/day01/day01.go:101-106 | The inner pair loop finds a j exactly when some entry completes a pair with entry i, and the j it stops at is the smallest such. |
| `ReportRepair.FindPair` | 2020/day01/day01.go:98-107 | Part 1 answers nothing exactly when no two entries, possibly the same one twice, sum to 2020. Otherwise it answers the product of the first matching pair in the loops' (i, j) order. |
| `ReportRepair.FirstPairUnique` | 2020/day01/day01.go:100-105 | The first matching pair is unique, so the reported product depends only on the entries. |
| `ReportRepair.ScanThirds` | 2020/day01/day01.go:116-121 | The innermost loop finds the smallest k that completes the triple (i, j, k), when there is one. |
| `ReportRepair.ScanTriples` | 2020/day01/day01.go:115-122 | The middle loop finds the first (j, k) that completes a triple with entry i, when there is one. |
| `ReportRepair.FindTriple` | 2020/day01/day01.go:112-123 | Part 2 answers nothing exactly when no three entries sum to 2020. Otherwise it answers the product of the first matching triple in (i, j, k) order. |
| `ReportRepair.FirstTripleUnique` | 2020/day01/day01.go:114-122 | The first matching triple is unique. |
| `ReportRepair.RepairAsWritten` | 2020/day01/day01.go:70-123 | The whole program as written searches all 200 slots, unfilled ones included. Its answers are characterised over those padded slots. |
| `ReportRepair.NumbersFromLines` | 2020/day01/day01.go:83-92 | Every entry kept by the corrected reading is the number of some line of the report. |
| `ReportRepair.ReadEntries` | 2020/day01/day01.go:83-92 | The corrected reading keeps exactly the report's numbers, in order, and fails exactly on a malformed line. |
| `ReportRepair.Repair` | 2020/day01/day01.go:70-123 | The corrected program searches only the report's numbers. Any product it reports is a product of entries of the report. |
| `ReportRepair.DocumentedNumbers` | 2020/day01/day01.go:25-33 | The documented report reads without failure as the six numbers 1721, 979, 366, 299, 675 and 1456. |
| `ReportRepair.DocumentedFirstMatches` | 2020/day01/day01.go:34-47 | Among the documented entries the first pair is 1721 + 299 and the first triple is 979 + 366 + 675. |
| `ReportRepair.DocumentedPaddedMatches` | 2020/day01/day01.go:81-93 | In the 200 padded slots the first pair is still 1721 + 299. The first triple becomes 1721 + 299 + slot 6, which no line filled. |
| `ReportRepair.DocumentedAnswers` | 2020/day01/day01.go:34-47 | The corrected program answers 514579 and 241861950 on the documented report, the documented answers. |
| `ReportRepair.DocumentedAnswersAsWritten` | 2020/day01/day01.go:112-123 | The program as written answers 514579 and then 0 on the documented report. |
| `PasswordPhilosophy.CountOccurrences` | 2020/day02/day02.go:126-131 | The Part 1 inner loop counts the positions of the password that hold the letter; the count is at most the password's length. |
| `PasswordPhilosophy.ValidLines1Step` | 2020/day02/day02.go:136-139 | One more line adds one to the Part 1 count exactly when that line passes. |
| `PasswordPhilosophy.CountValidPart1` | 2020/day02/day02.go:101-140 | Part 1 fails exactly when some line splits into two chunks at ':' and its scan fails. Otherwise it answers the number of lines whose letter count is positive and within [low, high]. Lines not split into two chunks keep the zero values. The answer is at most the number of lines. |
| `PasswordPhilosophy.CountPositionHits` | 2020/day02/day02.go:170-178 | The Part 2 inner loop scores one hit for each of the two 1-based positions that holds the letter, and two when both name the same matching position. |
| `PasswordPhilosophy.ValidLines2Step` | 2020/day02/day02.go:180-183 | One more line adds one to the Part 2 count exactly when that line passes. |
| `PasswordPhilosophy.CountValidPart2` | 2020/day02/day02.go:148-184 | Part 2 fails exactly when some two-chunk line's scan fails. Otherwise it answers the number of lines where exactly one of the two positions holds the letter. The answer is at most the number of lines. |
| `PasswordPhilosophy.UnsplitLineNeverValid` | 2020/day02/day02.go:113-123 | A line without exactly one ':' is never scanned, so it cannot fail, and it passes neither rule. |
| `PasswordPhilosophy.SamePositionNeverValid` | 2020/day02/day02.go:170-183 | Naming the same position twice never passes Part 2. |
| `PasswordPhilosophy.DocumentedPart1` | 2020/day02/day02.go:20-32 | Under Part 1, "1-3 a: abcde" and "2-9 c: ccccccccc" are valid and "1-3 b: cdefg" is not. |
| `PasswordPhilosophy.DocumentedPart2` | 2020/day02/day02.go:53-55 | Under Part 2, only "1-3 a: abcde" of the three documented lines is valid. |
| `PasswordPhilosophy.DocumentedCounts` | 2020/day02/day02.go:18-32 | On the documented list no line fails. Part 1 counts the first and third lines, 2 in all, and Part 2 counts the first only. |
| `TobogganTrajectory.GridOf` | day03/day03.go:115-135 | The map is laid out on a rows x cols grid where a cell is true exactly when its line has '#' in that column. Cells no line reaches stay open. |
| `TobogganTrajectory.ParseTreeMap` | day03/day03.go:122-135 | Parsing succeeds exactly when every character is '.', '#' or a line break. The parsed map then holds the grid of the text. |
| `TobogganTrajectory.WrapStep` | day03/day03.go:203-206 | For dx at most the width, wrapping by one subtraction keeps the column equal to the total right-movement modulo the width. |
| `TobogganTrajectory.CountTrees` | day03/day03.go:140-224 | The walk for one slope counts the trees at rows k*dy and columns (k*dx) mod cols, for every move k >= 1 that stays on the map. |
| `TobogganTrajectory.HitsIgnoreStart` | day03/day03.go:156-162 | The start square is never tested: maps that differ only there give the same count. |
| `TobogganTrajectory.SlopeProduct` | day03/day03.go:138-227 | The answer is the product of the tree counts of all slopes, starting from 1. |
| `TobogganTrajectory.TreeProduct` | day03/day03.go:101-229 | The whole program either fails on an unexpected character or answers the product over the five slopes on the parsed grid. |
| `TobogganTrajectory.SampleSlope11` | day03/day03.go:78-87 | On the documented map, slope (1, 1) meets 2 trees. |
| `TobogganTrajectory.SampleSlope31` | day03/day03.go:78-87 | On the documented map, slope (3, 1) meets 7 trees. |
| `TobogganTrajectory.SampleSlope51` | day03/day03.go:78-87 | On the documented map, slope (5, 1) meets 3 trees. |
| `TobogganTrajectory.SampleSlope71` | day03/day03.go:78-87 | On the documented map, slope (7, 1) meets 4 trees. |
| `TobogganTrajectory.SampleSlope12` | day03/day03.go:78-87 | On the documented map, slope (1, 2) meets 2 trees. |
| `TobogganTrajectory.DocumentedSample` | day03/day03.go:11-21 | On the documented map, the five slopes' counts multiply to 336. |
| `PassportProcessing.HasDetermines` | day04/day04.go:77-86 | A passport is determined by which of its eight fields are present. |
| `PassportProcessing.SplitOn` | day04/day04.go:124-127 | Splitting yields at least one piece. No piece contains the separator. The first piece is a prefix of the string and ends at the first separator. |
| `PassportProcessing.JoinSplit` | day04/day04.go:124-127 | Joining the pieces of a split with the separator gives back the string. |
| `PassportProcessing.SplitJoin` | day04/day04.go:124-127 | Splitting a join of separator-free pieces gives back the pieces. |
| `PassportProcessing.KeyOf` | day04/day04.go:127-130 | A token's key is the prefix before its first ':' and contains no ':'. |
| `PassportProcessing.KeyOfPair` | day04/day04.go:127-130 | The key of a "key:value" token, for a key without ':', is that key. |
| `PassportProcessing.MarkField` | day04/day04.go:130-147 | A key sets exactly the field it names. Every other field keeps its value, and an unknown key changes nothing. |
| `PassportProcessing.MarkTokensHas` | day04/day04.go:124-148 | After a line's tokens a field is present exactly when it already was, or when it is one of the eight fields and some token has it as its key. Fields are never reset. |
| `PassportProcessing.ReadLine` | day04/day04.go:113-148 | A blank line advances the record number and marks nothing. Any other line marks only the current record. |
| `PassportProcessing.RecordHas` | day04/day04.go:110-149 | Record r has a field exactly when some non-blank line read while the record number was r holds a token with that key. |
| `PassportProcessing.RecordUnreached` | day04/day04.go:110-121 | A record past the current record number is untouched. |
| `PassportProcessing.ReadPassport` | day04/day04.go:113-149 | Reading one passport's non-blank lines applies them to record r, line by line, and leaves every other record and the record number unchanged. |
| `PassportProcessing.ValidIgnoresCid` | day04/day04.go:154 | Validity does not depend on `cid`. |
| `PassportProcessing.ValidIffRequiredFields` | day04/day04.go:154 | A record is valid exactly when all seven fields other than `cid` are present. |
| `PassportProcessing.CountValidReached` | day04/day04.go:152-157 | Only records up to the number of blank lines can be valid. The count over all records equals the count over those reached. |
| `PassportProcessing.CountValid` | day04/day04.go:152-157 | The number of valid records is at most the number of records. |
| `PassportProcessing.MarkLine` | day04/day04.go:123-148 | The token loop marks the current record with the keys of the line's tokens, in order, and changes no other record. A record number past the database is allowed when no token has a recognised key, and then nothing changes. |
| `PassportProcessing.ParseRecords` | day04/day04.go:110-149 | After the parse loop, each of the 500 database slots holds the record that the lines read give it. |
| `PassportProcessing.CountValidRecords` | day04/day04.go:151-157 | The validity loop counts the records that have all seven fields other than `cid`. |
| `PassportProcessing.FourPassports` | day04/day04.go:113-121 | Four passports separated by three blank lines fill records 0 to 3, each from its own lines only. |
| `PassportProcessing.CountFourPassports` | day04/day04.go:110-157 | When the first and third of four such passports are valid and the others not, the program counts 2 over the whole database. |
| `PassportProcessing.DocumentedPassport1` | day04/day04.go:34-35 | The first documented passport is valid, whatever its values. |
| `PassportProcessing.DocumentedPassport2` | day04/day04.go:37-38 | The second documented passport lacks `hgt` and is invalid. |
| `PassportProcessing.DocumentedPassport3` | day04/day04.go:40-43 | The third documented passport lacks only `cid` and is valid. |
| `PassportProcessing.DocumentedPassport4` | day04/day04.go:45-46 | The fourth documented passport lacks `byr` and is invalid. |
| `PassportProcessing.DocumentedBatchCount` | day04/day04.go:32-59 | On the documented batch, whatever the token values, the program counts 2 valid passports. |
| `PassportProcessing.DocumentedBatchAnswer` | day04/day04.go:32-60 | With the documented values, the answer is the documented 2. |
| `PassportProcessing.CountValidPassports` | day04/day04.go:97-160 | The program answers the number of valid records among the 500 after reading every line. That is at most one more than the number of blank lines. |
| `BinaryBoarding.GoHalf` | day05/day05.go:110 | Go's integer halving truncates toward zero, for negative widths too. |
| `BinaryBoarding.PartitionWithinBounds` | day05/day05.go:104-131 | While the bounds are ordered, the partition answers -1 or a value within them. |
| `BinaryBoarding.PartitionSkipsOtherLetters` | day05/day05.go:115-125 | Characters that are neither letter leave the bounds alone. So a prefix of them does not change the result. |
| `BinaryBoarding.PartitionDecodesBinary` | day05/day05.go:104-131 | Over 2^k values, the first k recognised letters read as a binary number with the high letter as 1. |
| `BinaryBoarding.PartitionTooFewLetters` | day05/day05.go:129-130 | With fewer recognised letters than halvings needed, the search falls through and answers -1. |
| `BinaryBoarding.FindRowOrCol` | day05/day05.go:104-131 | The loop computes the partition of the whole range [0, n-1]. For n >= 2 the result is -1 or within [0, n-1]. |
| `BinaryBoarding.FindRow` | day05/day05.go:133-135 | On 128 rows, a well-formed locator's row is its F/B prefix read as binary, in [0, 127]. |
| `BinaryBoarding.FindCol` | day05/day05.go:137-139 | On 8 columns, a well-formed locator's column is its L/R suffix read as binary, in [0, 7]. |
| `BinaryBoarding.ColumnDecodes` | day05/day05.go:137-139 | The F/B prefix does not affect the column. |
| `BinaryBoarding.FindSeatLocation` | day05/day05.go:141-145 | A well-formed locator's row and column lie on the plane. Its seat id is the whole 10-letter locator read as binary. |
| `BinaryBoarding.CalculateSeatId` | day05/day05.go:147-149 | For a column in [0, 7], the seat id divides back into its row and column. |
| `BinaryBoarding.SeatIdIsBinaryNumber` | day05/day05.go:147-149 | A locator's seat id is its 10 letters read as binary with B and R as 1, so it is below 1024. |
| `BinaryBoarding.PassDecodes` | day05/day05.go:133-139 | The row and column of a well-formed locator are its two parts read as binary. |
| `BinaryBoarding.DocumentedPass` | day05/day05.go:141-149 | A well-formed locator decodes to the row its F/B letters spell digit by digit (B as 1) and the column its L/R letters spell (R as 1), with id row*8+col. |
| `BinaryBoarding.DocumentedSeat357` | day05/day05.go:23-48 | FBFBBFFRLR is row 44, column 5, id 357. |
| `BinaryBoarding.DocumentedSeat567` | day05/day05.go:52 | BFFFBBFRRR is row 70, column 7, id 567. |
| `BinaryBoarding.DocumentedSeat119` | day05/day05.go:53 | FFFBBBFRRR is row 14, column 7, id 119. |
| `BinaryBoarding.DocumentedSeat820` | day05/day05.go:54 | BBFFBBFRLL is row 102, column 4, id 820. |
| `BinaryBoarding.ProcessSeat` | day05/day05.go:152-159 | An empty locator changes nothing. Otherwise exactly the decoded cell becomes occupied and the list slot receives the seat with its id. A seat off the grid makes the program fail before any observable change. |
| `BinaryBoarding.FindHighestSeatId` | day05/day05.go:162-172 | The result is the maximum of 0 and every id on the list. |
| `BinaryBoarding.FindMySeatId` | day05/day05.go:187-198 | The result is the id of the first seat in row-major order that is empty, not in the last column, and has both neighbours occupied. The scan faults when it first meets such a seat in column 0, and answers none when there is no such seat. |
| `BinaryBoarding.ProcessLine` | day05/day05.go:210-212 | Processing line i fails exactly when that line decodes off the plane. Otherwise slot i holds its seat and the map is occupied exactly where one of the first i+1 lines points. |
| `BinaryBoarding.BoardingAnswers` | day05/day05.go:200-226 | The processing loop fails exactly when some pass decodes off the plane. Otherwise a seat is occupied exactly when some pass names it. The highest id is 0 or some pass's id, and it bounds every pass's id. The seat search then answers as `FindMySeatId` states: none exactly when no seat stops the scan, an id for the first stop, or a fault when the first stop is in column 0, where the left-neighbour read panics. |
| `CustomCustoms.Answers.constructor` | day06/day06.go:129-143 | Both maps start with the 26 letters, all false and all 0. |
| `CustomCustoms.Answers.LettersReset` | day06/day06.go:184-188 | Every key of the bool map becomes false. The key set and the count map are unchanged. |
| `CustomCustoms.Answers.Letters2Reset` | day06/day06.go:191-195 | Every key of the count map becomes 0. The key set and the bool map are unchanged. |
| `CustomCustoms.Answers.CountGroup1Responses` | day06/day06.go:199-208 | Answers the number of keys marked true. |
| `CustomCustoms.Answers.CountGroup2Responses` | day06/day06.go:212-221 | Answers the number of keys whose count equals the number of answerers. |
| `CustomCustoms.Answers.Mark` | day06/day06.go:162-166 | A line adds its characters as keys, marks them true and adds each character's occurrences to its count. |
| `CustomCustoms.ReadGroupLine` | day06/day06.go:146-166 | One line keeps the maps, the answerer count and both totals in step with the lines read: a blank line closes the group, adds its two counts and resets; any other line extends the open group. |
| `CustomCustoms.TallyGroups` | day06/day06.go:110-168 | The two running totals equal the round 1 and round 2 totals over the lines, as tallied at each blank line. |
| `CustomCustoms.Total1IsSumOfUnions` | day06/day06.go:151-155 | Round 1 is the sum, over the groups closed by a blank line, of how many questions anyone answered. |
| `CustomCustoms.TallyFullIffEveryLine` | day06/day06.go:212-220 | When no line repeats an answer, a letter's count equals the group size exactly when every line holds the letter. |
| `CustomCustoms.FullTallyIsIntersection` | day06/day06.go:153 | For a non-empty group with no repeated answers, the keys counted in round 2 are the questions everyone answered. |
| `CustomCustoms.Total2IsSumOfIntersections` | day06/day06.go:151-158 | With no empty group and no repeated answer in a line, round 2 is the sum of how many questions everyone answered. |
| `CustomCustoms.CloseGroup` | day06/day06.go:151-153 | When the maps mirror the lines read, at a blank line the keys marked true are the open group's characters. The keys whose count equals the group size are its full tally. |
| `CustomCustoms.ResetOpensGroup` | day06/day06.go:156-158 | After the resets at a blank line, the maps describe an empty open group, so groups do not interfere. |
| `CustomCustoms.EmptyGroupCountsEveryKey` | day06/day06.go:151-158 | A blank line that closes an empty group adds every key to round 2. Every count is 0, as is the number of answerers. |
| `CustomCustoms.UnterminatedGroupNotCounted` | day06/day06.go:145-168 | Lines after the last blank line add nothing to either total. |
| `CustomCustoms.DocumentedTotals` | day06/day06.go:26-95 | On the documented answers, round 1 totals 11 and round 2 totals 6. |

## Left out

- Reading the input file, splitting it into lines and printing the answers are left out. Each program takes its lines as a sequence of strings and returns its answers.
- `fmt.Sscanf` is a library call and is left out. For 2020/day02 each line comes with what its two scans give: the values scanned, or a scan error other than end of input. The model decides from the count of ':' whether the line is scanned at all. For 2020/day01 each line comes with what scanning "%d" gives: a number, end of input, or another error.
- The `check` helper's panic, Go's index-out-of-range faults and `panic` are modelled as an `ok == false` result or a fault outcome. This covers a malformed expense line and a number past slot 199 in 2020/day01, a failed scan of a two-chunk line in 2020/day02, an unexpected map character in day03, and a seat off the grid and the left-neighbour read at column 0 in day05.
- The fixed array sizes become preconditions where the Go program would index out of range:
  - 500 passport records, required only of lines with a recognised key, since only those index the database;
  - 1000 seat-list entries;
  - a tree map of given size, with non-empty lines inside it.
- `TobogganTrajectory.CountTrees` requires a slope with 0 <= dx <= cols and dy >= 1. With the single subtraction in day03.go, a larger dx would index out of range. The program's five slopes meet this.
- The `debug` helper in 2020/day02 and `printSeatMap` in day05 only print, and are left out.
- Go ranges over strings by rune with byte offsets. The model treats every character as one position, which matches the ASCII inputs.
- The iteration order of Go maps in day06 is left out. The loops visit keys in an arbitrary order, and the counts do not depend on it.
- Field values of passports (year ranges, units, colours) are not checked by day04/day04.go and are not modelled.
- The day04 documented four-passport batch is stated with each line written as its tokens joined by spaces, and with the token values left open, since day04.go never reads them. The documented values are one instance.
- The day06 model keeps the Go program's behaviour on odd inputs, stated by lemmas:
  - a blank line closing an empty group adds all keys to round 2;
  - a final group with no blank line after it is not counted.
- `PasswordPhilosophy.CountValidPart1` and `PasswordPhilosophy.CountValidPart2` use the ':' count as the test for "two chunks". What the scans of a line with one ':' give is taken as given, including which fields an early end of input leaves at zero.
- Go's `int` is 64 bits wide, and 2020/day01 adds and multiplies entries without a check. The model uses unbounded integers and does not model the wrap-around, so an input whose sums or products leave the 64-bit range is answered differently. The members concerned:
- `ReportRepair.ScanPairs`: does not model 64-bit wrap-around of the pair sum, so a pair whose sum wraps to 2020 in Go is not found.
- `ReportRepair.FindPair`: does not model 64-bit wrap-around of the pair sum or of the product it answers.
- `ReportRepair.ScanThirds`: does not model 64-bit wrap-around of the triple sum.
- `ReportRepair.ScanTriples`: does not model 64-bit wrap-around of the triple sum.
- `ReportRepair.FindTriple`: does not model 64-bit wrap-around of the triple sum or of the product it answers.
- `ReportRepair.RepairAsWritten`: does not model 64-bit wrap-around of the sums and products in its two searches.
- `ReportRepair.Repair`: does not model 64-bit wrap-around of the sums and products in its two searches.
- `TobogganTrajectory.SlopeProduct`: does not model 64-bit wrap-around of the product, which only a map of thousands of rows could reach.

## Findings

| source | as written | input that shows it | evidently intended | confidence | as-written member | corrected member |
|---|---|---|---|---|---|---|
| 2020/day01/day01.go:81-123 | The searches run over all 200 slots, and slots no line filled hold 0. A pair summing to 2020 plus any unfilled slot therefore forms a "triple". | The documented six-entry report: Part 2 meets 1721 + 299 + 0 first and answers 0. | Search only the numbers of the report, giving 241861950 as documented. | high; not executed | `ReportRepair.DocumentedAnswersAsWritten` | `ReportRepair.DocumentedAnswers` |
