# Advent of Code 2023, days 1 and 2, in Dafny

This project models two puzzle solvers and proves properties of them.

Day 2, "Cube Conundrum", is in `cube_conundrum.dfy`:
- A line `Game <id>: <set>; <set>; ...` lists draws of cubes. Each set is made of
  `<count> <colour>` clauses separated by `, `.
- The parsers `parse_game`, `parse_sets`, `parse_set`, `parse_colour` and `parse_game_id` read
  such a line. `Set::new` turns the clauses of one set into a record with an optional count per colour.
- `Set::is_impossible` and `Game::is_valid` check a game against a bag of 12 red, 13 green and
  14 blue cubes.
- `Game::fewest_possible_cubes` takes the per-colour maximum over a game's sets, and
  `Set::power` multiplies the counts that are present.
- `part_one` sums the ids of the possible games. `part_two` sums the powers of the games'
  fewest cubes.

Day 1, "Trebuchet?!", is in `trebuchet.dfy`:
- `parse_digits` keeps the ASCII digits of a line and reads the first and the last as a two-digit
  number.
- `parse_line` also records the digit of every number word `one` … `nine` that starts at a
  position, testing each position on its own, so overlapping words all count.
- `part_one` and `part_two` sum these values over the lines of the input.

`text.dfy` holds what both days share:
- ASCII digits and decimal numerals;
- `str::starts_with`;
- Rust's `str::lines`;
- the `lines().map(...).expect(...)` pattern, which stops at the first failing line.

`wrappers.dfy` holds `Option` and `Result`.

Each imperative function of the source is a Dafny `method`: `Set::new`, `power`,
`is_impossible`, `is_valid`, `fewest_possible_cubes`, `parse_digits` and `parse_line`.
The loops of `Set::new`, `is_valid`, `fewest_possible_cubes`, `parse_digits` and `parse_line`
carry loop invariants; `power` and `is_impossible` are straight-line code.

Each such method is proved equal to a specification function. Lemmas then prove what the
source promises about that function. The nom parsers and the iterator chains of the drivers are
functions.

A panic in the source becomes an explicit failure in the model:
- `digits[0]` on a line without digits gives `None`.
- `Set::new` on an unknown colour gives `None`.
- `unwrap` or `expect` on line `i` gives `Err(i)`.

## Model

| member | source | states |
|---|---|---|
| Text.StartsWithIsPrefix | src/bin/01.rs:37-53 | `starts_with` holds exactly when the prefix fits in the string and equals its front |
| Text.LeadingDigits | src/bin/02.rs:152 | `digit1` consumes a run of ASCII digits that stops at the first non-digit |
| Text.DecimalRoundTrip | src/bin/02.rs:152 | reading back the decimal numeral of `n` gives `n` |
| Text.LinesOfUnlines | src/bin/02.rs:163-165 | `lines()` splits newline-terminated lines back into exactly those lines |
| Text.MapLines | src/bin/01.rs:4-7 | mapping with `expect` succeeds iff every line has a value, gives the values in line order, and otherwise fails at the first line without one |
| Text.MapLinesAgree | src/bin/01.rs:66-70 | two per-line functions that agree on every line map the lines to the same result |
| CubeConundrum.LastCountIsLastOccurrence | src/bin/02.rs:33-40 | a colour's count is absent iff no clause names it, and otherwise comes from the last clause naming it |
| CubeConundrum.SetOfClauses | src/bin/02.rs:26-41 | `Set::new` fails iff some clause names an unknown colour; each colour is `None` iff unmentioned, else holds the last mentioned count |
| CubeConundrum.NewSet | src/bin/02.rs:26-41 | the loop that assigns counts in order builds exactly the set above, or fails where the source panics |
| CubeConundrum.Power | src/bin/02.rs:44-60 | the product of the present counts; an all-absent set has power 1; the power is 0 iff some colour is present with count 0 |
| CubeConundrum.PowerIsZero | src/bin/02.rs:44-60 | a power is 0 exactly when a present count is 0, so an absent colour contributes 1 and never 0 |
| CubeConundrum.IsImpossible | src/bin/02.rs:62-85 | true iff some present count exceeds its colour's limit (red 12, green 13, blue 14) |
| CubeConundrum.IsValid | src/bin/02.rs:95-103 | true iff no set of the game is impossible; a game with no sets is valid |
| CubeConundrum.MaxCountIsMaximum | src/bin/02.rs:105-125 | the per-colour running maximum bounds every set's count (absent as 0) and is attained by a set, or is 0 |
| CubeConundrum.MaxCountIsLeastBound | src/bin/02.rs:105-125 | a count bounds every set of the game iff it is at least the maximum |
| CubeConundrum.FewestIsPerColourMaximum | src/bin/02.rs:105-125 | each colour of the fewest cubes is at least every set's count of it and equals one of them; it is `None` iff no set has a positive count of it |
| CubeConundrum.FewestPossibleCubes | src/bin/02.rs:105-125 | the loop with its `unwrap_or(0)` comparisons computes exactly the per-colour maxima, never storing a count of 0 |
| CubeConundrum.PowerOfFewestIsPositive | src/bin/02.rs:105-125 | the power of a game's fewest cubes is at least 1 |
| CubeConundrum.Tag | src/bin/02.rs:130 | `tag` succeeds iff the input starts with the tag, and returns exactly what follows it |
| CubeConundrum.Number | src/bin/02.rs:152 | a count parses iff the input starts with a digit; its value is the decimal value of the whole leading run of digits (so `03` reads as 3) and the rest is what follows that run |
| CubeConundrum.ColourWord | src/bin/02.rs:154 | the `alt` of colour tags succeeds iff the input starts with `red`, `blue` or `green`, and splits off a known colour word |
| CubeConundrum.ParseColourAccepts | src/bin/02.rs:150-156 | a clause parses iff it is digits, one space and a colour word |
| CubeConundrum.ParseColour | src/bin/02.rs:150-156 | a parsed clause names a known colour and consumes input; its count is the decimal value of the leading digits, which are followed by one space, the colour name and the rest |
| CubeConundrum.ClauseTail | src/bin/02.rs:144 | the `(", " clause)*` loop yields clauses with known colours and never grows the input |
| CubeConundrum.ParseSet | src/bin/02.rs:143-148 | a set parses iff its first clause does, and the set built names some colour |
| CubeConundrum.SetTail | src/bin/02.rs:139 | the `("; " set)*` loop yields sets that each name a colour |
| CubeConundrum.ParseSets | src/bin/02.rs:138-141 | `parse_sets` succeeds iff a first clause parses, with at least one set |
| CubeConundrum.ParseGameId | src/bin/02.rs:158-160 | the id parses iff the line starts with `Game ` and a digit; its value is the numeral read |
| CubeConundrum.ParseGame | src/bin/02.rs:128-136 | a successful parse consumes part of the line |
| CubeConundrum.ParseGameAccepts | src/bin/02.rs:128-136 | a line parses iff it has `Game `, digits, `: ` and a clause, and the game's id is those digits' value; a missing piece builds no game |
| CubeConundrum.ParseGameOfRendering | src/bin/02.rs:128-148 | a written-out line parses to its id and, per set, what `Set::new` builds from that set's clauses (repeats included), and returns the remainder |
| CubeConundrum.ParseRenderedGame | src/bin/02.rs:128-160 | writing a game out and parsing it gives back the same game and remainder |
| CubeConundrum.ParsedGameIsRenderable | src/bin/02.rs:138-148 | a parsed game has at least one set, and each set names a colour |
| CubeConundrum.ReparseParsedGame | src/bin/02.rs:128-160 | a parsed game written out in canonical form parses to itself |
| CubeConundrum.ExampleSets | src/bin/02.rs:26-41 | the example's clause lists build `{red 4, blue 3}`, `{red 1, green 2, blue 6}` and `{green 2}` |
| CubeConundrum.ExampleGameOneParses | src/bin/02.rs:128-160 | `Game 1: 3 blue, 4 red; 1 red, 2 green, 6 blue; 2 green` parses to game 1 with those three sets |
| CubeConundrum.ExampleGameOneEvaluates | src/bin/02.rs:95-125 | that game is possible and the power of its fewest cubes is 48 |
| CubeConundrum.SumPossibleIdsAppend | src/bin/02.rs:166-172 | the filtered id sum splits over concatenated game lists |
| CubeConundrum.SumPossibleIdsBound | src/bin/02.rs:166-172 | the possible games' ids sum to at most all ids, and to all ids iff every impossible game has id 0 |
| CubeConundrum.SumPowersAppend | src/bin/02.rs:183-188 | the sum of powers splits over concatenated game lists |
| CubeConundrum.SumPowersAtLeastGames | src/bin/02.rs:183-188 | the sum of powers is at least the number of games |
| CubeConundrum.PartOne | src/bin/02.rs:162-175 | fails iff some line does not parse, and then reports the index of the first line that does not parse; otherwise the sum of the possible games' ids, `None` iff it does not fit in `u32` |
| CubeConundrum.TruncateU32 | src/bin/02.rs:190 | `as u32` keeps the value modulo 2^32, unchanged below 2^32 |
| CubeConundrum.PartTwo | src/bin/02.rs:177-191 | fails iff some line does not parse, and then reports the index of the first line that does not parse; otherwise the sum of the powers of the fewest cubes, truncated to `u32` |
| Trebuchet.IsDigit | src/bin/01.rs:26-28 | true exactly for the characters `0` to `9` |
| Trebuchet.DigitsOfAppend | src/bin/01.rs:13-18 | the digits kept from a concatenation are the digits of each part, in order |
| Trebuchet.DigitsOfAllDigits | src/bin/01.rs:13-18 | a line made only of digits keeps all of them |
| Trebuchet.DigitsOfNone | src/bin/01.rs:13-18 | nothing is kept iff the line has no digit |
| Trebuchet.DigitsOfKeepsExactlyDigits | src/bin/01.rs:13-18 | a character is kept iff it is in the line and is a digit |
| Trebuchet.DigitsOfFirst | src/bin/01.rs:13-20 | the first digit kept is the line's first digit |
| Trebuchet.DigitsOfLast | src/bin/01.rs:13-20 | the last digit kept is the line's last digit |
| Trebuchet.Combine | src/bin/01.rs:20-23 | no value iff there is no digit; otherwise ten times the first digit plus the last, below 100 |
| Trebuchet.ParseDigits | src/bin/01.rs:12-24 | the scan and the combination return the line's calibration value |
| Trebuchet.CalibrationValueExists | src/bin/01.rs:20 | `parse_digits` has a value iff the line has a digit |
| Trebuchet.CalibrationValueOfDigits | src/bin/01.rs:12-24 | the value is ten times the line's first digit plus its last digit, and is below 100 |
| Trebuchet.CalibrationValueOfOneDigit | src/bin/01.rs:20-23 | a line with a single digit `d` gives `11 * d` |
| Trebuchet.ExampleTrebuchet | src/bin/01.rs:12-24 | `treb7uchet` gives 77 |
| Trebuchet.ExampleFiveDigits | src/bin/01.rs:12-24 | `a1b2c3d4e5f` gives 15 |
| Trebuchet.WordDigitChain | src/bin/01.rs:37-55 | the word search is the source's else-if chain of `starts_with` tests, in the source's order |
| Trebuchet.NumberWordsExclusive | src/bin/01.rs:37-55 | no string starts with two different number words |
| Trebuchet.WordDigitSpec | src/bin/01.rs:37-55 | a position yields digit `d` iff the rest of the line starts with `d`'s word, and nothing iff it starts with none |
| Trebuchet.DigitStartsNoWord | src/bin/01.rs:33-55 | text starting with a digit starts no number word |
| Trebuchet.WordDigitOfWord | src/bin/01.rs:37-55 | text that starts with the word for `d` yields `d` |
| Trebuchet.OtherLetterStartsNoWord | src/bin/01.rs:37-55 | text shorter than three characters, or starting with none of `o t f s e n`, yields no word |
| Trebuchet.RecordedAtFound | src/bin/01.rs:33-55 | at most one digit is recorded per position: the digit there, or else the digit of the word starting there |
| Trebuchet.PushWordDigit | src/bin/01.rs:37-55 | the chain of pushes appends the digit of the word the rest starts with, or nothing |
| Trebuchet.ScanPosition | src/bin/01.rs:33-55 | one loop iteration appends what is recorded at that position |
| Trebuchet.ScanStep | src/bin/01.rs:32-56 | after one more position, the recorded digits are those before it plus what that position records |
| Trebuchet.ParseLine | src/bin/01.rs:30-64 | the scan and the combination return the first and last digits recorded over all positions, read as a two-digit number |
| Trebuchet.WordCalibrationValueExists | src/bin/01.rs:58 | `parse_line` has a value iff some position has a digit or starts a number word |
| Trebuchet.WordCalibrationValueOfPositions | src/bin/01.rs:30-64 | the value is ten times the digit found at the first position that has one, plus the digit found at the last |
| Trebuchet.GatherWithoutWords | src/bin/01.rs:32-56 | where no number word starts, the scan records exactly the line's digits |
| Trebuchet.WordCalibrationValueWithoutWords | src/bin/01.rs:30-64 | on a line without number words, `parse_line` returns the same value as `parse_digits` |
| Trebuchet.ExampleOverlappingWords | src/bin/01.rs:30-64 | `eightwo` records 8 and then 2, giving 82 |
| Trebuchet.SumOfTwoDigitValues | src/bin/01.rs:4-7 | a sum of values below 100 is at most 99 per value |
| Trebuchet.PartOne | src/bin/01.rs:3-10 | fails at the first line without a digit (every earlier line has a value); otherwise the sum of the lines' `parse_digits` values |
| Trebuchet.PartTwo | src/bin/01.rs:66-73 | fails at the first line where nothing is recorded (every earlier line has a value); otherwise the sum of the lines' `parse_line` values |
| Trebuchet.PartsBound | src/bin/01.rs:3-10 | both answers are at most 99 per line |
| Trebuchet.PartTwoWithoutWords | src/bin/01.rs:66-73 | on an input without number words, part two equals part one |

## Left out

- The nom library's error values (`IResult`'s `Err`) are modelled as `None`. Which parser failed, and where, is not kept.
- The `dbg!` output in `is_impossible` and `is_valid` is left out, since it only writes to standard error.
- The `advent_of_code::solution!` macro, `read_file` and the unit tests are left out; they are file I/O and harness. The tests' `assert_eq!(result, None)` contradict the code (`part_two` always returns `Some`), so they are not used as specifications.
- Panics are modelled as failures rather than crashes:
  - `unwrap` and `expect` on line `i` become `Err(i)`, for the first such line;
  - the `panic!` of `Set::new` on an unknown colour becomes `None`;
  - `digits[0]` on an empty digit list becomes `None`.
- Integer widths are modelled as unbounded naturals, with these exceptions:
  - `try_into` in day 2's `part_one` is an explicit bound check against 2^32;
  - `as u32` in day 2's `part_two` is an explicit modulo 2^32.
- CubeConundrum.Number: does not model `usize::from_str` overflow, because counts and ids are unbounded naturals. An id or count above `usize::MAX` parses here, while the source's `map_res` rejects it. As the id or as the first count of the first set, that makes the source's line fail to parse. As any later count, the source's `separated_list1` backtracks and silently drops that clause and everything after it, so the source's game can differ from the model's: `Game 1: 1 red, 99999999999999999999999 blue; 20 red` is `Game 1` with the single set `1 red` in the source, a possible game, but an impossible one here.
- Trebuchet.PartOne: does not model `u32` overflow of the sum, because the sum is an unbounded natural.
- Trebuchet.PartTwo: does not model `u32` overflow of the sum, for the same reason.
- Day 1 returns `Some(sum)` on success; this is `Ok(sum)` here, since the only other outcome is the panic.
- The `map_err` and `.ok()?` paths of the digit parse cannot be taken: two ASCII digits always parse as a `u32`. They are not modelled.
- Non-ASCII input is not modelled. `parse_line` slices `line[i..]` with a character index used as a byte index, which differs from the model, or panics, once a character is wider than one byte. Characters here are whole Unicode scalars.
- The day 1 word search is a recursive search over the nine words, not the written-out chain. `Trebuchet.WordDigitChain` proves the two equal, and the loop body `Trebuchet.PushWordDigit` is the chain itself.
- In these places the model follows the code, where a reader might expect otherwise:
  - The power multiplies only the colours present, so an absent colour is a factor of 1, not 0. `fewest_possible_cubes` never stores a count of 0, so every game's power is at least 1.
  - `parse_game` returns the text after the last set it could read, and the drivers drop it (`.1`). Trailing text after a valid prefix is accepted, not rejected.
  - `lines()` yields interior empty lines. These are not skipped: day 2 fails to parse them and day 1 finds no digit in them, so both report a failure at that line.
  - A colour repeated within one set keeps its last count.
  - `as u32` in day 2's `part_two` wraps silently instead of reporting overflow.
