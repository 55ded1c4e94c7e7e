/**
  Day 1, "Trebuchet?!": a line's calibration value is the two-digit number made of the
  first and the last digit found in it. Part one finds only ASCII digits; part two also
  finds the number words "one" to "nine", at every position independently.
*/
module Trebuchet {
  import opened Wrappers
  import opened Text

  // ---------------------------------------------------------------------------
  // is_digit and parse_digits

  /** `is_digit`: the characters `parse_digits` keeps. */
  function IsDigit(c: char): (b: bool)
    ensures b <==> c in "0123456789"
  {
    IsAsciiDigit(c)
  }

  /** The digits of `s`, left to right: what `parse_digits` pushes onto `digits`. */
  function DigitsOf(s: string): (ds: string)
    ensures AllDigits(ds) && |ds| <= |s|
  {
    if s == [] then []
    else DigitsOf(s[..|s| - 1]) + (if IsDigit(s[|s| - 1]) then [s[|s| - 1]] else [])
  }

  /** The filter splits over a concatenation. */
  lemma {:induction false} DigitsOfAppend(a: string, b: string)
    ensures DigitsOf(a + b) == DigitsOf(a) + DigitsOf(b)
  {
    if b == [] {
      assert a + b == a;
    } else {
      var ab, init, c := a + b, b[..|b| - 1], b[|b| - 1];
      var kept := if IsDigit(c) then [c] else [];
      assert ab[..|ab| - 1] == a + init;
      assert ab[|ab| - 1] == c;
      assert DigitsOf(ab) == DigitsOf(a + init) + kept;
      assert DigitsOf(b) == DigitsOf(init) + kept;
      DigitsOfAppend(a, init);
    }
  }

  /** A line made only of digits keeps them all. */
  lemma {:induction false} DigitsOfAllDigits(s: string)
    requires AllDigits(s)
    ensures DigitsOf(s) == s
  {
    if s != [] {
      var init, c := s[..|s| - 1], s[|s| - 1];
      assert DigitsOf(s) == init + [c] by {
        assert AllDigits(init) by {
          assert forall j :: 0 <= j < |init| ==> init[j] == s[j];
        }
        DigitsOfAllDigits(init);
      }
      assert s == init + [c];
    }
  }

  /** A line keeps no digit exactly when it has none. */
  lemma {:induction false} DigitsOfNone(s: string)
    ensures DigitsOf(s) == [] <==> forall j :: 0 <= j < |s| ==> !IsDigit(s[j])
  {
    if s != [] {
      var init := s[..|s| - 1];
      DigitsOfNone(init);
      assert forall j :: 0 <= j < |init| ==> init[j] == s[j];
    }
  }

  /** Each kept digit is a character of the line, and each digit of the line is kept. */
  lemma {:induction false} DigitsOfKeepsExactlyDigits(s: string, c: char)
    ensures c in DigitsOf(s) <==> c in s && IsDigit(c)
  {
    if s != [] {
      var init := s[..|s| - 1];
      DigitsOfKeepsExactlyDigits(init, c);
      assert s == init + [s[|s| - 1]];
    }
  }

  /** At each position of `s`, the digit there if there is one. */
  function DigitFound(s: string): (found: seq<Option<char>>)
    ensures |found| == |s|
    ensures forall i :: 0 <= i < |s| ==> found[i] == if IsDigit(s[i]) then Some(s[i]) else None
  {
    seq(|s|, i requires 0 <= i < |s| => if IsDigit(s[i]) then Some(s[i]) else None)
  }

  /** Keeping the digits is gathering the digit found at each position. */
  lemma {:induction false} DigitsOfIsGather(s: string)
    ensures DigitsOf(s) == Gather(DigitFound(s))
  {
    if s != [] {
      var init := s[..|s| - 1];
      DigitsOfIsGather(init);
      assert DigitFound(s)[..|s| - 1] == DigitFound(init);
    }
  }

  /** The first digit kept is the line's first digit. */
  lemma DigitsOfFirst(s: string, i: nat)
    requires i < |s| && IsDigit(s[i])
    requires forall j :: 0 <= j < i ==> !IsDigit(s[j])
    ensures DigitsOf(s) != [] && DigitsOf(s)[0] == s[i]
  {
    DigitsOfIsGather(s);
    GatherFirst(DigitFound(s), i);
  }

  /** The last digit kept is the line's last digit. */
  lemma DigitsOfLast(s: string, i: nat)
    requires i < |s| && IsDigit(s[i])
    requires forall j :: i < j < |s| ==> !IsDigit(s[j])
    ensures DigitsOf(s) != [] && DigitsOf(s)[|DigitsOf(s)| - 1] == s[i]
  {
    DigitsOfIsGather(s);
    GatherLast(DigitFound(s), i);
  }

  /**
    `format!("{}{}", digits[0], digits[digits.len() - 1]).parse()`: the first and the last
    digit read as a two-digit number. With no digits the indexing panics, here `None`.
  */
  function Combine(ds: string): (r: Option<nat>)
    requires AllDigits(ds)
    ensures r.None? <==> ds == []
    ensures r.Some? ==> r.value == 10 * DigitValue(ds[0]) + DigitValue(ds[|ds| - 1])
    ensures r.Some? ==> r.value < 100
  {
    if ds == [] then None
    else
      var kept := [ds[0], ds[|ds| - 1]];
      assert kept[..1] == [ds[0]] && kept[..1][..0] == [];
      assert DecimalValue(kept[..1]) == DigitValue(ds[0]);
      Some(DecimalValue(kept))
  }

  /** The value `parse_digits` returns for `line`; `None` where it panics. */
  function CalibrationValue(line: string): Option<nat>
  {
    Combine(DigitsOf(line))
  }

  /** `parse_digits`: the scan over the line's characters, then the two-digit number. */
  method ParseDigits(line: string) returns (r: Option<nat>)
    ensures r == CalibrationValue(line)
  {
    var digits: string := [];
    for i := 0 to |line|
      invariant digits == DigitsOf(line[..i])
    {
      assert line[..i + 1][..i] == line[..i];
      if IsDigit(line[i]) {
        digits := digits + [line[i]];
      }
    }
    assert line[..|line|] == line;
    if digits == [] {
      return None;
    }
    var kept := [digits[0], digits[|digits| - 1]];
    r := Some(DecimalValue(kept));
  }

  /** A line has a calibration value exactly when it has a digit. */
  lemma CalibrationValueExists(line: string)
    ensures CalibrationValue(line).Some? <==> exists j :: 0 <= j < |line| && IsDigit(line[j])
  {
    DigitsOfNone(line);
  }

  /** The calibration value is ten times the line's first digit plus its last digit. */
  lemma CalibrationValueOfDigits(line: string, i: nat, j: nat)
    requires i < |line| && IsDigit(line[i]) && forall k :: 0 <= k < i ==> !IsDigit(line[k])
    requires j < |line| && IsDigit(line[j]) && forall k :: j < k < |line| ==> !IsDigit(line[k])
    ensures CalibrationValue(line) == Some(10 * DigitValue(line[i]) + DigitValue(line[j]))
    ensures CalibrationValue(line).value < 100
  {
    DigitsOfFirst(line, i);
    DigitsOfLast(line, j);
  }

  /** A line with a single digit `d` has calibration value `11 * d`. */
  lemma CalibrationValueOfOneDigit(line: string, i: nat)
    requires i < |line| && IsDigit(line[i])
    requires forall k :: 0 <= k < |line| && k != i ==> !IsDigit(line[k])
    ensures CalibrationValue(line) == Some(11 * DigitValue(line[i]))
  {
    CalibrationValueOfDigits(line, i, i);
  }

  lemma ExampleTrebuchet()
    ensures CalibrationValue("treb7uchet") == Some(77)
  {
    var line := "treb7uchet";
    CalibrationValueOfOneDigit(line, 4);
  }

  lemma ExampleFiveDigits()
    ensures CalibrationValue("a1b2c3d4e5f") == Some(15)
  {
    var line := "a1b2c3d4e5f";
    CalibrationValueOfDigits(line, 1, 9);
  }

  // ---------------------------------------------------------------------------
  // parse_line

  /** The English word of each digit from 1 to 9. */
  function NumberWord(d: nat): (w: string)
    requires 1 <= d <= 9
    ensures |w| >= 3
  {
    ["one", "two", "three", "four", "five", "six", "seven", "eight", "nine"][d - 1]
  }

  /** The digit of the first of the words for `d`, `d + 1`, ..., 9 that `s` starts with. */
  function FirstWordFrom(s: string, d: nat): (r: Option<nat>)
    requires 1 <= d <= 10
    ensures r.Some? ==> d <= r.value <= 9
    decreases 10 - d
  {
    if d == 10 then None
    else if StartsWith(s, NumberWord(d)) then Some(d)
    else FirstWordFrom(s, d + 1)
  }

  /**
    The else-if chain of `parse_line`: the digit whose word `s` starts with, trying
    "one" first and "nine" last.
  */
  function WordDigit(s: string): (r: Option<nat>)
    ensures r.Some? ==> 1 <= r.value <= 9
  {
    FirstWordFrom(s, 1)
  }

  /** The search is the source's chain of `starts_with` tests, in the source's order. */
  lemma WordDigitChain(s: string)
    ensures WordDigit(s) ==
      if StartsWith(s, "one") then Some(1)
      else if StartsWith(s, "two") then Some(2)
      else if StartsWith(s, "three") then Some(3)
      else if StartsWith(s, "four") then Some(4)
      else if StartsWith(s, "five") then Some(5)
      else if StartsWith(s, "six") then Some(6)
      else if StartsWith(s, "seven") then Some(7)
      else if StartsWith(s, "eight") then Some(8)
      else if StartsWith(s, "nine") then Some(9)
      else None
  {
    assert FirstWordFrom(s, 9) == if StartsWith(s, "nine") then Some(9) else None;
    assert FirstWordFrom(s, 8) == if StartsWith(s, "eight") then Some(8) else FirstWordFrom(s, 9);
    assert FirstWordFrom(s, 7) == if StartsWith(s, "seven") then Some(7) else FirstWordFrom(s, 8);
    assert FirstWordFrom(s, 6) == if StartsWith(s, "six") then Some(6) else FirstWordFrom(s, 7);
    assert FirstWordFrom(s, 5) == if StartsWith(s, "five") then Some(5) else FirstWordFrom(s, 6);
    assert FirstWordFrom(s, 4) == if StartsWith(s, "four") then Some(4) else FirstWordFrom(s, 5);
    assert FirstWordFrom(s, 3) == if StartsWith(s, "three") then Some(3) else FirstWordFrom(s, 4);
    assert FirstWordFrom(s, 2) == if StartsWith(s, "two") then Some(2) else FirstWordFrom(s, 3);
  }

  /** A word of two or more characters fixes the first two characters of what starts with it. */
  lemma StartsWithFrontPair(s: string, w: string)
    requires |w| >= 2 && StartsWith(s, w)
    ensures |s| >= 2 && s[0] == w[0] && s[1] == w[1]
  {
    assert StartsWith(s[1..], w[1..]);
  }

  /** No two number words share their first two letters. */
  lemma NumberWordFronts(d: nat, e: nat)
    requires 1 <= d <= 9 && 1 <= e <= 9
    requires NumberWord(d)[0] == NumberWord(e)[0] && NumberWord(d)[1] == NumberWord(e)[1]
    ensures d == e
  {
  }

  /** So a string starts with at most one number word. */
  lemma NumberWordsExclusive(s: string, d: nat, e: nat)
    requires 1 <= d <= 9 && 1 <= e <= 9
    requires StartsWith(s, NumberWord(d)) && StartsWith(s, NumberWord(e))
    ensures d == e
  {
    StartsWithFrontPair(s, NumberWord(d));
    StartsWithFrontPair(s, NumberWord(e));
    NumberWordFronts(d, e);
  }

  lemma {:induction false} FirstWordFromSpec(s: string, d0: nat)
    requires 1 <= d0 <= 10
    ensures forall d :: d0 <= d <= 9 ==> (FirstWordFrom(s, d0) == Some(d) <==> StartsWith(s, NumberWord(d)))
    ensures FirstWordFrom(s, d0).None? <==> forall d :: d0 <= d <= 9 ==> !StartsWith(s, NumberWord(d))
    ensures FirstWordFrom(s, d0).Some? ==> d0 <= FirstWordFrom(s, d0).value <= 9
    decreases 10 - d0
  {
    if d0 < 10 {
      FirstWordFromSpec(s, d0 + 1);
      if StartsWith(s, NumberWord(d0)) {
        forall d | d0 < d <= 9 ensures !StartsWith(s, NumberWord(d)) {
          if StartsWith(s, NumberWord(d)) {
            NumberWordsExclusive(s, d0, d);
          }
        }
      }
    }
  }

  /**
    Whatever order the chain tries them in, `s` yields digit `d` exactly when it starts
    with `d`'s word: no number word is the front of another.
  */
  lemma WordDigitSpec(s: string)
    ensures forall d :: 1 <= d <= 9 ==> (WordDigit(s) == Some(d) <==> StartsWith(s, NumberWord(d)))
    ensures WordDigit(s).None? <==> forall d :: 1 <= d <= 9 ==> !StartsWith(s, NumberWord(d))
    ensures WordDigit(s).Some? ==> 1 <= WordDigit(s).value <= 9
  {
    FirstWordFromSpec(s, 1);
  }

  /** A digit character starts no number word. */
  lemma DigitStartsNoWord(s: string)
    requires s != [] && IsDigit(s[0])
    ensures WordDigit(s).None?
  {
    WordDigitSpec(s);
    forall d | 1 <= d <= 9 ensures !StartsWith(s, NumberWord(d)) {
      if StartsWith(s, NumberWord(d)) {
        StartsWithFrontPair(s, NumberWord(d));
      }
    }
  }

  /** What the scan pushes at position `i`: the digit there, then the digit of a word starting there. */
  function RecordedAt(line: string, i: nat): string
    requires i < |line|
  {
    (if IsDigit(line[i]) then [line[i]] else []) + WordPushed(line[i..])
  }

  /** What the word chain pushes for the rest of the line. */
  function WordPushed(rest: string): string
  {
    match WordDigit(rest)
    case Some(d) => [DigitChar(d)]
    case None => []
  }

  /** The one digit the scan records at position `i`: the digit there, or else the digit of a word starting there. */
  function FoundAt(line: string, i: nat): (r: Option<char>)
    requires i < |line|
    ensures r.Some? ==> IsAsciiDigit(r.value)
  {
    if IsDigit(line[i]) then Some(line[i])
    else
      match WordDigit(line[i..])
      case Some(d) => Some(DigitChar(d))
      case None => None
  }

  function Pushed(found: Option<char>): string
  {
    match found
    case Some(c) => [c]
    case None => []
  }

  /** At most one digit is recorded per position, since a digit does not start a word. */
  lemma RecordedAtFound(line: string, i: nat)
    requires i < |line|
    ensures RecordedAt(line, i) == Pushed(FoundAt(line, i))
    ensures |RecordedAt(line, i)| <= 1
  {
    if IsDigit(line[i]) {
      DigitStartsNoWord(line[i..]);
    }
  }

  /** What the scan finds at each of the first `n` positions of `line`. */
  function FoundPrefix(line: string, n: nat): (found: seq<Option<char>>)
    requires n <= |line|
    ensures |found| == n
    ensures forall k :: 0 <= k < n && found[k].Some? ==> IsAsciiDigit(found[k].value)
  {
    if n == 0 then [] else FoundPrefix(line, n - 1) + [FoundAt(line, n - 1)]
  }

  /** What the scan finds at every position of `line`. */
  function Found(line: string): (found: seq<Option<char>>)
    ensures |found| == |line|
  {
    FoundPrefix(line, |line|)
  }

  lemma {:induction false} FoundPrefixAt(line: string, n: nat, k: nat)
    requires k < n <= |line|
    ensures FoundPrefix(line, n)[k] == FoundAt(line, k)
  {
    var init := FoundPrefix(line, n - 1);
    assert FoundPrefix(line, n) == init + [FoundAt(line, n - 1)];
    if k < n - 1 {
      FoundPrefixAt(line, n - 1, k);
      assert (init + [FoundAt(line, n - 1)])[k] == init[k];
    }
  }

  /** Position `k` of `Found(line)` holds what the scan finds at position `k`. */
  lemma FoundElements(line: string)
    ensures forall k :: 0 <= k < |line| ==> Found(line)[k] == FoundAt(line, k)
  {
    forall k | 0 <= k < |line| ensures Found(line)[k] == FoundAt(line, k) {
      FoundPrefixAt(line, |line|, k);
    }
  }

  /** The characters found, in order. */
  function Gather(found: seq<Option<char>>): string
  {
    if found == [] then [] else Gather(found[..|found| - 1]) + Pushed(found[|found| - 1])
  }

  lemma GatherSnoc(found: seq<Option<char>>, x: Option<char>)
    ensures Gather(found + [x]) == Gather(found) + Pushed(x)
  {
    assert (found + [x])[..|found|] == found;
  }

  lemma {:induction false} GatherAllDigits(found: seq<Option<char>>)
    requires forall k :: 0 <= k < |found| && found[k].Some? ==> IsAsciiDigit(found[k].value)
    ensures AllDigits(Gather(found))
  {
    if found != [] {
      GatherAllDigits(found[..|found| - 1]);
    }
  }

  /** Nothing is gathered exactly when nothing is found. */
  lemma {:induction false} GatherNone(found: seq<Option<char>>)
    ensures |Gather(found)| == 0 <==> forall k :: 0 <= k < |found| ==> found[k].None?
  {
    if found != [] {
      var init := found[..|found| - 1];
      GatherNone(init);
      assert forall k :: 0 <= k < |init| ==> init[k] == found[k];
    }
  }

  /** The first character gathered is the one found first. */
  lemma {:induction false} GatherFirst(found: seq<Option<char>>, i: nat)
    requires i < |found| && found[i].Some?
    requires forall k :: 0 <= k < i ==> found[k].None?
    ensures |Gather(found)| > 0 && Gather(found)[0] == found[i].value
  {
    var init := found[..|found| - 1];
    assert forall k :: 0 <= k < |init| ==> init[k] == found[k];
    if |found| == i + 1 {
      GatherNone(init);
    } else {
      GatherFirst(init, i);
    }
  }

  /** The last character gathered is the one found last. */
  lemma {:induction false} GatherLast(found: seq<Option<char>>, j: nat)
    requires j < |found| && found[j].Some?
    requires forall k :: j < k < |found| ==> found[k].None?
    ensures |Gather(found)| > 0 && Gather(found)[|Gather(found)| - 1] == found[j].value
  {
    var init := found[..|found| - 1];
    if |found| > j + 1 {
      assert forall k :: j < k < |init| ==> init[k] == found[k];
      GatherLast(init, j);
      assert Gather(found) == Gather(init) + [];
    }
  }

  /** The value `parse_line` returns for `line`; `None` where it panics. */
  function WordCalibrationValue(line: string): Option<nat>
  {
    GatherAllDigits(Found(line));
    Combine(Gather(Found(line)))
  }

  /** The word chain of `parse_line`'s loop body: pushes the digit of the word `rest` starts with. */
  method PushWordDigit(digits: string, rest: string) returns (out: string)
    ensures out == digits + WordPushed(rest)
  {
    out := digits;
    WordDigitChain(rest);
    if StartsWith(rest, "one") {
      out := out + ['1'];
    } else if StartsWith(rest, "two") {
      out := out + ['2'];
    } else if StartsWith(rest, "three") {
      out := out + ['3'];
    } else if StartsWith(rest, "four") {
      out := out + ['4'];
    } else if StartsWith(rest, "five") {
      out := out + ['5'];
    } else if StartsWith(rest, "six") {
      out := out + ['6'];
    } else if StartsWith(rest, "seven") {
      out := out + ['7'];
    } else if StartsWith(rest, "eight") {
      out := out + ['8'];
    } else if StartsWith(rest, "nine") {
      out := out + ['9'];
    }
  }

  /** The body of `parse_line`'s loop at position `i`: the digit test, then the word chain. */
  method ScanPosition(digits: string, line: string, i: nat) returns (out: string)
    requires i < |line|
    ensures out == digits + RecordedAt(line, i)
  {
    out := digits;
    if IsAsciiDigit(line[i]) {
      out := out + [line[i]];
    }
    out := PushWordDigit(out, line[i..]);
  }

  /** `parse_line`: the scan over every position, then the first and last digit recorded. */
  method ParseLine(line: string) returns (r: Option<nat>)
    ensures r == WordCalibrationValue(line)
  {
    var digits: string := [];
    for i := 0 to |line|
      invariant digits == Gather(FoundPrefix(line, i))
    {
      digits := ScanPosition(digits, line, i);
      ScanStep(line, i);
    }
    GatherAllDigits(Found(line));
    if digits == [] {
      return None;
    }
    var kept := [digits[0], digits[|digits| - 1]];
    r := Some(DecimalValue(kept));
  }

  /** One position of the scan appends what it records there. */
  lemma ScanStep(line: string, i: nat)
    requires i < |line|
    ensures Gather(FoundPrefix(line, i + 1)) == Gather(FoundPrefix(line, i)) + RecordedAt(line, i)
  {
    GatherSnoc(FoundPrefix(line, i), FoundAt(line, i));
    RecordedAtFound(line, i);
  }

  /** `parse_line` has a value exactly when some position has a digit or starts a number word. */
  lemma WordCalibrationValueExists(line: string)
    ensures WordCalibrationValue(line).Some? <==> exists k :: 0 <= k < |line| && FoundAt(line, k).Some?
  {
    GatherNone(Found(line));
    FoundElements(line);
  }

  /**
    The value of `parse_line` is ten times the digit found at the first position that has
    one, plus the digit found at the last such position.
  */
  lemma WordCalibrationValueOfPositions(line: string, i: nat, j: nat)
    requires i < |line| && FoundAt(line, i).Some? && forall k :: 0 <= k < i ==> FoundAt(line, k).None?
    requires j < |line| && FoundAt(line, j).Some? && forall k :: j < k < |line| ==> FoundAt(line, k).None?
    ensures WordCalibrationValue(line) ==
      Some(10 * DigitValue(FoundAt(line, i).value) + DigitValue(FoundAt(line, j).value))
  {
    var found := Found(line);
    assert found[i] == FoundAt(line, i) && found[j] == FoundAt(line, j) by {
      FoundElements(line);
    }
    assert forall k :: 0 <= k < i ==> found[k].None? by {
      FoundElements(line);
    }
    assert forall k :: j < k < |found| ==> found[k].None? by {
      FoundElements(line);
    }
    CombineGathered(found, i, j);
  }

  /** Combining what is gathered reads the first and the last character found. */
  lemma CombineGathered(found: seq<Option<char>>, i: nat, j: nat)
    requires forall k :: 0 <= k < |found| && found[k].Some? ==> IsAsciiDigit(found[k].value)
    requires i < |found| && found[i].Some? && forall k :: 0 <= k < i ==> found[k].None?
    requires j < |found| && found[j].Some? && forall k :: j < k < |found| ==> found[k].None?
    ensures AllDigits(Gather(found))
    ensures Combine(Gather(found)) == Some(10 * DigitValue(found[i].value) + DigitValue(found[j].value))
  {
    GatherEnds(found, i, j);
  }

  /** The first and the last character gathered are the first and the last found. */
  lemma GatherEnds(found: seq<Option<char>>, i: nat, j: nat)
    requires forall k :: 0 <= k < |found| && found[k].Some? ==> IsAsciiDigit(found[k].value)
    requires i < |found| && found[i].Some? && forall k :: 0 <= k < i ==> found[k].None?
    requires j < |found| && found[j].Some? && forall k :: j < k < |found| ==> found[k].None?
    ensures var g := Gather(found);
      AllDigits(g) && g != [] && g[0] == found[i].value && g[|g| - 1] == found[j].value
  {
    GatherAllDigits(found);
    GatherFirst(found, i);
    GatherLast(found, j);
  }

  /** Where no number word starts, the scan records just the digits of the line. */
  lemma {:induction false} GatherWithoutWords(line: string, n: nat)
    requires n <= |line|
    requires forall k :: 0 <= k < n ==> WordDigit(line[k..]).None?
    ensures Gather(FoundPrefix(line, n)) == DigitsOf(line[..n])
  {
    if n > 0 {
      var c := line[n - 1];
      var p := FoundPrefix(line, n - 1);
      var x := if IsDigit(c) then Some(c) else None;
      var kept := if IsDigit(c) then [c] else [];
      GatherWithoutWords(line, n - 1);
      assert FoundPrefix(line, n) == p + [x] by {
        assert WordDigit(line[n - 1..]).None?;
      }
      GatherSnoc(p, x);
      assert Pushed(x) == kept;
      assert DigitsOf(line[..n]) == DigitsOf(line[..n - 1]) + kept by {
        assert line[..n][..n - 1] == line[..n - 1];
      }
    }
  }

  /** On a line without number words, `parse_line` agrees with `parse_digits`. */
  lemma WordCalibrationValueWithoutWords(line: string)
    requires forall k :: 0 <= k < |line| ==> WordDigit(line[k..]).None?
    ensures WordCalibrationValue(line) == CalibrationValue(line)
  {
    GatherWithoutWords(line, |line|);
    assert line[..|line|] == line;
  }

  /** A string that starts with the word of `d` yields `d`. */
  lemma WordDigitOfWord(d: nat, rest: string)
    requires 1 <= d <= 9
    ensures WordDigit(NumberWord(d) + rest) == Some(d)
  {
    StartsWithConcat(NumberWord(d), rest);
    WordDigitSpec(NumberWord(d) + rest);
  }

  /** No number word starts with a character other than the first letters of the words. */
  lemma OtherLetterStartsNoWord(s: string)
    requires |s| < 3 || s[0] !in "otfsen"
    ensures WordDigit(s).None?
  {
    WordDigitSpec(s);
    forall d | 1 <= d <= 9 ensures !StartsWith(s, NumberWord(d)) {
      if StartsWith(s, NumberWord(d)) {
        StartsWithFrontPair(s, NumberWord(d));
      }
    }
  }

  /** "eightwo": both overlapping words count, so the value is 82. */
  lemma ExampleOverlappingWords()
    ensures WordCalibrationValue("eightwo") == Some(82)
  {
    var line := "eightwo";
    assert line[0..] == NumberWord(8) + "wo";
    WordDigitOfWord(8, "wo");
    assert line[4..] == NumberWord(2) + [];
    WordDigitOfWord(2, []);
    assert FoundAt(line, 0) == Some('8');
    assert FoundAt(line, 4) == Some('2');
    forall k | 0 < k < 4 || 4 < k < |line|
      ensures FoundAt(line, k).None?
    {
      OtherLetterStartsNoWord(line[k..]);
    }
    WordCalibrationValueOfPositions(line, 0, 4);
  }

  // ---------------------------------------------------------------------------
  // part_one and part_two

  function Sum(vs: seq<nat>): nat
  {
    if vs == [] then 0 else vs[0] + Sum(vs[1..])
  }

  /** A sum of two-digit values is at most 99 per value. */
  lemma {:induction false} SumOfTwoDigitValues(vs: seq<nat>)
    requires forall i :: 0 <= i < |vs| ==> vs[i] < 100
    ensures Sum(vs) <= 99 * |vs|
  {
    if vs != [] {
      SumOfTwoDigitValues(vs[1..]);
    }
  }

  /**
    `part_one`: the sum of the lines' calibration values. `Err(i)` stands for the panic
    of `expect` on line `i`, the first line without a digit.
  */
  function PartOne(input: string): (r: Result<nat, nat>)
    ensures r.Err? <==> exists i :: 0 <= i < |Lines(input)| && CalibrationValue(Lines(input)[i]).None?
    ensures r.Err? ==> r.error < |Lines(input)| && CalibrationValue(Lines(input)[r.error]).None?
    ensures r.Err? ==> forall i :: 0 <= i < r.error ==> CalibrationValue(Lines(input)[i]).Some?
    ensures r.Ok? ==> r.value == Sum(MapLines(Lines(input), CalibrationValue).value)
  {
    var lines := Lines(input);
    match MapLines(lines, CalibrationValue)
    case Err(i) =>
      assert CalibrationValue(lines[i]).None?;
      Err(i)
    case Ok(vs) => Ok(Sum(vs))
  }

  /** `part_two`: the same sum over `parse_line`. */
  function PartTwo(input: string): (r: Result<nat, nat>)
    ensures r.Err? <==> exists i :: 0 <= i < |Lines(input)| && WordCalibrationValue(Lines(input)[i]).None?
    ensures r.Err? ==> r.error < |Lines(input)| && WordCalibrationValue(Lines(input)[r.error]).None?
    ensures r.Err? ==> forall i :: 0 <= i < r.error ==> WordCalibrationValue(Lines(input)[i]).Some?
    ensures r.Ok? ==> r.value == Sum(MapLines(Lines(input), WordCalibrationValue).value)
  {
    var lines := Lines(input);
    match MapLines(lines, WordCalibrationValue)
    case Err(i) =>
      assert WordCalibrationValue(lines[i]).None?;
      Err(i)
    case Ok(vs) => Ok(Sum(vs))
  }

  /** Both answers are at most 99 per line. */
  lemma PartsBound(input: string)
    ensures PartOne(input).Ok? ==> PartOne(input).value <= 99 * |Lines(input)|
    ensures PartTwo(input).Ok? ==> PartTwo(input).value <= 99 * |Lines(input)|
  {
    var lines := Lines(input);
    var one, two := MapLines(lines, CalibrationValue), MapLines(lines, WordCalibrationValue);
    if one.Ok? {
      forall i | 0 <= i < |one.value| ensures one.value[i] < 100 {
        assert CalibrationValue(lines[i]).Some?;
      }
      SumOfTwoDigitValues(one.value);
    }
    if two.Ok? {
      forall i | 0 <= i < |two.value| ensures two.value[i] < 100 {
        assert WordCalibrationValue(lines[i]).Some?;
      }
      SumOfTwoDigitValues(two.value);
    }
  }

  /** On an input without number words, both parts give the same answer. */
  lemma PartTwoWithoutWords(input: string)
    requires forall i, k :: 0 <= i < |Lines(input)| && 0 <= k < |Lines(input)[i]| ==>
      WordDigit(Lines(input)[i][k..]).None?
    ensures PartTwo(input) == PartOne(input)
  {
    var lines := Lines(input);
    forall i | 0 <= i < |lines| ensures WordCalibrationValue(lines[i]) == CalibrationValue(lines[i]) {
      WordCalibrationValueWithoutWords(lines[i]);
    }
    MapLinesAgree(lines, WordCalibrationValue, CalibrationValue);
  }
}
