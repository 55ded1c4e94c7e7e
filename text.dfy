/**
  Character-level helpers shared by both solvers: ASCII digits, decimal numerals,
  prefixes, and the line splitting of Rust's `str::lines`.
*/
module Text {
  import opened Wrappers

  /** `char::is_ascii_digit`. */
  predicate IsAsciiDigit(c: char)
  {
    '0' <= c <= '9'
  }

  predicate AllDigits(s: string)
  {
    forall j :: 0 <= j < |s| ==> IsAsciiDigit(s[j])
  }

  /** The numeric value of an ASCII digit. */
  function DigitValue(c: char): (v: nat)
    requires IsAsciiDigit(c)
    ensures v < 10
  {
    c as int - '0' as int
  }

  /** The ASCII digit whose value is `d`. */
  function DigitChar(d: nat): (c: char)
    requires d < 10
    ensures IsAsciiDigit(c) && DigitValue(c) == d
  {
    ('0' as int + d) as char
  }

  /** `str::starts_with`: `prefix` is the front of `s`, compared character by character. */
  predicate StartsWith(s: string, prefix: string)
    ensures StartsWith(s, prefix) ==> |prefix| <= |s|
  {
    prefix == [] || (s != [] && s[0] == prefix[0] && StartsWith(s[1..], prefix[1..]))
  }

  lemma {:induction false} StartsWithIsPrefix(s: string, prefix: string)
    ensures StartsWith(s, prefix) <==> |prefix| <= |s| && s[..|prefix|] == prefix
  {
    if prefix != [] && s != [] {
      StartsWithIsPrefix(s[1..], prefix[1..]);
      if |prefix| <= |s| {
        assert s[..|prefix|] == [s[0]] + s[1..][..|prefix| - 1];
        assert prefix == [prefix[0]] + prefix[1..];
      }
    }
  }

  /** Whatever follows, `prefix + rest` starts with `prefix`. */
  lemma StartsWithConcat(prefix: string, rest: string)
    ensures StartsWith(prefix + rest, prefix)
  {
    StartsWithIsPrefix(prefix + rest, prefix);
    assert (prefix + rest)[..|prefix|] == prefix;
  }

  /** Concatenation regrouped to the right. */
  lemma Regroup(a: string, b: string, c: string, d: string)
    ensures a + b + c + d == a + (b + (c + d))
  {
  }

  /** Number of ASCII digits at the front of `s`. */
  function LeadingDigits(s: string): (k: nat)
    ensures k <= |s|
    ensures AllDigits(s[..k])
    ensures k < |s| ==> !IsAsciiDigit(s[k])
  {
    if s != [] && IsAsciiDigit(s[0]) then 1 + LeadingDigits(s[1..]) else 0
  }

  /** The value of a decimal numeral, most significant digit first. */
  function DecimalValue(ds: string): nat
    requires AllDigits(ds)
  {
    if ds == [] then 0 else 10 * DecimalValue(ds[..|ds| - 1]) + DigitValue(ds[|ds| - 1])
  }

  /** The shortest decimal numeral of `n` (`n.to_string()`). */
  function DecimalString(n: nat): (s: string)
    ensures s != [] && AllDigits(s)
  {
    (if n < 10 then [] else DecimalString(n / 10)) + [DigitChar(n % 10)]
  }

  lemma {:induction false} DecimalRoundTrip(n: nat)
    ensures DecimalValue(DecimalString(n)) == n
  {
    var s := DecimalString(n);
    assert s[..|s| - 1] == if n < 10 then [] else DecimalString(n / 10);
    if n >= 10 {
      DecimalRoundTrip(n / 10);
    }
  }

  /** A numeral followed by a non-digit is read back whole. */
  lemma {:induction false} LeadingDigitsOfNumeral(ds: string, rest: string)
    requires AllDigits(ds)
    requires rest == [] || !IsAsciiDigit(rest[0])
    ensures LeadingDigits(ds + rest) == |ds|
  {
    if ds != [] {
      assert (ds + rest)[1..] == ds[1..] + rest;
      LeadingDigitsOfNumeral(ds[1..], rest);
    }
  }

  /** Index of the first '\n' in `s`, or `|s|` when there is none. */
  function LineEnd(s: string): (k: nat)
    ensures k <= |s|
    ensures forall j :: 0 <= j < k ==> s[j] != '\n'
    ensures k < |s| ==> s[k] == '\n'
  {
    if s == [] || s[0] == '\n' then 0 else 1 + LineEnd(s[1..])
  }

  /** Drops one '\r' at the end of a line that was terminated by "\r\n". */
  function StripCarriageReturn(line: string): string
  {
    if line != [] && line[|line| - 1] == '\r' then line[..|line| - 1] else line
  }

  /**
    Rust's `str::lines`: split after every '\n', drop the '\n' and a '\r' just before it;
    a final line without '\n' is kept as it is, and no empty line follows a final '\n'.
  */
  function Lines(s: string): (ls: seq<string>)
    decreases |s|
  {
    if s == [] then []
    else
      var k := LineEnd(s);
      if k == |s| then [s] else [StripCarriageReturn(s[..k])] + Lines(s[k + 1..])
  }

  /** Every line terminated by '\n'. */
  function Unlines(ls: seq<string>): string
  {
    if ls == [] then [] else ls[0] + "\n" + Unlines(ls[1..])
  }

  /** A line as `lines` can yield it: no '\n' inside and no '\r' at its end. */
  predicate PlainLine(line: string)
  {
    (forall j :: 0 <= j < |line| ==> line[j] != '\n') &&
    (line == [] || line[|line| - 1] != '\r')
  }

  lemma {:induction false} LinesOfUnlines(ls: seq<string>)
    requires forall i :: 0 <= i < |ls| ==> PlainLine(ls[i])
    ensures Lines(Unlines(ls)) == ls
  {
    if ls != [] {
      var s := Unlines(ls);
      var tail := Unlines(ls[1..]);
      assert s == ls[0] + ("\n" + tail);
      assert s[|ls[0]|] == '\n';
      assert PlainLine(ls[0]);
      assert LineEnd(s) == |ls[0]| by {
        assert forall j :: 0 <= j < |ls[0]| ==> s[j] == ls[0][j];
      }
      assert s[..|ls[0]|] == ls[0];
      assert s[|ls[0]| + 1..] == tail;
      LinesOfUnlines(ls[1..]);
    }
  }

  /**
    `f` applied to every line, in order, as `lines().map(|line| f(line).unwrap())` does:
    `Err(i)` names the first line whose result is missing, where such a chain panics.
  */
  function MapLines<T>(lines: seq<string>, f: string -> Option<T>): (r: Result<seq<T>, nat>)
    ensures r.Ok? <==> forall i :: 0 <= i < |lines| ==> f(lines[i]).Some?
    ensures r.Ok? ==> |r.value| == |lines| &&
                      forall i :: 0 <= i < |lines| ==> r.value[i] == f(lines[i]).value
    ensures r.Err? ==> r.error < |lines| && f(lines[r.error]).None? &&
                       forall i :: 0 <= i < r.error ==> f(lines[i]).Some?
  {
    if lines == [] then Ok([])
    else
      match f(lines[0])
      case None => Err(0)
      case Some(v) =>
        assert forall i :: 1 <= i < |lines| ==> lines[i] == lines[1..][i - 1];
        match MapLines(lines[1..], f)
        case Err(i) => Err(i + 1)
        case Ok(vs) => Ok([v] + vs)
  }

  /** Two functions that agree on every line map the lines alike. */
  lemma {:induction false} MapLinesAgree<T>(lines: seq<string>, f: string -> Option<T>, g: string -> Option<T>)
    requires forall i :: 0 <= i < |lines| ==> f(lines[i]) == g(lines[i])
    ensures MapLines(lines, f) == MapLines(lines, g)
  {
    if lines != [] {
      assert forall i :: 1 <= i < |lines| ==> lines[i] == lines[1..][i - 1];
      MapLinesAgree(lines[1..], f, g);
    }
  }
}
