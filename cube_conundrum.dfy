/**
  The cube game: a line "Game <id>: <set>; <set>; ..." where each set lists
  "<count> <colour>" clauses separated by ", ". Part one sums the ids of the games
  that are possible with 12 red, 13 green and 14 blue cubes; part two sums, per
  game, the power of the fewest cubes that make the game possible.
*/
module CubeConundrum {
  import opened Wrappers
  import opened Text

  const MaxRed: nat := 12
  const MaxGreen: nat := 13
  const MaxBlue: nat := 14

  /** The bound of `u32`, the drivers' answer type. */
  const U32Limit: nat := 0x1_0000_0000

  /** One draw of cubes: a count per colour, absent when the colour was not mentioned. */
  datatype Set = Set(red: Option<nat>, green: Option<nat>, blue: Option<nat>)

  datatype Game = Game(id: nat, sets: seq<Set>)

  datatype Colour = Red | Green | Blue

  /** One "<count> <colour>" clause as the parser hands it to `Set::new`. */
  type Clause = (nat, string)

  function Name(c: Colour): string
  {
    match c
    case Red => "red"
    case Green => "green"
    case Blue => "blue"
  }

  function Limit(c: Colour): nat
  {
    match c
    case Red => MaxRed
    case Green => MaxGreen
    case Blue => MaxBlue
  }

  function Count(s: Set, c: Colour): Option<nat>
  {
    match c
    case Red => s.red
    case Green => s.green
    case Blue => s.blue
  }

  /** `unwrap_or(0)` */
  function CountOrZero(s: Set, c: Colour): nat
  {
    match Count(s, c)
    case None => 0
    case Some(n) => n
  }

  predicate KnownColour(name: string)
  {
    name == "red" || name == "green" || name == "blue"
  }

  // ---------------------------------------------------------------------------
  // Set::new

  /** The count of the last clause that names `name`, if any. */
  function LastCount(clauses: seq<Clause>, name: string): Option<nat>
  {
    if clauses == [] then None
    else if clauses[|clauses| - 1].1 == name then Some(clauses[|clauses| - 1].0)
    else LastCount(clauses[..|clauses| - 1], name)
  }

  /** The set `Set::new` builds from `clauses`; `None` where it panics on an unknown colour. */
  function SetOf(clauses: seq<Clause>): Option<Set>
  {
    if forall i :: 0 <= i < |clauses| ==> KnownColour(clauses[i].1) then
      Some(Set(LastCount(clauses, "red"), LastCount(clauses, "green"), LastCount(clauses, "blue")))
    else
      None
  }

  lemma {:induction false} LastCountIsLastOccurrence(clauses: seq<Clause>, name: string)
    ensures LastCount(clauses, name).None? <==> forall i :: 0 <= i < |clauses| ==> clauses[i].1 != name
    ensures LastCount(clauses, name).Some? ==>
      exists i :: 0 <= i < |clauses| && clauses[i] == (LastCount(clauses, name).value, name) &&
        forall j :: i < j < |clauses| ==> clauses[j].1 != name
  {
    if clauses != [] {
      var n := |clauses| - 1;
      var init := clauses[..n];
      if clauses[n].1 == name {
        assert clauses[n] == (LastCount(clauses, name).value, name);
      } else {
        LastCountIsLastOccurrence(init, name);
        assert forall i :: 0 <= i < n ==> init[i] == clauses[i];
        if LastCount(init, name).Some? {
          var i :| 0 <= i < n && init[i] == (LastCount(init, name).value, name) &&
            forall j :: i < j < n ==> init[j].1 != name;
          assert clauses[i] == (LastCount(clauses, name).value, name);
          assert forall j :: i < j < |clauses| ==> clauses[j].1 != name;
        }
      }
    }
  }

  /**
    Each colour of the built set holds the count of the last clause naming it and is
    absent when no clause names it; any unknown colour name makes the build fail.
  */
  lemma SetOfClauses(clauses: seq<Clause>, c: Colour)
    ensures SetOf(clauses).None? <==> exists i :: 0 <= i < |clauses| && !KnownColour(clauses[i].1)
    ensures SetOf(clauses).Some? ==>
      (Count(SetOf(clauses).value, c).None? <==> forall i :: 0 <= i < |clauses| ==> clauses[i].1 != Name(c))
    ensures SetOf(clauses).Some? && Count(SetOf(clauses).value, c).Some? ==>
      exists i :: 0 <= i < |clauses| && clauses[i] == (Count(SetOf(clauses).value, c).value, Name(c)) &&
        forall j :: i < j < |clauses| ==> clauses[j].1 != Name(c)
  {
    LastCountIsLastOccurrence(clauses, Name(c));
  }

  /** `Set::new`: assigns each clause's count to its colour, in order. */
  method NewSet(clauses: seq<Clause>) returns (r: Option<Set>)
    ensures r == SetOf(clauses)
  {
    var out := Set(None, None, None);
    var i := 0;
    while i < |clauses|
      invariant 0 <= i <= |clauses|
      invariant forall j :: 0 <= j < i ==> KnownColour(clauses[j].1)
      invariant out == Set(LastCount(clauses[..i], "red"), LastCount(clauses[..i], "green"),
                           LastCount(clauses[..i], "blue"))
    {
      var (number, colour) := clauses[i];
      assert clauses[..i + 1][..i] == clauses[..i];
      if colour == "red" {
        out := out.(red := Some(number));
      } else if colour == "green" {
        out := out.(green := Some(number));
      } else if colour == "blue" {
        out := out.(blue := Some(number));
      } else {
        return None;
      }
      i := i + 1;
    }
    assert clauses[..i] == clauses;
    r := Some(out);
  }

  // ---------------------------------------------------------------------------
  // Set::power

  function Factor(n: Option<nat>): nat
  {
    match n
    case None => 1
    case Some(v) => v
  }

  /** The product of the counts that are present; an absent colour is a factor of 1. */
  function PowerOf(s: Set): nat
  {
    Factor(s.red) * Factor(s.green) * Factor(s.blue)
  }

  /** `Set::power` */
  method Power(s: Set) returns (p: nat)
    ensures p == PowerOf(s)
    ensures s == Set(None, None, None) ==> p == 1
    ensures p == 0 <==> exists c :: Count(s, c) == Some(0)
  {
    p := 1;
    if s.red.Some? {
      p := p * s.red.value;
    }
    if s.green.Some? {
      p := p * s.green.value;
    }
    if s.blue.Some? {
      p := p * s.blue.value;
    }
    PowerIsZero(s);
  }

  /** The power is 0 exactly when some colour is present with a count of 0. */
  lemma PowerIsZero(s: Set)
    ensures PowerOf(s) == 0 <==> exists c :: Count(s, c) == Some(0)
  {
    var r, g, b := Factor(s.red), Factor(s.green), Factor(s.blue);
    assert Count(s, Red) == Some(0) <==> r == 0;
    assert Count(s, Green) == Some(0) <==> g == 0;
    assert Count(s, Blue) == Some(0) <==> b == 0;
    if r != 0 && g != 0 && b != 0 {
      assert r * g >= 1;
      assert (r * g) * b >= 1;
    }
    assert (exists c :: Count(s, c) == Some(0)) <==> r == 0 || g == 0 || b == 0 by {
      forall c | Count(s, c) == Some(0) ensures r == 0 || g == 0 || b == 0 {
        match c
        case Red =>
        case Green =>
        case Blue =>
      }
    }
  }

  // ---------------------------------------------------------------------------
  // Set::is_impossible and Game::is_valid

  predicate Exceeds(n: Option<nat>, limit: nat)
  {
    n.Some? && n.value > limit
  }

  /** Some colour that is present has more cubes than the bag holds. */
  predicate Impossible(s: Set)
  {
    exists c :: Exceeds(Count(s, c), Limit(c))
  }

  /** `Set::is_impossible` */
  method IsImpossible(s: Set) returns (b: bool)
    ensures b == Impossible(s)
  {
    if s.red.Some? {
      if s.red.value > MaxRed {
        assert Exceeds(Count(s, Red), Limit(Red));
        return true;
      }
    }
    if s.green.Some? {
      if s.green.value > MaxGreen {
        assert Exceeds(Count(s, Green), Limit(Green));
        return true;
      }
    }
    if s.blue.Some? {
      if s.blue.value > MaxBlue {
        assert Exceeds(Count(s, Blue), Limit(Blue));
        return true;
      }
    }
    assert forall c :: !Exceeds(Count(s, c), Limit(c)) by {
      forall c ensures !Exceeds(Count(s, c), Limit(c)) {
        match c
        case Red =>
        case Green =>
        case Blue =>
      }
    }
    return false;
  }

  /** Every set of the game is possible; a game with no sets is possible. */
  predicate Possible(g: Game)
  {
    forall i :: 0 <= i < |g.sets| ==> !Impossible(g.sets[i])
  }

  /** `Game::is_valid` */
  method IsValid(g: Game) returns (b: bool)
    ensures b == Possible(g)
    ensures g.sets == [] ==> b
  {
    for i := 0 to |g.sets|
      invariant forall j :: 0 <= j < i ==> !Impossible(g.sets[j])
    {
      var impossible := IsImpossible(g.sets[i]);
      if impossible {
        return false;
      }
    }
    return true;
  }

  // ---------------------------------------------------------------------------
  // Game::fewest_possible_cubes

  function Max(a: nat, b: nat): nat
  {
    if a < b then b else a
  }

  /** The largest count of colour `c` over `sets`, absent counts taken as 0. */
  function MaxCount(sets: seq<Set>, c: Colour): nat
  {
    if sets == [] then 0 else Max(MaxCount(sets[..|sets| - 1], c), CountOrZero(sets[|sets| - 1], c))
  }

  /** A count of 0 is never stored: the running maximum starts absent. */
  function Presence(n: nat): Option<nat>
  {
    if n == 0 then None else Some(n)
  }

  /** The set `fewest_possible_cubes` returns for `g`. */
  function Fewest(g: Game): Set
  {
    Set(Presence(MaxCount(g.sets, Red)), Presence(MaxCount(g.sets, Green)), Presence(MaxCount(g.sets, Blue)))
  }

  /** `MaxCount` bounds every set's count and is one of them (or 0). */
  lemma {:induction false} MaxCountIsMaximum(sets: seq<Set>, c: Colour)
    ensures forall i :: 0 <= i < |sets| ==> CountOrZero(sets[i], c) <= MaxCount(sets, c)
    ensures MaxCount(sets, c) == 0 || exists i :: 0 <= i < |sets| && CountOrZero(sets[i], c) == MaxCount(sets, c)
  {
    if sets != [] {
      var init := sets[..|sets| - 1];
      MaxCountIsMaximum(init, c);
      assert forall i :: 0 <= i < |init| ==> init[i] == sets[i];
    }
  }

  /** A bag with `m` cubes of colour `c` suffices for every set exactly when `m` reaches the maximum. */
  lemma MaxCountIsLeastBound(sets: seq<Set>, c: Colour, m: nat)
    ensures (forall i :: 0 <= i < |sets| ==> CountOrZero(sets[i], c) <= m) <==> MaxCount(sets, c) <= m
  {
    MaxCountIsMaximum(sets, c);
  }

  /**
    Each colour of the fewest-cubes set is the maximum of that colour over the game's
    sets, and it is absent exactly when no set has a positive count of it.
  */
  lemma FewestIsPerColourMaximum(g: Game, c: Colour)
    ensures Count(Fewest(g), c).None? <==> forall i :: 0 <= i < |g.sets| ==> CountOrZero(g.sets[i], c) == 0
    ensures forall i :: 0 <= i < |g.sets| ==> CountOrZero(g.sets[i], c) <= CountOrZero(Fewest(g), c)
    ensures Count(Fewest(g), c).Some? ==>
      exists i :: 0 <= i < |g.sets| && CountOrZero(g.sets[i], c) == Count(Fewest(g), c).value
  {
    MaxCountIsMaximum(g.sets, c);
    assert CountOrZero(Fewest(g), c) == MaxCount(g.sets, c) by {
      match c
      case Red =>
      case Green =>
      case Blue =>
    }
  }

  /** Since absent colours are factors of 1 and present ones are positive, a power is never 0. */
  lemma {:induction false} PowerOfFewestIsPositive(g: Game)
    ensures PowerOf(Fewest(g)) >= 1
  {
    var s := Fewest(g);
    assert Factor(s.red) >= 1 && Factor(s.green) >= 1 && Factor(s.blue) >= 1;
    assert Factor(s.red) * Factor(s.green) >= 1;
  }

  /** `Game::fewest_possible_cubes` */
  method FewestPossibleCubes(g: Game) returns (out: Set)
    ensures out == Fewest(g)
  {
    out := Set(None, None, None);
    for i := 0 to |g.sets|
      invariant out == Set(Presence(MaxCount(g.sets[..i], Red)), Presence(MaxCount(g.sets[..i], Green)),
                           Presence(MaxCount(g.sets[..i], Blue)))
    {
      assert g.sets[..i + 1][..i] == g.sets[..i];
      var draw := g.sets[i];
      var red := if draw.red.Some? then draw.red.value else 0;
      if red > (if out.red.Some? then out.red.value else 0) {
        out := out.(red := Some(red));
      }
      var green := if draw.green.Some? then draw.green.value else 0;
      if green > (if out.green.Some? then out.green.value else 0) {
        out := out.(green := Some(green));
      }
      var blue := if draw.blue.Some? then draw.blue.value else 0;
      if blue > (if out.blue.Some? then out.blue.value else 0) {
        out := out.(blue := Some(blue));
      }
    }
    assert g.sets[..|g.sets|] == g.sets;
  }

  // ---------------------------------------------------------------------------
  // Parsing: parse_game, parse_sets, parse_set, parse_colour, parse_game_id

  /** A parse that succeeded: the value built and the input left unconsumed. */
  datatype Parsed<T> = Parsed(value: T, rest: string)

  /** `tag(t)`: consumes `t` at the front of `s`. */
  function Tag(t: string, s: string): (r: Option<string>)
    ensures r.Some? <==> StartsWith(s, t)
    ensures r.Some? ==> s == t + r.value
  {
    StartsWithIsPrefix(s, t);
    if StartsWith(s, t) then Some(s[|t|..]) else None
  }

  /** `map_res(digit1, usize::from_str)`: one or more ASCII digits read as a decimal number. */
  function Number(s: string): (r: Option<Parsed<nat>>)
    ensures r.Some? <==> s != [] && IsAsciiDigit(s[0])
    ensures r.Some? ==> |r.value.rest| < |s| && (r.value.rest == [] || !IsAsciiDigit(r.value.rest[0]))
    ensures r.Some? ==> var k := LeadingDigits(s); r.value == Parsed(DecimalValue(s[..k]), s[k..])
  {
    var k := LeadingDigits(s);
    if k == 0 then None else Some(Parsed(DecimalValue(s[..k]), s[k..]))
  }

  predicate StartsWithColour(s: string)
  {
    StartsWith(s, "red") || StartsWith(s, "blue") || StartsWith(s, "green")
  }

  /** `alt((tag("red"), tag("blue"), tag("green")))` */
  function ColourWord(s: string): (r: Option<Parsed<string>>)
    ensures r.Some? <==> StartsWithColour(s)
    ensures r.Some? ==> KnownColour(r.value.value) && s == r.value.value + r.value.rest
  {
    match Tag("red", s)
    case Some(rest) => Some(Parsed("red", rest))
    case None =>
      match Tag("blue", s)
      case Some(rest) => Some(Parsed("blue", rest))
      case None =>
        match Tag("green", s)
        case Some(rest) => Some(Parsed("green", rest))
        case None => None
  }

  /** `parse_colour`: a count, one space, a colour word. */
  function ParseColour(s: string): (r: Option<Parsed<Clause>>)
    ensures r.Some? ==> KnownColour(r.value.value.1) && |r.value.rest| < |s|
    ensures r.Some? ==> var k := LeadingDigits(s);
      r.value.value.0 == DecimalValue(s[..k]) && s[k..] == " " + r.value.value.1 + r.value.rest
  {
    match Number(s)
    case None => None
    case Some(Parsed(n, s1)) =>
      match Tag(" ", s1)
      case None => None
      case Some(s2) =>
        match ColourWord(s2)
        case None => None
        case Some(Parsed(name, s3)) =>
          assert s1 == " " + name + s3 by {
            assert s1 == " " + s2 && s2 == name + s3;
          }
          Some(Parsed((n, name), s3))
  }

  /**
    The `(", " clause)*` loop of `separated_list1`: it stops before a separator that is
    missing or whose clause fails, leaving that separator unconsumed.
  */
  function ClauseTail(s: string): (r: Parsed<seq<Clause>>)
    ensures forall i :: 0 <= i < |r.value| ==> KnownColour(r.value[i].1)
    ensures |r.rest| <= |s|
    decreases |s|
  {
    match Tag(", ", s)
    case None => Parsed([], s)
    case Some(s1) =>
      match ParseColour(s1)
      case None => Parsed([], s)
      case Some(Parsed(clause, s2)) =>
        var tail := ClauseTail(s2);
        Parsed([clause] + tail.value, tail.rest)
  }

  /** `parse_set`: `separated_list1(tag(", "), parse_colour)` handed to `Set::new`. */
  function ParseSet(s: string): (r: Option<Parsed<Set>>)
    ensures r.Some? <==> ParseColour(s).Some?
    ensures r.Some? ==> |r.value.rest| < |s| && ClausesOf(r.value.value) != []
  {
    match ParseColour(s)
    case None => None
    case Some(Parsed(first, s1)) =>
      var tail := ClauseTail(s1);
      var clauses := [first] + tail.value;
      assert forall i :: 0 <= i < |clauses| ==> KnownColour(clauses[i].1);
      SetOfNamesAColour(clauses);
      Some(Parsed(SetOf(clauses).value, tail.rest))
  }

  /** The `("; " set)*` loop of `separated_list1` in `parse_sets`. */
  function SetTail(s: string): (r: Parsed<seq<Set>>)
    ensures |r.rest| <= |s|
    ensures forall i :: 0 <= i < |r.value| ==> ClausesOf(r.value[i]) != []
    decreases |s|
  {
    match Tag("; ", s)
    case None => Parsed([], s)
    case Some(s1) =>
      match ParseSet(s1)
      case None => Parsed([], s)
      case Some(Parsed(draw, s2)) =>
        var tail := SetTail(s2);
        Parsed([draw] + tail.value, tail.rest)
  }

  /** `parse_sets`: `separated_list1(tag("; "), parse_set)`. */
  function ParseSets(s: string): (r: Option<Parsed<seq<Set>>>)
    ensures r.Some? <==> ParseColour(s).Some?
    ensures r.Some? ==> |r.value.value| >= 1 && |r.value.rest| < |s|
    ensures r.Some? ==> forall i :: 0 <= i < |r.value.value| ==> ClausesOf(r.value.value[i]) != []
  {
    match ParseSet(s)
    case None => None
    case Some(Parsed(first, s1)) =>
      var tail := SetTail(s1);
      Some(Parsed([first] + tail.value, tail.rest))
  }

  /** `parse_game_id`: "Game " then a number. */
  function ParseGameId(s: string): (r: Option<Parsed<nat>>)
    ensures r.Some? <==> StartsWith(s, "Game ") && LeadingDigits(s[5..]) > 0
    ensures r.Some? ==>
      var k := LeadingDigits(s[5..]);
      r.value.rest == s[5 + k..] && r.value.value == DecimalValue(s[5..][..k])
  {
    match Tag("Game ", s)
    case None => None
    case Some(s1) =>
      assert s1 == s[5..];
      Number(s1)
  }

  /**
    `parse_game`: succeeds exactly when the line starts with "Game ", a number, ": " and
    a first clause; the remainder is whatever follows the last set it could read.
  */
  function ParseGame(line: string): (r: Option<Parsed<Game>>)
    ensures r.Some? ==> |r.value.rest| < |line|
  {
    match ParseGameId(line)
    case None => None
    case Some(Parsed(id, s1)) =>
      match Tag(": ", s1)
      case None => None
      case Some(s2) =>
        match ParseSets(s2)
        case None => None
        case Some(Parsed(sets, s3)) => Some(Parsed(Game(id, sets), s3))
  }

  /** A clause parses exactly when it is a count, one space and a colour word. */
  lemma ParseColourAccepts(s: string)
    ensures ParseColour(s).Some? <==>
      var k := LeadingDigits(s);
      k > 0 && StartsWith(s[k..], " ") && StartsWithColour(s[k + 1..])
  {
    var k := LeadingDigits(s);
    if k > 0 {
      assert Number(s).value.rest == s[k..];
      if StartsWith(s[k..], " ") {
        assert Tag(" ", s[k..]) == Some(s[k + 1..]);
      }
    }
  }

  /**
    A line parses exactly when it starts with "Game ", a number, ": " and a clause, and
    the game's id is that number; any of these missing builds no game.
  */
  lemma ParseGameAccepts(line: string)
    ensures ParseGame(line).Some? <==>
      StartsWith(line, "Game ") &&
      var k := LeadingDigits(line[5..]);
      k > 0 && StartsWith(line[5 + k..], ": ") && ParseColour(line[7 + k..]).Some?
    ensures ParseGame(line).Some? ==>
      ParseGame(line).value.value.id == DecimalValue(line[5..][..LeadingDigits(line[5..])])
  {
    if StartsWith(line, "Game ") {
      var k := LeadingDigits(line[5..]);
      if k > 0 {
        var s1 := line[5 + k..];
        assert ParseGameId(line) == Some(Parsed(DecimalValue(line[5..][..k]), s1));
        if StartsWith(s1, ": ") {
          assert Tag(": ", s1) == Some(line[7 + k..]);
        }
      }
    }
  }

  // ---------------------------------------------------------------------------
  // part_one and part_two

  /** `parse_game(line)` with the unconsumed remainder dropped, as the drivers' `.1` does. */
  function GameOf(line: string): Option<Game>
  {
    match ParseGame(line)
    case None => None
    case Some(parsed) => Some(parsed.value)
  }

  function SumIds(games: seq<Game>): nat
  {
    if games == [] then 0 else games[0].id + SumIds(games[1..])
  }

  /** The sum of the ids of the possible games. */
  function SumPossibleIds(games: seq<Game>): nat
  {
    if games == [] then 0
    else (if Possible(games[0]) then games[0].id else 0) + SumPossibleIds(games[1..])
  }

  /** The sum splits over a concatenation: each game adds its own id or nothing. */
  lemma {:induction false} SumPossibleIdsAppend(a: seq<Game>, b: seq<Game>)
    ensures SumPossibleIds(a + b) == SumPossibleIds(a) + SumPossibleIds(b)
  {
    if a == [] {
      assert a + b == b;
    } else {
      assert (a + b)[1..] == a[1..] + b;
      SumPossibleIdsAppend(a[1..], b);
    }
  }

  /**
    The possible games' ids sum to at most all ids, and to exactly all ids when every
    impossible game has id 0.
  */
  lemma {:induction false} SumPossibleIdsBound(games: seq<Game>)
    ensures SumPossibleIds(games) <= SumIds(games)
    ensures SumPossibleIds(games) == SumIds(games) <==>
      forall i :: 0 <= i < |games| && !Possible(games[i]) ==> games[i].id == 0
  {
    if games != [] {
      SumPossibleIdsBound(games[1..]);
      assert forall i :: 1 <= i < |games| ==> games[i] == games[1..][i - 1];
      if !Possible(games[0]) && games[0].id > 0 {
        assert SumPossibleIds(games) < SumIds(games);
      }
    }
  }

  /** The sum over the games of the power of their fewest cubes. */
  function SumPowers(games: seq<Game>): nat
  {
    if games == [] then 0 else PowerOf(Fewest(games[0])) + SumPowers(games[1..])
  }

  lemma {:induction false} SumPowersAppend(a: seq<Game>, b: seq<Game>)
    ensures SumPowers(a + b) == SumPowers(a) + SumPowers(b)
  {
    if a == [] {
      assert a + b == b;
    } else {
      assert (a + b)[1..] == a[1..] + b;
      SumPowersAppend(a[1..], b);
    }
  }

  /** Every game adds at least 1, since no power of fewest cubes is 0. */
  lemma {:induction false} SumPowersAtLeastGames(games: seq<Game>)
    ensures SumPowers(games) >= |games|
  {
    if games != [] {
      PowerOfFewestIsPositive(games[0]);
      SumPowersAtLeastGames(games[1..]);
    }
  }

  /**
    `part_one`: `Err(i)` where line `i` fails to parse (the source panics); otherwise the
    sum of the ids of the possible games, or `None` when that sum does not fit in `u32`.
  */
  function PartOne(input: string): (r: Result<Option<nat>, nat>)
    ensures r.Err? <==> exists i :: 0 <= i < |Lines(input)| && GameOf(Lines(input)[i]).None?
    ensures r.Err? ==> r.error < |Lines(input)| && GameOf(Lines(input)[r.error]).None?
    ensures r.Err? ==> forall i :: 0 <= i < r.error ==> GameOf(Lines(input)[i]).Some?
    ensures r.Ok? ==> var total := SumPossibleIds(MapLines(Lines(input), GameOf).value);
      (r.value.Some? <==> total < U32Limit) && (r.value.Some? ==> r.value.value == total)
  {
    var lines := Lines(input);
    match MapLines(lines, GameOf)
    case Err(i) =>
      assert GameOf(lines[i]).None?;
      Err(i)
    case Ok(games) =>
      var total := SumPossibleIds(games);
      Ok(if total < U32Limit then Some(total) else None)
  }

  /** `n as u32`: keeps the low 32 bits. */
  function TruncateU32(n: nat): (r: nat)
    ensures r < U32Limit
    ensures n < U32Limit ==> r == n
    ensures (n - r) % U32Limit == 0
  {
    n % U32Limit
  }

  /**
    `part_two`: `Err(i)` where line `i` fails to parse; otherwise the sum of the powers of
    the games' fewest cubes, truncated to `u32` by `as u32`.
  */
  function PartTwo(input: string): (r: Result<Option<nat>, nat>)
    ensures r.Err? <==> exists i :: 0 <= i < |Lines(input)| && GameOf(Lines(input)[i]).None?
    ensures r.Err? ==> r.error < |Lines(input)| && GameOf(Lines(input)[r.error]).None?
    ensures r.Err? ==> forall i :: 0 <= i < r.error ==> GameOf(Lines(input)[i]).Some?
    ensures r.Ok? ==> r.value == Some(TruncateU32(SumPowers(MapLines(Lines(input), GameOf).value)))
  {
    var lines := Lines(input);
    match MapLines(lines, GameOf)
    case Err(i) =>
      assert GameOf(lines[i]).None?;
      Err(i)
    case Ok(games) => Ok(Some(TruncateU32(SumPowers(games))))
  }

  // ---------------------------------------------------------------------------
  // The line format written out, and what parsing it yields

  function RenderClause(clause: Clause): string
  {
    DecimalString(clause.0) + " " + clause.1
  }

  /** ", <clause>" for each clause. */
  function RenderClauseTail(clauses: seq<Clause>): string
  {
    if clauses == [] then [] else ", " + RenderClause(clauses[0]) + RenderClauseTail(clauses[1..])
  }

  function RenderSetText(clauses: seq<Clause>): string
    requires clauses != []
  {
    RenderClause(clauses[0]) + RenderClauseTail(clauses[1..])
  }

  /** "; <set>" for each set. */
  function RenderSetTail(sets: seq<seq<Clause>>): string
    requires forall i :: 0 <= i < |sets| ==> sets[i] != []
  {
    if sets == [] then [] else "; " + RenderSetText(sets[0]) + RenderSetTail(sets[1..])
  }

  /** The clause lists of a line: at least one set, each of at least one clause with a colour word. */
  predicate WellFormedSets(sets: seq<seq<Clause>>)
  {
    sets != [] &&
    forall i :: 0 <= i < |sets| ==>
      sets[i] != [] && forall j :: 0 <= j < |sets[i]| ==> KnownColour(sets[i][j].1)
  }

  function RenderLine(id: nat, sets: seq<seq<Clause>>): string
    requires WellFormedSets(sets)
  {
    "Game " + DecimalString(id) + ": " + RenderSetText(sets[0]) + RenderSetTail(sets[1..])
  }

  /** `Set::new` applied to each clause list. */
  function BuildSets(sets: seq<seq<Clause>>): seq<Set>
    requires forall i :: 0 <= i < |sets| ==> forall j :: 0 <= j < |sets[i]| ==> KnownColour(sets[i][j].1)
  {
    if sets == [] then [] else [SetOf(sets[0]).value] + BuildSets(sets[1..])
  }

  lemma SetOfNamesAColour(clauses: seq<Clause>)
    requires clauses != [] && forall i :: 0 <= i < |clauses| ==> KnownColour(clauses[i].1)
    ensures SetOf(clauses).Some? && ClausesOf(SetOf(clauses).value) != []
  {
    var name := clauses[0].1;
    LastCountIsLastOccurrence(clauses, name);
  }

  lemma NumberOfNumeral(n: nat, rest: string)
    requires rest == [] || !IsAsciiDigit(rest[0])
    ensures Number(DecimalString(n) + rest) == Some(Parsed(n, rest))
  {
    var ds := DecimalString(n);
    LeadingDigitsOfNumeral(ds, rest);
    assert (ds + rest)[..|ds|] == ds;
    assert (ds + rest)[|ds|..] == rest;
    DecimalRoundTrip(n);
  }

  lemma TagConsumes(t: string, rest: string)
    ensures Tag(t, t + rest) == Some(rest)
  {
    StartsWithConcat(t, rest);
    assert (t + rest)[|t|..] == rest;
  }

  lemma TagRefuses(t: string, s: string)
    requires t != [] && (s == [] || s[0] != t[0])
    ensures Tag(t, s) == None
  {
  }

  lemma ColourWordOfName(name: string, rest: string)
    requires KnownColour(name)
    ensures ColourWord(name + rest) == Some(Parsed(name, rest))
  {
    var s := name + rest;
    TagConsumes(name, rest);
    if name != "red" {
      assert s[0] == name[0];
      TagRefuses("red", s);
      if name != "blue" {
        TagRefuses("blue", s);
      }
    }
  }

  lemma ParseColourOfRendering(clause: Clause, rest: string)
    requires KnownColour(clause.1)
    ensures ParseColour(RenderClause(clause) + rest) == Some(Parsed(clause, rest))
  {
    var (n, name) := clause;
    var after := " " + (name + rest);
    assert RenderClause(clause) + rest == DecimalString(n) + after;
    NumberOfNumeral(n, after);
    TagConsumes(" ", name + rest);
    ColourWordOfName(name, rest);
  }

  /** A clause tail with a first clause, regrouped around that clause. */
  lemma RenderClauseTailCons(clauses: seq<Clause>, rest: string)
    requires clauses != []
    ensures RenderClauseTail(clauses) + rest ==
      ", " + (RenderClause(clauses[0]) + (RenderClauseTail(clauses[1..]) + rest))
  {
  }

  /** A set's text regrouped around its first clause. */
  lemma RenderSetTextCons(clauses: seq<Clause>, rest: string)
    requires clauses != []
    ensures RenderSetText(clauses) + rest == RenderClause(clauses[0]) + (RenderClauseTail(clauses[1..]) + rest)
  {
  }

  /** A set tail with a first set, regrouped around that set. */
  lemma RenderSetTailCons(sets: seq<seq<Clause>>, rest: string)
    requires sets != [] && forall i :: 0 <= i < |sets| ==> sets[i] != []
    ensures RenderSetTail(sets) + rest == "; " + (RenderSetText(sets[0]) + (RenderSetTail(sets[1..]) + rest))
  {
    var text, tail := RenderSetText(sets[0]), RenderSetTail(sets[1..]);
    assert RenderSetTail(sets) == "; " + text + tail;
    Regroup("; ", text, tail, rest);
  }

  /** What follows a set in a written-out line does not start with the clause separator. */
  lemma SetTailFront(sets: seq<seq<Clause>>, rest: string)
    requires forall i :: 0 <= i < |sets| ==> sets[i] != []
    requires rest == [] || (rest[0] != ',' && rest[0] != ';')
    ensures var more := RenderSetTail(sets) + rest; more == [] || more[0] != ','
  {
    if sets != [] {
      RenderSetTailCons(sets, rest);
    }
  }

  /** A line regrouped around its id and its first set. */
  lemma RenderLineCons(id: nat, sets: seq<seq<Clause>>, rest: string)
    requires WellFormedSets(sets)
    ensures RenderLine(id, sets) + rest ==
      "Game " + (DecimalString(id) + (": " + (RenderSetText(sets[0]) + (RenderSetTail(sets[1..]) + rest))))
  {
  }

  /** One step of the clause loop: a separator and a clause that parses are both consumed. */
  lemma ClauseTailStep(s: string, s1: string, clause: Clause, s2: string)
    requires Tag(", ", s) == Some(s1)
    requires ParseColour(s1) == Some(Parsed(clause, s2))
    ensures ClauseTail(s) == Parsed([clause] + ClauseTail(s2).value, ClauseTail(s2).rest)
  {
  }

  lemma {:induction false} ClauseTailOfRendering(clauses: seq<Clause>, rest: string)
    requires forall i :: 0 <= i < |clauses| ==> KnownColour(clauses[i].1)
    requires rest == [] || rest[0] != ','
    ensures ClauseTail(RenderClauseTail(clauses) + rest) == Parsed(clauses, rest)
  {
    if clauses == [] {
      TagRefuses(", ", rest);
    } else {
      var s := RenderClauseTail(clauses) + rest;
      var text := RenderClause(clauses[0]);
      var more := RenderClauseTail(clauses[1..]) + rest;
      assert s == ", " + (text + more) by {
        RenderClauseTailCons(clauses, rest);
      }
      assert Tag(", ", s) == Some(text + more) by {
        TagConsumes(", ", text + more);
      }
      assert ParseColour(text + more) == Some(Parsed(clauses[0], more)) by {
        ParseColourOfRendering(clauses[0], more);
      }
      ClauseTailOfRendering(clauses[1..], rest);
      ClauseTailStep(s, text + more, clauses[0], more);
      assert [clauses[0]] + clauses[1..] == clauses;
    }
  }

  /** `parse_set` composed from its first clause and the clause loop. */
  lemma ParseSetStep(s: string, first: Clause, s1: string, clauses: seq<Clause>, rest: string)
    requires ParseColour(s) == Some(Parsed(first, s1))
    requires ClauseTail(s1) == Parsed(clauses, rest)
    ensures SetOf([first] + clauses).Some?
    ensures ParseSet(s) == Some(Parsed(SetOf([first] + clauses).value, rest))
  {
    SetOfNamesAColour([first] + clauses);
  }

  lemma ParseSetOfRendering(clauses: seq<Clause>, rest: string)
    requires clauses != [] && forall i :: 0 <= i < |clauses| ==> KnownColour(clauses[i].1)
    requires rest == [] || rest[0] != ','
    ensures ParseSet(RenderSetText(clauses) + rest) == Some(Parsed(SetOf(clauses).value, rest))
  {
    var s := RenderSetText(clauses) + rest;
    var more := RenderClauseTail(clauses[1..]) + rest;
    RenderSetTextCons(clauses, rest);
    ParseColourOfRendering(clauses[0], more);
    ClauseTailOfRendering(clauses[1..], rest);
    ParseSetStep(s, clauses[0], more, clauses[1..], rest);
    assert [clauses[0]] + clauses[1..] == clauses;
  }

  /** One step of the set loop: a separator and a set that parses are both consumed. */
  lemma SetTailStep(s: string, s1: string, draw: Set, s2: string)
    requires Tag("; ", s) == Some(s1)
    requires ParseSet(s1) == Some(Parsed(draw, s2))
    ensures SetTail(s) == Parsed([draw] + SetTail(s2).value, SetTail(s2).rest)
  {
  }

  lemma {:induction false} SetTailOfRendering(sets: seq<seq<Clause>>, rest: string)
    requires forall i :: 0 <= i < |sets| ==>
      sets[i] != [] && forall j :: 0 <= j < |sets[i]| ==> KnownColour(sets[i][j].1)
    requires rest == [] || (rest[0] != ',' && rest[0] != ';')
    ensures SetTail(RenderSetTail(sets) + rest) == Parsed(BuildSets(sets), rest)
  {
    if sets == [] {
      TagRefuses("; ", rest);
    } else {
      var s := RenderSetTail(sets) + rest;
      var text := RenderSetText(sets[0]);
      var more := RenderSetTail(sets[1..]) + rest;
      var draw := SetOf(sets[0]).value;
      assert s == "; " + (text + more) by {
        RenderSetTailCons(sets, rest);
      }
      assert Tag("; ", s) == Some(text + more) by {
        TagConsumes("; ", text + more);
      }
      assert ParseSet(text + more) == Some(Parsed(draw, more)) by {
        SetTailFront(sets[1..], rest);
        ParseSetOfRendering(sets[0], more);
      }
      SetTailOfRendering(sets[1..], rest);
      SetTailStep(s, text + more, draw, more);
    }
  }

  lemma ParseGameIdOfRendering(id: nat, after: string)
    requires after == [] || !IsAsciiDigit(after[0])
    ensures ParseGameId("Game " + (DecimalString(id) + after)) == Some(Parsed(id, after))
  {
    TagConsumes("Game ", DecimalString(id) + after);
    NumberOfNumeral(id, after);
  }

  /** `parse_sets` composed from its first set and the set loop. */
  lemma ParseSetsStep(s: string, first: Set, s1: string, sets: seq<Set>, rest: string)
    requires ParseSet(s) == Some(Parsed(first, s1))
    requires SetTail(s1) == Parsed(sets, rest)
    ensures ParseSets(s) == Some(Parsed([first] + sets, rest))
  {
  }

  lemma ParseSetsOfRendering(sets: seq<seq<Clause>>, rest: string)
    requires WellFormedSets(sets)
    requires rest == [] || (rest[0] != ',' && rest[0] != ';')
    ensures ParseSets(RenderSetText(sets[0]) + (RenderSetTail(sets[1..]) + rest)) == Some(Parsed(BuildSets(sets), rest))
  {
    var tail := sets[1..];
    var more := RenderSetTail(tail) + rest;
    var draw := SetOf(sets[0]).value;
    assert ParseSet(RenderSetText(sets[0]) + more) == Some(Parsed(draw, more)) by {
      SetTailFront(tail, rest);
      ParseSetOfRendering(sets[0], more);
    }
    assert SetTail(more) == Parsed(BuildSets(tail), rest) by {
      SetTailOfRendering(tail, rest);
    }
    ParseSetsStep(RenderSetText(sets[0]) + more, draw, more, BuildSets(tail), rest);
  }

  /** `parse_game` composed from the results of its three steps. */
  lemma ParseGameStep(line: string, id: nat, s1: string, s2: string, sets: seq<Set>, rest: string)
    requires ParseGameId(line) == Some(Parsed(id, s1))
    requires Tag(": ", s1) == Some(s2)
    requires ParseSets(s2) == Some(Parsed(sets, rest))
    ensures ParseGame(line) == Some(Parsed(Game(id, sets), rest))
  {
  }

  /**
    Parsing a written-out line yields its id and, per set, what `Set::new` builds from
    that set's clauses (in any order, repeats included), and hands back what follows.
  */
  lemma ParseGameOfRendering(id: nat, sets: seq<seq<Clause>>, rest: string)
    requires WellFormedSets(sets)
    requires rest == [] || (rest[0] != ',' && rest[0] != ';')
    ensures ParseGame(RenderLine(id, sets) + rest) == Some(Parsed(Game(id, BuildSets(sets)), rest))
  {
    var body := RenderSetText(sets[0]) + (RenderSetTail(sets[1..]) + rest);
    RenderLineCons(id, sets, rest);
    ParseGameIdOfRendering(id, ": " + body);
    TagConsumes(": ", body);
    ParseSetsOfRendering(sets, rest);
    ParseGameStep(RenderLine(id, sets) + rest, id, ": " + body, body, BuildSets(sets), rest);
  }

  /** The clauses that write `s` out: its present colours, red, green, blue. */
  function ClausesOf(s: Set): seq<Clause>
  {
    (if s.red.Some? then [(s.red.value, "red")] else []) +
    (if s.green.Some? then [(s.green.value, "green")] else []) +
    (if s.blue.Some? then [(s.blue.value, "blue")] else [])
  }

  /** The last occurrence in `a + b` is in `b` when `b` has one. */
  lemma {:induction false} LastCountAppend(a: seq<Clause>, b: seq<Clause>, name: string)
    ensures LastCount(a + b, name) == if LastCount(b, name).Some? then LastCount(b, name) else LastCount(a, name)
  {
    if b == [] {
      assert a + b == a;
    } else {
      var ab := a + b;
      assert ab[..|ab| - 1] == a + b[..|b| - 1];
      assert ab[|ab| - 1] == b[|b| - 1];
      LastCountAppend(a, b[..|b| - 1], name);
    }
  }

  lemma SetOfClausesOf(s: Set)
    ensures forall i :: 0 <= i < |ClausesOf(s)| ==> KnownColour(ClausesOf(s)[i].1)
    ensures SetOf(ClausesOf(s)) == Some(s)
  {
    var r: seq<Clause> := if s.red.Some? then [(s.red.value, "red")] else [];
    var g: seq<Clause> := if s.green.Some? then [(s.green.value, "green")] else [];
    var b: seq<Clause> := if s.blue.Some? then [(s.blue.value, "blue")] else [];
    assert ClausesOf(s) == r + g + b;
    LastCountAppend(r + g, b, "red");
    LastCountAppend(r, g, "red");
    LastCountAppend(r + g, b, "green");
    LastCountAppend(r, g, "green");
    LastCountAppend(r + g, b, "blue");
    LastCountAppend(r, g, "blue");
  }

  function ClauseLists(sets: seq<Set>): (r: seq<seq<Clause>>)
    ensures |r| == |sets|
    ensures forall i :: 0 <= i < |sets| ==> r[i] == ClausesOf(sets[i])
  {
    if sets == [] then [] else [ClausesOf(sets[0])] + ClauseLists(sets[1..])
  }

  /** A game the line format can express: at least one set, each naming some colour. */
  predicate Renderable(g: Game)
  {
    g.sets != [] && forall i :: 0 <= i < |g.sets| ==> ClausesOf(g.sets[i]) != []
  }

  function RenderGame(g: Game): string
    requires Renderable(g)
  {
    forall i | 0 <= i < |g.sets| ensures forall j :: 0 <= j < |ClausesOf(g.sets[i])| ==>
      KnownColour(ClausesOf(g.sets[i])[j].1) {
      SetOfClausesOf(g.sets[i]);
    }
    RenderLine(g.id, ClauseLists(g.sets))
  }

  lemma {:induction false} BuildSetsOfClauseLists(sets: seq<Set>)
    ensures forall i :: 0 <= i < |ClauseLists(sets)| ==> forall j :: 0 <= j < |ClauseLists(sets)[i]| ==>
      KnownColour(ClauseLists(sets)[i][j].1)
    ensures BuildSets(ClauseLists(sets)) == sets
  {
    if sets != [] {
      SetOfClausesOf(sets[0]);
      BuildSetsOfClauseLists(sets[1..]);
      forall i | 0 <= i < |sets| ensures forall j :: 0 <= j < |ClausesOf(sets[i])| ==>
        KnownColour(ClausesOf(sets[i])[j].1) {
        SetOfClausesOf(sets[i]);
      }
      assert ClauseLists(sets)[1..] == ClauseLists(sets[1..]);
    }
  }

  /** Writing a game out and parsing it back gives the same game and the same remainder. */
  lemma ParseRenderedGame(g: Game, rest: string)
    requires Renderable(g)
    requires rest == [] || (rest[0] != ',' && rest[0] != ';')
    ensures ParseGame(RenderGame(g) + rest) == Some(Parsed(g, rest))
  {
    BuildSetsOfClauseLists(g.sets);
    ParseGameOfRendering(g.id, ClauseLists(g.sets), rest);
  }

  /** Every parsed game has a set, and every parsed set names a colour. */
  lemma ParsedGameIsRenderable(line: string)
    requires ParseGame(line).Some?
    ensures Renderable(ParseGame(line).value.value)
  {
    var p1 := ParseGameId(line).value;
    var s2 := Tag(": ", p1.rest).value;
    assert ParseGame(line).value.value.sets == ParseSets(s2).value.value;
  }

  /** A parsed game, written out in canonical form, parses to itself. */
  lemma ReparseParsedGame(line: string)
    requires ParseGame(line).Some?
    ensures Renderable(ParseGame(line).value.value)
    ensures ParseGame(RenderGame(ParseGame(line).value.value)) == Some(Parsed(ParseGame(line).value.value, []))
  {
    ParsedGameIsRenderable(line);
    var g := ParseGame(line).value.value;
    ParseRenderedGame(g, []);
    assert RenderGame(g) + [] == RenderGame(g);
  }

  /** The clause lists of the first line of the puzzle's example. */
  function ExampleClauses(): seq<seq<Clause>>
  {
    [[(3, "blue"), (4, "red")], [(1, "red"), (2, "green"), (6, "blue")], [(2, "green")]]
  }

  /** A one-digit count is written as that digit, a space and the colour word. */
  lemma OneDigitClauseText(n: nat, name: string)
    requires n < 10
    ensures RenderClause((n, name)) == [DigitChar(n), ' '] + name
  {
    assert DecimalString(n) == [DigitChar(n)];
  }

  lemma ExampleFirstSetText()
    ensures RenderSetText([(3, "blue"), (4, "red")]) == "3 blue, 4 red"
  {
    OneDigitClauseText(3, "blue");
    OneDigitClauseText(4, "red");
    assert RenderClauseTail([(4, "red")]) == ", 4 red";
  }

  lemma ExampleLastClauseText()
    ensures RenderClauseTail([(6, "blue")]) == ", 6 blue"
  {
    OneDigitClauseText(6, "blue");
  }

  lemma ExampleSecondTailText()
    ensures RenderClauseTail([(2, "green"), (6, "blue")]) == ", 2 green, 6 blue"
  {
    var cs: seq<Clause> := [(2, "green"), (6, "blue")];
    assert cs[1..] == [(6, "blue")];
    OneDigitClauseText(2, "green");
    ExampleLastClauseText();
    assert ", " + "2 green" + ", 6 blue" == ", 2 green, 6 blue";
  }

  lemma ExampleSecondSetText()
    ensures RenderSetText([(1, "red"), (2, "green"), (6, "blue")]) == "1 red, 2 green, 6 blue"
  {
    var cs: seq<Clause> := [(1, "red"), (2, "green"), (6, "blue")];
    assert cs[1..] == [(2, "green"), (6, "blue")];
    OneDigitClauseText(1, "red");
    ExampleSecondTailText();
    assert "1 red" + ", 2 green, 6 blue" == "1 red, 2 green, 6 blue";
  }

  lemma ExampleThirdSetText()
    ensures RenderSetText([(2, "green")]) == "2 green"
  {
  }

  lemma ExampleSetTailText()
    ensures RenderSetTail([[(1, "red"), (2, "green"), (6, "blue")], [(2, "green")]]) ==
      "; " + "1 red, 2 green, 6 blue" + ("; " + "2 green" + [])
  {
    var sets: seq<seq<Clause>> := [[(1, "red"), (2, "green"), (6, "blue")], [(2, "green")]];
    ExampleSecondSetText();
    ExampleThirdSetText();
    assert sets[1..] == [[(2, "green")]];
    assert sets[1..][1..] == [];
  }

  lemma ExampleLineText()
    ensures RenderLine(1, ExampleClauses()) ==
      "Game " + "1" + ": " + "3 blue, 4 red" + ("; " + "1 red, 2 green, 6 blue" + ("; " + "2 green" + []))
  {
    var sets := ExampleClauses();
    ExampleFirstSetText();
    ExampleSetTailText();
    assert sets[1..] == [[(1, "red"), (2, "green"), (6, "blue")], [(2, "green")]];
    assert DecimalString(1) == "1";
  }

  lemma ExampleLiteralHead()
    ensures "Game " + "1" + ": " + "3 blue, 4 red" == "Game 1: 3 blue, 4 red"
  {
  }

  lemma ExampleLiteralTail()
    ensures "; " + "1 red, 2 green, 6 blue" + ("; " + "2 green" + []) == "; 1 red, 2 green, 6 blue; 2 green"
  {
    assert "; " + "2 green" + [] == "; 2 green";
  }

  lemma ExampleLiteral()
    ensures "Game " + "1" + ": " + "3 blue, 4 red" + ("; " + "1 red, 2 green, 6 blue" + ("; " + "2 green" + [])) ==
      "Game 1: 3 blue, 4 red; 1 red, 2 green, 6 blue; 2 green"
  {
    ExampleLiteralHead();
    ExampleLiteralTail();
    assert "Game 1: 3 blue, 4 red" + "; 1 red, 2 green, 6 blue; 2 green" ==
      "Game 1: 3 blue, 4 red; 1 red, 2 green, 6 blue; 2 green";
  }

  lemma ExampleRendering()
    ensures WellFormedSets(ExampleClauses())
    ensures RenderLine(1, ExampleClauses()) == "Game 1: 3 blue, 4 red; 1 red, 2 green, 6 blue; 2 green"
  {
    ExampleLineText();
    ExampleLiteral();
  }

  /** The sets of the example's first game, as `Set::new` builds them. */
  lemma ExampleSets()
    ensures forall i :: 0 <= i < 3 ==> forall j :: 0 <= j < |ExampleClauses()[i]| ==>
      KnownColour(ExampleClauses()[i][j].1)
    ensures BuildSets(ExampleClauses()) ==
      [Set(Some(4), None, Some(3)), Set(Some(1), Some(2), Some(6)), Set(None, Some(2), None)]
  {
    var sets: seq<seq<Clause>> := ExampleClauses();
    var first: seq<Clause> := [(3, "blue"), (4, "red")];
    assert first[..1] == [(3, "blue")] && first[..1][..0] == [];
    assert LastCount(first, "red") == Some(4);
    assert LastCount(first, "green") == None;
    assert LastCount(first, "blue") == Some(3);
    assert SetOf(sets[0]) == Some(Set(Some(4), None, Some(3)));
    var second: seq<Clause> := [(1, "red"), (2, "green"), (6, "blue")];
    assert second[..2] == [(1, "red"), (2, "green")] && second[..2][..1] == [(1, "red")];
    assert second[..2][..1][..0] == [];
    assert LastCount(second, "red") == Some(1);
    assert LastCount(second, "green") == Some(2);
    assert LastCount(second, "blue") == Some(6);
    assert SetOf(sets[1]) == Some(Set(Some(1), Some(2), Some(6)));
    assert SetOf(sets[2]) == Some(Set(None, Some(2), None));
    assert sets[1..][1..][1..] == [];
  }

  /** The first line of the puzzle's example parses to game 1 with its three sets. */
  lemma ExampleGameOneParses()
    ensures ParseGame("Game 1: 3 blue, 4 red; 1 red, 2 green, 6 blue; 2 green") ==
      Some(Parsed(Game(1, [Set(Some(4), None, Some(3)), Set(Some(1), Some(2), Some(6)), Set(None, Some(2), None)]), ""))
  {
    var line := "Game 1: 3 blue, 4 red; 1 red, 2 green, 6 blue; 2 green";
    ExampleRendering();
    assert RenderLine(1, ExampleClauses()) + "" == line;
    ParseGameOfRendering(1, ExampleClauses(), "");
    ExampleSets();
  }

  /** Game 1 of the example is possible, and its fewest cubes have power 4 * 2 * 6. */
  lemma ExampleGameOneEvaluates()
    ensures Possible(Game(1, [Set(Some(4), None, Some(3)), Set(Some(1), Some(2), Some(6)), Set(None, Some(2), None)]))
    ensures PowerOf(Fewest(Game(1, [Set(Some(4), None, Some(3)), Set(Some(1), Some(2), Some(6)), Set(None, Some(2), None)]))) == 48
  {
    var a, b, c := Set(Some(4), None, Some(3)), Set(Some(1), Some(2), Some(6)), Set(None, Some(2), None);
    var g := Game(1, [a, b, c]);
    forall i, colour | 0 <= i < 3 ensures !Exceeds(Count(g.sets[i], colour), Limit(colour)) {
    }
    assert [a, b, c][..2] == [a, b] && [a, b][..1] == [a] && [a][..0] == [];
    assert MaxCount([a], Red) == 4 && MaxCount([a], Green) == 0 && MaxCount([a], Blue) == 3;
    assert MaxCount([a, b], Red) == 4 && MaxCount([a, b], Green) == 2 && MaxCount([a, b], Blue) == 6;
    assert MaxCount(g.sets, Red) == 4 && MaxCount(g.sets, Green) == 2 && MaxCount(g.sets, Blue) == 6;
  }
}
