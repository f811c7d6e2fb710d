/**
 * The level file of the endless road: one line per tile, an obstacle word
 * (`LEFT`, `RIGHT`, anything else for none) and a decoration count, read the
 * way `std::stringstream >> std::string >> int` reads them; and the order in
 * which the terrain manager hands the parsed configurations out.
 */
module LevelConfig {

  /** `TileConfig`: obstacle type 0 none, 1 left lane, 2 right lane, and a decoration count. */
  datatype TileConfig = TileConfig(obstacleType: int, decorationCount: int)

  /** The range of a 32-bit `int`. */
  const IntMin: int := -0x8000_0000
  const IntMax: int := 0x7fff_ffff

  // ---------------------------------------------------------------------------
  // Reading a line

  /** The characters `isspace` accepts in the "C" locale. */
  predicate IsSpace(c: char)
  {
    c == ' ' || c == '\t' || c == '\n' || c == '\r' || c == '\U{000B}' || c == '\U{000C}'
  }

  predicate IsDigit(c: char)
  {
    '0' <= c <= '9'
  }

  /** Leading whitespace dropped, as every `operator>>` does first. */
  function SkipSpace(s: string): (r: string)
    ensures |r| <= |s|
    ensures r == [] || !IsSpace(r[0])
  {
    if s != [] && IsSpace(s[0]) then SkipSpace(s[1..]) else s
  }

  /** What `SkipSpace` drops is whitespace, and what it keeps is the rest of the string. */
  lemma {:induction false} SkipSpaceDrops(s: string)
    ensures SkipSpace(s) == s[|s| - |SkipSpace(s)|..]
    ensures forall i :: 0 <= i < |s| - |SkipSpace(s)| ==> IsSpace(s[i])
  {
    if s != [] && IsSpace(s[0]) {
      SkipSpaceDrops(s[1..]);
    }
  }

  /** The longest run of non-whitespace at the front, and what follows it. */
  function TakeWord(s: string): (r: (string, string))
    ensures r.0 + r.1 == s
    ensures forall i :: 0 <= i < |r.0| ==> !IsSpace(r.0[i])
    ensures r.1 == [] || IsSpace(r.1[0])
  {
    if s == [] || IsSpace(s[0]) then ([], s)
    else
      var (w, rest) := TakeWord(s[1..]);
      ([s[0]] + w, rest)
  }

  /** `ss >> obsStr`: whitespace skipped, then one word. */
  function ReadWord(s: string): (r: (string, string))
    ensures r.0 + r.1 == SkipSpace(s)
  {
    TakeWord(SkipSpace(s))
  }

  /** The word read is empty exactly when nothing but whitespace is left. */
  lemma EmptyWordOnlyOnBlankLine(s: string)
    ensures ReadWord(s).0 == [] <==> forall i :: 0 <= i < |s| ==> IsSpace(s[i])
  {
    SkipSpaceDrops(s);
    var t := SkipSpace(s);
    if t != [] {
      assert s[|s| - |t|] == t[0];
    }
  }

  /** The digits at the front of `s`. */
  function LeadingDigits(s: string): (r: string)
    ensures |r| <= |s| && r == s[..|r|]
    ensures forall i :: 0 <= i < |r| ==> IsDigit(r[i])
    ensures |r| < |s| ==> !IsDigit(s[|r|])
  {
    if s != [] && IsDigit(s[0]) then [s[0]] + LeadingDigits(s[1..]) else []
  }

  /** The value of one decimal digit. */
  function DigitValue(c: char): (d: nat)
    requires IsDigit(c)
    ensures d <= 9
  {
    c as int - '0' as int
  }

  /** The decimal value of a string of digits. */
  function Value(ds: string): (n: nat)
    requires forall i :: 0 <= i < |ds| ==> IsDigit(ds[i])
  {
    if ds == [] then 0 else Value(ds[..|ds| - 1]) * 10 + DigitValue(ds[|ds| - 1])
  }

  /** A value outside `int` is replaced by the nearest bound, as C++11 stream extraction does. */
  function Saturate(n: int): (r: int)
    ensures IntMin <= r <= IntMax
    ensures IntMin <= n <= IntMax ==> r == n
    ensures n > IntMax ==> r == IntMax
    ensures n < IntMin ==> r == IntMin
  {
    if n > IntMax then IntMax else if n < IntMin then IntMin else n
  }

  /**
   * `ss >> decCount`: whitespace skipped, an optional sign, then the decimal
   * digits; without digits the count is 0. When only whitespace is left the
   * stream assigns nothing; the model reads that case as 0 as well.
   */
  function ReadInt(s: string): (r: int)
    ensures IntMin <= r <= IntMax
  {
    ReadNumber(SkipSpace(s))
  }

  /** The number at the very front of `t`: an optional sign and digits, saturated. */
  function ReadNumber(t: string): (r: int)
    ensures IntMin <= r <= IntMax
  {
    if t != [] && (t[0] == '-' || t[0] == '+') then
      var v: int := Value(LeadingDigits(t[1..]));
      Saturate(if t[0] == '-' then -v else v)
    else
      Saturate(Value(LeadingDigits(t)))
  }

  /** The obstacle word's meaning: `LEFT` is 1, `RIGHT` is 2, anything else (`NONE` included) is 0. */
  function ObstacleType(word: string): (t: int)
    ensures 0 <= t <= 2
    ensures t == 1 <==> word == "LEFT"
    ensures t == 2 <==> word == "RIGHT"
  {
    if word == "LEFT" then 1 else if word == "RIGHT" then 2 else 0
  }

  /** An empty line or one starting with `#` is skipped. */
  predicate Skipped(line: string)
  {
    line == [] || line[0] == '#'
  }

  /** One line of the level file as `loadLevelConfig` reads it. */
  function ParseLine(line: string): (c: TileConfig)
    ensures 0 <= c.obstacleType <= 2 && IntMin <= c.decorationCount <= IntMax
  {
    var (word, rest) := ReadWord(line);
    TileConfig(ObstacleType(word), ReadInt(rest))
  }

  /** The configurations a level file yields: one per line that is not skipped, in file order. */
  function ParseConfigs(lines: seq<string>): (r: seq<TileConfig>)
    ensures |r| <= |lines|
    ensures forall i :: 0 <= i < |r| ==> 0 <= r[i].obstacleType <= 2
  {
    if lines == [] then []
    else
      var last := lines[|lines| - 1];
      ParseConfigs(lines[..|lines| - 1]) + (if Skipped(last) then [] else [ParseLine(last)])
  }

  /** A file of nothing but comments and blank lines yields no configuration. */
  lemma {:induction false} OnlySkippedYieldsNothing(lines: seq<string>)
    requires forall i :: 0 <= i < |lines| ==> Skipped(lines[i])
    ensures ParseConfigs(lines) == []
  {
    if lines != [] {
      OnlySkippedYieldsNothing(lines[..|lines| - 1]);
    }
  }

  /** Parsing is line by line: the configurations of two files read back to back are those of each in turn. */
  lemma {:induction false} ParseAppend(a: seq<string>, b: seq<string>)
    ensures ParseConfigs(a + b) == ParseConfigs(a) + ParseConfigs(b)
  {
    if b != [] {
      var n := |b| - 1;
      ParseAppend(a, b[..n]);
      assert (a + b)[..|a + b| - 1] == a + b[..n];
    } else {
      assert a + b == a;
    }
  }

  // ---------------------------------------------------------------------------
  // Writing a line: the format the reader accepts

  /** The decimal digits of `n`, most significant first, no leading zero. */
  function Digits(n: nat): (ds: string)
    ensures |ds| >= 1 && forall i :: 0 <= i < |ds| ==> IsDigit(ds[i])
  {
    if n < 10 then [('0' as int + n) as char] else Digits(n / 10) + [('0' as int + n % 10) as char]
  }

  /** The word a level file uses for an obstacle type. */
  function TypeWord(t: int): string
  {
    if t == 1 then "LEFT" else if t == 2 then "RIGHT" else "NONE"
  }

  /** A count as `printf("%d")` writes it. */
  function IntString(v: int): string
  {
    if v < 0 then "-" + Digits(-v) else Digits(v)
  }

  /** A configuration written as one line of a level file. */
  function FormatLine(c: TileConfig): (line: string)
  {
    TypeWord(c.obstacleType) + " " + IntString(c.decorationCount)
  }

  /** A list of configurations written as a level file, one line each. */
  function FormatFile(configs: seq<TileConfig>): (lines: seq<string>)
    ensures |lines| == |configs|
  {
    if configs == [] then [] else FormatFile(configs[..|configs| - 1]) + [FormatLine(configs[|configs| - 1])]
  }

  /** Reading digits back gives the number written. */
  lemma {:induction false} DigitsValue(n: nat)
    ensures Value(Digits(n)) == n
  {
    if n >= 10 {
      DigitsValue(n / 10);
      var ds := Digits(n);
      assert ds[..|ds| - 1] == Digits(n / 10);
    }
  }

  /** A string of digits is read whole. */
  lemma {:induction false} AllDigitsRead(s: string)
    requires forall i :: 0 <= i < |s| ==> IsDigit(s[i])
    ensures LeadingDigits(s) == s
  {
    if s != [] {
      AllDigitsRead(s[1..]);
      assert [s[0]] + s[1..] == s;
    }
  }

  /** A word without whitespace, followed by whitespace or nothing, is taken whole. */
  lemma {:induction false} WholeWordTaken(w: string, rest: string)
    requires forall i :: 0 <= i < |w| ==> !IsSpace(w[i])
    requires rest == [] || IsSpace(rest[0])
    ensures TakeWord(w + rest) == (w, rest)
  {
    if w != [] {
      WholeWordTaken(w[1..], rest);
      assert (w + rest)[0] == w[0];
      assert (w + rest)[1..] == w[1..] + rest;
      assert [w[0]] + w[1..] == w;
    } else {
      assert w + rest == rest;
    }
  }

  /** A count written after a blank reads back as itself. */
  lemma NumberRoundTrip(v: int)
    requires IntMin <= v <= IntMax
    ensures ReadInt(" " + IntString(v)) == v
  {
    var str := IntString(v);
    BlankSkipped(str);
    if v < 0 {
      assert str == "-" + Digits(-v);
      NegativeRead(-v);
    } else {
      assert str == Digits(v);
      NaturalRead(v);
    }
    assert ReadInt(str) == v;
  }

  /** A blank in front of a number changes nothing. */
  lemma BlankSkipped(s: string)
    ensures ReadInt(" " + s) == ReadInt(s)
  {
    assert (" " + s)[1..] == s;
    assert SkipSpace(" " + s) == SkipSpace(s);
  }

  /** A minus sign and digits read back as the negated number. */
  lemma NegativeRead(n: nat)
    requires 0 < n
    ensures ReadInt("-" + Digits(n)) == Saturate(-(n as int))
  {
    var ds := Digits(n);
    var t := "-" + ds;
    assert SkipSpace(t) == t;
    assert t[1..] == ds;
    AllDigitsRead(ds);
    DigitsValue(n);
  }

  /** Digits alone read back as their number. */
  lemma NaturalRead(n: nat)
    ensures ReadInt(Digits(n)) == Saturate(n)
  {
    var ds := Digits(n);
    assert !IsSpace(ds[0]) && ds[0] != '-' && ds[0] != '+';
    assert SkipSpace(ds) == ds;
    AllDigitsRead(ds);
    DigitsValue(n);
  }

  /** Every obstacle word is a run of at least four letters. */
  lemma TypeWordLetters(t: int)
    ensures |TypeWord(t)| >= 4 && forall i :: 0 <= i < |TypeWord(t)| ==> 'A' <= TypeWord(t)[i] <= 'Z'
  {
  }

  /** The obstacle word of a written line is read back as that word, and the rest starts with the blank. */
  lemma WordRoundTrip(c: TileConfig)
    ensures ReadWord(FormatLine(c)) == (TypeWord(c.obstacleType), " " + IntString(c.decorationCount))
  {
    var word := TypeWord(c.obstacleType);
    var rest := " " + IntString(c.decorationCount);
    TypeWordLetters(c.obstacleType);
    assert FormatLine(c) == word + rest;
    assert !IsSpace(FormatLine(c)[0]);
    assert SkipSpace(FormatLine(c)) == FormatLine(c);
    WholeWordTaken(word, rest);
  }

  /** Every configuration with a type of 0, 1 or 2 and an `int` count survives being written and read back. */
  lemma LineRoundTrip(c: TileConfig)
    requires 0 <= c.obstacleType <= 2 && IntMin <= c.decorationCount <= IntMax
    ensures !Skipped(FormatLine(c))
    ensures ParseLine(FormatLine(c)) == c
  {
    WordRoundTrip(c);
    NumberRoundTrip(c.decorationCount);
    assert ObstacleType(TypeWord(c.obstacleType)) == c.obstacleType;
  }

  /** A level file written from a list of configurations reads back as that list. */
  lemma {:induction false} FileRoundTrip(configs: seq<TileConfig>)
    requires forall i :: 0 <= i < |configs| ==>
      0 <= configs[i].obstacleType <= 2 && IntMin <= configs[i].decorationCount <= IntMax
    ensures ParseConfigs(FormatFile(configs)) == configs
  {
    if configs != [] {
      var n := |configs| - 1;
      var front, line := FormatFile(configs[..n]), FormatLine(configs[n]);
      assert FormatFile(configs) == front + [line];
      ParseAppend(front, [line]);
      LineRoundTrip(configs[n]);
      assert [line][..0] == [];
      assert ParseConfigs([line]) == [configs[n]];
      FileRoundTrip(configs[..n]);
      LastSplit(configs);
    }
  }

  /** A non-empty list is its front followed by its last element. */
  lemma LastSplit(configs: seq<TileConfig>)
    requires configs != []
    ensures configs[..|configs| - 1] + [configs[|configs| - 1]] == configs
  {
  }

  // ---------------------------------------------------------------------------
  // Handing configurations out

  /** The four `rand()` draws of the fallback: obstacle or not, which lane, decorations or not, how many. */
  datatype ConfigRoll = ConfigRoll(coin: nat, side: nat, chance: nat, amount: nat)

  /**
   * `getNextConfig` without a level file: an obstacle on an even draw, in a
   * lane picked by the next draw; one or two decorations when `rand() % 100`
   * exceeds 30.
   */
  function Fallback(roll: ConfigRoll): (c: TileConfig)
    ensures 0 <= c.obstacleType <= 2 && 0 <= c.decorationCount <= 2
    ensures c.obstacleType == 0 <==> roll.coin % 2 != 0
    ensures c.decorationCount == 0 <==> roll.chance % 100 <= 30
  {
    TileConfig(if roll.coin % 2 == 0 then roll.side % 2 + 1 else 0,
               if roll.chance % 100 > 30 then roll.amount % 2 + 1 else 0)
  }

  /** The configurations `k` successive `getNextConfig` calls return from index `idx`, and the index they leave. */
  function Deal(configs: seq<TileConfig>, idx: nat, k: nat): (r: (seq<TileConfig>, nat))
    requires idx < |configs|
    ensures |r.0| == k && r.1 < |configs|
  {
    if k == 0 then ([], idx)
    else
      var (dealt, i) := Deal(configs, idx, k - 1);
      (dealt + [configs[i]], (i + 1) % |configs|)
  }

  /**
   * The level file is played in a cycle: the `j`-th call returns the
   * configuration `j` places after the starting one, wrapping round, and the
   * index moves on by the number of calls.
   */
  lemma {:induction false} DealCycles(configs: seq<TileConfig>, idx: nat, k: nat)
    requires idx < |configs|
    ensures Deal(configs, idx, k).1 == (idx + k) % |configs|
    ensures forall j :: 0 <= j < k ==> Deal(configs, idx, k).0[j] == configs[(idx + j) % |configs|]
  {
    if k > 0 {
      DealCycles(configs, idx, k - 1);
      var n := |configs|;
      var i := (idx + k - 1) % n;
      ModNext(idx + k - 1, n);
      assert (i + 1) % n == (idx + k) % n;
    }
  }

  /** Stepping an index that has already wrapped is stepping the unwrapped one. */
  lemma ModNext(a: nat, n: nat)
    requires n > 0
    ensures (a % n + 1) % n == (a + 1) % n
  {
    var q, r := a / n, a % n;
    if r + 1 < n {
      ModUnique(a + 1, n, q, r + 1);
      ModUnique(r + 1, n, 0, r + 1);
    } else {
      ModUnique(a + 1, n, q + 1, 0);
      ModUnique(r + 1, n, 1, 0);
    }
  }

  /** Euclidean division is unique: a quotient and a remainder in range are the ones `/` and `%` give. */
  lemma ModUnique(x: int, n: int, q: int, r: int)
    requires n > 0 && x == q * n + r && 0 <= r < n
    ensures x % n == r && x / n == q
  {
    var q2, r2 := x / n, x % n;
    var d := q - q2;
    assert d * n == r2 - r;
  }

  /** After one call per configuration the index is back where it started. */
  lemma FullCycle(configs: seq<TileConfig>, idx: nat)
    requires idx < |configs|
    ensures Deal(configs, idx, |configs|).1 == idx
    ensures forall j :: 0 <= j < |configs| ==> Deal(configs, idx, |configs|).0[j] == configs[(idx + j) % |configs|]
  {
    DealCycles(configs, idx, |configs|);
    ModUnique(idx + |configs|, |configs|, 1, idx);
  }
}
