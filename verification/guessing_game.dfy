/**
 * The number-guessing game. One loop iteration prompts, reads a line, trims it, parses it as
 * a `u16` and either silently retries (parse failure) or echoes the guess and compares it with
 * the secret: too high, too low, or a win that ends the loop.
 *
 * The secret, drawn once from 1..=500 by the random generator in the program, is a parameter
 * here; the lines the console would deliver are a finite scripted sequence.
 */
module GuessingGame {
  import opened Prims

  const SECRET_MIN := 1
  const SECRET_MAX := 500

  // ---------------------------------------------------------------------------------------
  // `str::trim`

  /**
   * The characters with the Unicode White_Space property, those for which `char::is_whitespace`
   * holds and which `str::trim` strips: U+0009 to U+000D, the space, U+0085, U+00A0, U+1680,
   * U+2000 to U+200A, U+2028, U+2029, U+202F, U+205F and U+3000.
   */
  const WHITESPACE: set<char> := {
    '\U{0009}', '\U{000A}', '\U{000B}', '\U{000C}', '\U{000D}', ' ', '\U{0085}', '\U{00A0}', '\U{1680}',
    '\U{2000}', '\U{2001}', '\U{2002}', '\U{2003}', '\U{2004}', '\U{2005}', '\U{2006}', '\U{2007}',
    '\U{2008}', '\U{2009}', '\U{200A}', '\U{2028}', '\U{2029}', '\U{202F}', '\U{205F}', '\U{3000}'
  }

  /** `char::is_whitespace`. */
  predicate IsWhitespace(c: char) {
    c in WHITESPACE
  }

  predicate AllWhitespace(s: string) {
    forall k | 0 <= k < |s| :: IsWhitespace(s[k])
  }

  /** `str::trim_start`: drop whitespace from the front. */
  function TrimStart(s: string): string {
    if s != [] && IsWhitespace(s[0]) then TrimStart(s[1..]) else s
  }

  /** `str::trim_end`: drop whitespace from the back. */
  function TrimEnd(s: string): string {
    if s != [] && IsWhitespace(s[|s| - 1]) then TrimEnd(s[..|s| - 1]) else s
  }

  /** `str::trim`: `s` without its leading and trailing whitespace. */
  function Trim(s: string): string {
    TrimEnd(TrimStart(s))
  }

  /** Trimming the front removes exactly an all-whitespace prefix and stops at the first other character. */
  lemma {:induction false} TrimStartSplits(s: string)
    ensures |TrimStart(s)| <= |s|
    ensures TrimStart(s) == s[|s| - |TrimStart(s)|..]
    ensures AllWhitespace(s[..|s| - |TrimStart(s)|])
    ensures TrimStart(s) == [] || !IsWhitespace(TrimStart(s)[0])
  {
    if s != [] && IsWhitespace(s[0]) {
      TrimStartSplits(s[1..]);
      var n := |s| - |TrimStart(s)|;
      assert s[1..][n - 1..] == s[n..];
      assert forall k | 0 <= k < n :: k == 0 || s[..n][k] == s[1..][..n - 1][k - 1];
    }
  }

  /** Trimming the back removes exactly an all-whitespace suffix and stops at the last other character. */
  lemma {:induction false} TrimEndSplits(s: string)
    ensures |TrimEnd(s)| <= |s|
    ensures TrimEnd(s) == s[..|TrimEnd(s)|]
    ensures AllWhitespace(s[|TrimEnd(s)|..])
    ensures TrimEnd(s) == [] || !IsWhitespace(TrimEnd(s)[|TrimEnd(s)| - 1])
  {
    if s != [] && IsWhitespace(s[|s| - 1]) {
      var init := s[..|s| - 1];
      TrimEndSplits(init);
      var n := |TrimEnd(s)|;
      assert init[..n] == s[..n];
      assert forall k | n <= k < |s| :: k == |s| - 1 || s[k] == init[n..][k - n];
    }
  }

  /**
   * A trimmed text neither starts nor ends with whitespace, and it is what is left of the
   * original once an all-whitespace prefix and an all-whitespace suffix are cut off.
   */
  lemma TrimUnpadded(s: string)
    ensures Trim(s) == [] || (!IsWhitespace(Trim(s)[0]) && !IsWhitespace(Trim(s)[|Trim(s)| - 1]))
    ensures exists i, j :: 0 <= i <= j <= |s| && Trim(s) == s[i..j] && AllWhitespace(s[..i]) && AllWhitespace(s[j..])
  {
    var t := TrimStart(s);
    TrimStartSplits(s);
    TrimEndSplits(t);
    var i := |s| - |t|;
    var j := i + |Trim(s)|;
    assert Trim(s) == s[i..j];
    assert s[j..] == t[|Trim(s)|..];
    if Trim(s) != [] {
      assert Trim(s)[0] == t[0];
    }
  }

  /**
   * Trimming removes exactly the whitespace padding: a text that neither starts nor ends with
   * whitespace comes back unchanged from any amount of padding on either side.
   */
  lemma {:induction false} TrimStripsPadding(before: string, text: string, after: string)
    requires AllWhitespace(before) && AllWhitespace(after)
    requires text == [] || (!IsWhitespace(text[0]) && !IsWhitespace(text[|text| - 1]))
    ensures Trim(before + text + after) == text
  {
    TrimStartPadding(before, text + after);
    assert before + text + after == before + (text + after);
    TrimEndPadding(text, after);
  }

  lemma {:induction false} TrimStartPadding(before: string, rest: string)
    requires AllWhitespace(before)
    requires rest == [] || !IsWhitespace(rest[0]) || AllWhitespace(rest)
    ensures TrimStart(before + rest) == (if AllWhitespace(rest) then [] else rest)
  {
    if before == [] {
      assert before + rest == rest;
      TrimStartAllWhitespace(rest);
    } else {
      assert (before + rest)[1..] == before[1..] + rest;
      TrimStartPadding(before[1..], rest);
    }
  }

  lemma {:induction false} TrimStartAllWhitespace(s: string)
    requires s == [] || !IsWhitespace(s[0]) || AllWhitespace(s)
    ensures TrimStart(s) == (if AllWhitespace(s) then [] else s)
  {
    if s != [] && IsWhitespace(s[0]) {
      TrimStartAllWhitespace(s[1..]);
    }
  }

  lemma {:induction false} TrimEndPadding(text: string, after: string)
    requires AllWhitespace(after)
    requires text == [] || !IsWhitespace(text[|text| - 1])
    ensures TrimEnd(if AllWhitespace(text + after) then [] else text + after) == text
  {
    if after == [] {
      assert text + after == text;
      if text == [] {
      } else {
        assert !AllWhitespace(text) by { assert !IsWhitespace(text[|text| - 1]); }
      }
    } else {
      var init := after[..|after| - 1];
      assert (text + after)[..|text + after| - 1] == text + init;
      TrimEndPadding(text, init);
    }
  }

  // ---------------------------------------------------------------------------------------
  // `str::parse::<u16>` and the decimal form of a `u16`

  predicate IsDigit(c: char) {
    '0' <= c <= '9'
  }

  predicate AllDigits(s: string) {
    forall k | 0 <= k < |s| :: IsDigit(s[k])
  }

  function DigitValue(c: char): (d: nat)
    requires IsDigit(c)
    ensures d < 10
  {
    c as int - '0' as int
  }

  function DigitChar(d: nat): (c: char)
    requires d < 10
    ensures IsDigit(c) && DigitValue(c) == d
  {
    ('0' as int + d) as char
  }

  /** The number denoted by a string of decimal digits, most significant first. */
  function DecimalValue(s: string): nat
    requires AllDigits(s)
  {
    if s == [] then 0 else DecimalValue(s[..|s| - 1]) * 10 + DigitValue(s[|s| - 1])
  }

  /** The decimal form of `n` without leading zeros, as the `{input}` echo prints it. */
  function Decimal(n: nat): (s: string)
    ensures s != [] && AllDigits(s)
    ensures n > 0 ==> s[0] != '0'
  {
    if n < 10 then [DigitChar(n)] else Decimal(n / 10) + [DigitChar(n % 10)]
  }

  /** The decimal form denotes the number it was made from. */
  lemma {:induction false} DecimalValueOfDecimal(n: nat)
    ensures DecimalValue(Decimal(n)) == n
  {
    var s := Decimal(n);
    if n >= 10 {
      DecimalValueOfDecimal(n / 10);
      assert s[..|s| - 1] == Decimal(n / 10);
    }
  }

  /**
   * The digit loop of `u16::from_str`, most significant digit first: each step multiplies the
   * value read so far by ten and adds the next digit, and fails on a character that is not an
   * ASCII digit or on a value that no longer fits in 16 bits.
   */
  function AccumulateDigits(s: string): Option<u16> {
    if s == [] then Some(0)
    else
      match AccumulateDigits(s[..|s| - 1])
      case None => None
      case Some(v) =>
        if !IsDigit(s[|s| - 1]) then None
        else
          var x := v * 10 + DigitValue(s[|s| - 1]);
          if x <= U16_MAX then Some(x) else None
  }

  /**
   * The step-by-step overflow check of the digit loop amounts to one check on the final value:
   * the loop succeeds exactly on all-digit texts denoting at most 65535, and yields that number.
   */
  lemma {:induction false} AccumulateDigitsValue(s: string)
    ensures AccumulateDigits(s).Some? <==> AllDigits(s) && DecimalValue(s) <= U16_MAX
    ensures AccumulateDigits(s).Some? ==> AccumulateDigits(s).value == DecimalValue(s)
  {
    if s != [] {
      var init := s[..|s| - 1];
      AccumulateDigitsValue(init);
      assert AllDigits(s) <==> AllDigits(init) && IsDigit(s[|s| - 1]) by {
        assert forall k | 0 <= k < |init| :: init[k] == s[k];
      }
    }
  }

  /** The text without its one optional leading `+`. */
  function SignStripped(s: string): string {
    if s != [] && s[0] == '+' then s[1..] else s
  }

  /**
   * `u16::from_str`: an optional single leading `+`, then at least one ASCII digit, and a
   * value that fits in 16 bits. A leading `-` is refused for an unsigned type, and any other
   * character, an empty text or a lone `+` is an error too.
   */
  function ParseU16(s: string): Option<u16> {
    if s == [] then None
    else
      var digits := SignStripped(s);
      if digits == [] then None else AccumulateDigits(digits)
  }

  /**
   * The whole behaviour of the parse: once one optional leading `+` is set aside, a non-empty
   * run of digits whose value is at most 65535 is accepted as that value (leading zeros
   * included), and everything else is refused.
   */
  lemma ParseU16Value(s: string)
    ensures ParseU16(s) ==
      var d := SignStripped(s);
      if d != [] && AllDigits(d) && DecimalValue(d) <= U16_MAX then Some(DecimalValue(d)) else None
  {
    if s != [] {
      AccumulateDigitsValue(SignStripped(s));
    }
  }

  /** Leading zeros and a `+` sign are accepted: "007" is 7 and "+0042" is 42. */
  lemma ParseLeadingZeros()
    ensures ParseU16("007") == Some(7)
    ensures ParseU16("+0042") == Some(42)
  {
    ParseU16Value("007");
    assert DecimalValue("007") == 7 by {
      assert "007"[..2] == "00" && "00"[..1] == "0" && "0"[..0] == "";
    }
    ParseU16Value("+0042");
    assert SignStripped("+0042") == "0042";
    assert DecimalValue("0042") == 42 by {
      assert "0042"[..3] == "004" && "004"[..2] == "00" && "00"[..1] == "0" && "0"[..0] == "";
    }
  }

  /**
   * Only an optional leading `+` followed by digits is ever accepted; the empty text and
   * anything starting with `-` are refused.
   */
  lemma ParseAcceptsOnlyDigits(s: string)
    ensures s == [] || s[0] == '-' ==> ParseU16(s) == None
    ensures ParseU16(s).Some? ==> forall k | 0 <= k < |s| :: IsDigit(s[k]) || (k == 0 && s[k] == '+')
  {
    if s != [] {
      var digits := if s[0] == '+' then s[1..] else s;
      AccumulateDigitsValue(digits);
      if ParseU16(s).Some? && s[0] == '+' {
        assert forall k | 1 <= k < |s| :: s[k] == digits[k - 1];
      }
    }
  }

  /** What the echo prints parses back to the guess, with or without a `+` sign. */
  lemma ParseDecimalRoundTrip(n: u16)
    ensures ParseU16(Decimal(n)) == Some(n)
    ensures ParseU16(['+'] + Decimal(n)) == Some(n)
  {
    DecimalValueOfDecimal(n);
    AccumulateDigitsValue(Decimal(n));
    assert (['+'] + Decimal(n))[1..] == Decimal(n);
  }

  /** Digit strings whose value exceeds 65535 are refused, with or without a `+` sign. */
  lemma ParseRejectsOverflow(s: string)
    requires s != [] && AllDigits(s) && DecimalValue(s) > U16_MAX
    ensures ParseU16(s) == None && ParseU16(['+'] + s) == None
  {
    AccumulateDigitsValue(s);
    assert (['+'] + s)[1..] == s;
  }

  // ---------------------------------------------------------------------------------------
  // One iteration of the loop

  /** What one line leads to. */
  datatype Outcome = Retry | TooHigh(guess: u16) | TooLow(guess: u16) | Won(guess: u16)

  /** What the program prints, as tags: the prompt, the echo, the two hints and the win. */
  datatype Event = Prompt | Echo(guess: u16) | HintLower | HintHigher | Correct

  /** The guess a line gives: the trimmed line parsed as a `u16`, if that succeeds. */
  function Guess(line: string): Option<u16> {
    ParseU16(Trim(line))
  }

  /** The decision for one line: retry on a parse failure, otherwise compare with the secret. */
  function Step(line: string, secret: u16): Outcome {
    match Guess(line)
    case None => Retry
    case Some(g) =>
      if g > secret then TooHigh(g)
      else if g < secret then TooLow(g)
      else Won(g)
  }

  /**
   * The decision, stated outcome by outcome: a retry exactly when the line does not parse;
   * otherwise the parsed guess, judged too high, too low or winning by comparison with the secret.
   */
  lemma StepOutcome(line: string, secret: u16)
    ensures Step(line, secret).Retry? <==> Guess(line).None?
    ensures !Step(line, secret).Retry? ==> Guess(line) == Some(Step(line, secret).guess)
    ensures Step(line, secret).Won? <==> Guess(line) == Some(secret)
    ensures Step(line, secret).TooHigh? <==> Guess(line).Some? && Guess(line).value > secret
    ensures Step(line, secret).TooLow? <==> Guess(line).Some? && Guess(line).value < secret
  {
  }

  /** What one iteration prints: the prompt, then (for an accepted guess) its echo and a verdict. */
  function Iteration(line: string, secret: u16): (evs: seq<Event>)
    ensures evs != [] && evs[0] == Prompt
    ensures Step(line, secret).Retry? <==> |evs| == 1
  {
    [Prompt] +
      match Step(line, secret)
      case Retry => []
      case TooHigh(g) => [Echo(g), HintLower]
      case TooLow(g) => [Echo(g), HintHigher]
      case Won(g) => [Echo(g), Correct]
  }

  /** A rejected line prints the prompt and nothing else. */
  lemma IterationOfRejected(line: string, secret: u16)
    requires Guess(line) == None
    ensures Iteration(line, secret) == [Prompt]
  {
  }

  /** An accepted guess prints the prompt, its echo and the verdict of comparing it with the secret. */
  lemma IterationOfGuess(line: string, secret: u16, g: u16)
    requires Guess(line) == Some(g)
    ensures Iteration(line, secret) ==
      [Prompt, Echo(g), if g > secret then HintLower else if g < secret then HintHigher else Correct]
  {
  }

  /** Everything printed while the given lines are read, one iteration per line. */
  function Transcript(secret: u16, lines: seq<string>): seq<Event> {
    if lines == [] then [] else Transcript(secret, lines[..|lines| - 1]) + Iteration(lines[|lines| - 1], secret)
  }

  /** Whether the line at index `k` exists and wins. */
  predicate WinsAt(secret: u16, lines: seq<string>, k: int) {
    0 <= k < |lines| && Step(lines[k], secret).Won?
  }

  /** Reading one more line extends the transcript by that line's iteration. */
  lemma TranscriptExtends(secret: u16, lines: seq<string>, i: nat)
    requires i < |lines|
    ensures Transcript(secret, lines[..i + 1]) == Transcript(secret, lines[..i]) + Iteration(lines[i], secret)
  {
    assert lines[..i + 1][..i] == lines[..i];
  }

  /** Index of the first line that wins, if any. */
  function FirstWin(secret: u16, lines: seq<string>): (r: Option<nat>)
    ensures r.Some? ==> WinsAt(secret, lines, r.value)
    ensures forall k | 0 <= k < |lines| && (r.None? || k < r.value) :: !WinsAt(secret, lines, k)
  {
    if lines == [] then None
    else if Step(lines[0], secret).Won? then Some(0)
    else
      assert !WinsAt(secret, lines, 0);
      assert forall k | 1 <= k < |lines| :: WinsAt(secret, lines, k) == WinsAt(secret, lines[1..], k - 1);
      match FirstWin(secret, lines[1..])
      case None => None
      case Some(i) => Some(i + 1)
  }

  /** The first winning line is the one that wins after no earlier line did. */
  lemma {:induction false} FirstWinAt(secret: u16, lines: seq<string>, i: nat)
    requires WinsAt(secret, lines, i)
    requires forall k | 0 <= k < i :: !WinsAt(secret, lines, k)
    ensures FirstWin(secret, lines) == Some(i)
  {
    if i > 0 {
      assert !WinsAt(secret, lines, 0);
      assert forall k | 0 <= k < i - 1 :: WinsAt(secret, lines[1..], k) == WinsAt(secret, lines, k + 1);
      FirstWinAt(secret, lines[1..], i - 1);
    }
  }

  // ---------------------------------------------------------------------------------------
  // Counting what a transcript holds

  /** How many prompts, echoes, hints and win messages a sequence of events holds. */
  datatype Tally = Tally(prompts: nat, echoes: nat, hints: nat, wins: nat)

  function Add(a: Tally, b: Tally): Tally {
    Tally(a.prompts + b.prompts, a.echoes + b.echoes, a.hints + b.hints, a.wins + b.wins)
  }

  /** What a single event contributes to a tally. */
  function TallyOfEvent(e: Event): Tally {
    match e
    case Prompt => Tally(1, 0, 0, 0)
    case Echo(_) => Tally(0, 1, 0, 0)
    case HintLower => Tally(0, 0, 1, 0)
    case HintHigher => Tally(0, 0, 1, 0)
    case Correct => Tally(0, 0, 0, 1)
  }

  /**
   * The tally of a sequence of events. The sum is spelled out rather than written with `Add`,
   * which keeps the tally lemmas below cheap to verify; `TallyOfAppend` ties the two together.
   */
  function TallyOf(evs: seq<Event>): Tally {
    if evs == [] then Tally(0, 0, 0, 0)
    else
      var e, t := TallyOfEvent(evs[0]), TallyOf(evs[1..]);
      Tally(e.prompts + t.prompts, e.echoes + t.echoes, e.hints + t.hints, e.wins + t.wins)
  }

  lemma {:induction false} TallyOfAppend(a: seq<Event>, b: seq<Event>)
    ensures TallyOf(a + b) == Add(TallyOf(a), TallyOf(b))
  {
    if a == [] {
      assert a + b == b;
    } else {
      assert (a + b)[0] == a[0];
      assert (a + b)[1..] == a[1..] + b;
      TallyOfAppend(a[1..], b);
    }
  }

  /** One iteration: one prompt; an echo and exactly one verdict when the line parses. */
  lemma IterationTally(line: string, secret: u16)
    ensures TallyOf(Iteration(line, secret)).prompts == 1
    ensures TallyOf(Iteration(line, secret)).echoes == (if Guess(line).Some? then 1 else 0)
    ensures TallyOf(Iteration(line, secret)).hints + TallyOf(Iteration(line, secret)).wins
         == (if Guess(line).Some? then 1 else 0)
    ensures TallyOf(Iteration(line, secret)).wins == (if Step(line, secret).Won? then 1 else 0)
  {
    var evs := Iteration(line, secret);
    match Step(line, secret)
    case Retry =>
      assert evs == [Prompt];
      assert evs[1..] == [];
    case TooHigh(g) =>
      TallyOfTriple(Prompt, Echo(g), HintLower);
    case TooLow(g) =>
      TallyOfTriple(Prompt, Echo(g), HintHigher);
    case Won(g) =>
      TallyOfTriple(Prompt, Echo(g), Correct);
  }

  lemma TallyOfTriple(a: Event, b: Event, c: Event)
    ensures TallyOf([a, b, c]).prompts == TallyOfEvent(a).prompts + TallyOfEvent(b).prompts + TallyOfEvent(c).prompts
    ensures TallyOf([a, b, c]).echoes == TallyOfEvent(a).echoes + TallyOfEvent(b).echoes + TallyOfEvent(c).echoes
    ensures TallyOf([a, b, c]).hints == TallyOfEvent(a).hints + TallyOfEvent(b).hints + TallyOfEvent(c).hints
    ensures TallyOf([a, b, c]).wins == TallyOfEvent(a).wins + TallyOfEvent(b).wins + TallyOfEvent(c).wins
  {
    var s := [a, b, c];
    assert s[1..] == [b, c] && s[1..][1..] == [c] && s[1..][1..][1..] == [];
    assert TallyOf([c]) == TallyOfEvent(c);
  }

  /** Number of lines that parse (are accepted as guesses). */
  function Accepted(lines: seq<string>): nat {
    if lines == [] then 0 else Accepted(lines[..|lines| - 1]) + (if Guess(lines[|lines| - 1]).Some? then 1 else 0)
  }

  /** Number of lines that win. */
  function Wins(secret: u16, lines: seq<string>): nat {
    if lines == [] then 0 else Wins(secret, lines[..|lines| - 1]) + (if Step(lines[|lines| - 1], secret).Won? then 1 else 0)
  }

  /**
   * Over any lines: one prompt per line read, one echo per accepted line, and every accepted
   * line gets exactly one verdict (a hint or the win message); the win message appears once
   * per winning line.
   */
  lemma {:induction false} TranscriptTally(secret: u16, lines: seq<string>)
    ensures TallyOf(Transcript(secret, lines)).prompts == |lines|
    ensures TallyOf(Transcript(secret, lines)).echoes == Accepted(lines)
    ensures TallyOf(Transcript(secret, lines)).hints + TallyOf(Transcript(secret, lines)).wins == Accepted(lines)
    ensures TallyOf(Transcript(secret, lines)).wins == Wins(secret, lines)
  {
    if lines != [] {
      var init, last := lines[..|lines| - 1], lines[|lines| - 1];
      assert lines[..|lines| - 1] == init;
      TranscriptTally(secret, init);
      IterationTally(last, secret);
      TallyOfAppend(Transcript(secret, init), Iteration(last, secret));
    }
  }

  /** No line wins among lines none of which wins. */
  lemma {:induction false} NoWins(secret: u16, lines: seq<string>)
    requires forall k | 0 <= k < |lines| :: !WinsAt(secret, lines, k)
    ensures Wins(secret, lines) == 0
  {
    if lines != [] {
      var init := lines[..|lines| - 1];
      assert forall k | 0 <= k < |init| :: WinsAt(secret, init, k) == WinsAt(secret, lines, k);
      assert !WinsAt(secret, lines, |lines| - 1);
      NoWins(secret, init);
    }
  }

  // ---------------------------------------------------------------------------------------
  // The session

  /**
   * The loop of `main` over a scripted sequence of lines. It reads line after line and stops
   * right after the first line whose guess equals the secret; without such a line it reads
   * every line and does not win. `read` is the number of lines consumed (one prompt each).
   */
  method Play(secret: u16, lines: seq<string>) returns (events: seq<Event>, read: nat, won: bool)
    requires SECRET_MIN <= secret <= SECRET_MAX
    ensures won == FirstWin(secret, lines).Some?
    ensures won ==> read == FirstWin(secret, lines).value + 1
    ensures !won ==> read == |lines|
    ensures events == Transcript(secret, lines[..read])
    ensures TallyOf(events).prompts == read
    ensures TallyOf(events).wins == (if won then 1 else 0)
    ensures won ==> events[|events| - 1] == Correct
  {
    events, read, won := [], 0, false;
    while read < |lines|
      invariant read <= |lines|
      invariant forall k | 0 <= k < read :: !WinsAt(secret, lines, k)
      invariant events == Transcript(secret, lines[..read])
    {
      var line := lines[read];
      var outcome := Step(line, secret);
      TranscriptExtends(secret, lines, read);
      events := events + Iteration(line, secret);
      read := read + 1;
      if outcome.Won? {
        won := true;
        break;
      }
    }
    TranscriptTally(secret, lines[..read]);
    if won {
      SessionWon(secret, lines, read);
    } else {
      assert lines[..read] == lines;
      SessionLost(secret, lines);
    }
  }

  /** Reading up to and including the first winning line: that line is the only win, and the last thing printed. */
  lemma SessionWon(secret: u16, lines: seq<string>, n: nat)
    requires 0 < n <= |lines| && WinsAt(secret, lines, n - 1)
    requires forall k | 0 <= k < n - 1 :: !WinsAt(secret, lines, k)
    ensures FirstWin(secret, lines) == Some(n - 1)
    ensures Wins(secret, lines[..n]) == 1
    ensures Transcript(secret, lines[..n])[|Transcript(secret, lines[..n])| - 1] == Correct
  {
    FirstWinAt(secret, lines, n - 1);
    var init := lines[..n - 1];
    assert lines[..n][..n - 1] == init;
    assert forall k | 0 <= k < |init| :: WinsAt(secret, init, k) == WinsAt(secret, lines, k);
    NoWins(secret, init);
    TranscriptExtends(secret, lines, n - 1);
    var g := Step(lines[n - 1], secret).guess;
    assert Iteration(lines[n - 1], secret) == [Prompt, Echo(g), Correct];
  }

  /** Reading lines none of which wins: no win is found and none is announced. */
  lemma SessionLost(secret: u16, lines: seq<string>)
    requires forall k | 0 <= k < |lines| :: !WinsAt(secret, lines, k)
    ensures FirstWin(secret, lines) == None
    ensures Wins(secret, lines) == 0
  {
    NoWins(secret, lines);
  }

  /**
   * With the secret at 42, the lines "17", "abc", "100", "42" (as `read_line` delivers them,
   * newline included) give: a hint to aim higher, a silent retry, a hint to aim lower, the win;
   * the fifth line is never read.
   */
  method Scenario() returns (events: seq<Event>, read: nat, won: bool)
    ensures won && read == 4
    ensures events == [Prompt, Echo(17), HintHigher, Prompt, Prompt, Echo(100), HintLower, Prompt, Echo(42), Correct]
  {
    var lines := ScenarioLines();
    ScenarioGuess(0);
    ScenarioGuess(1);
    ScenarioGuess(2);
    ScenarioGuess(3);
    ScenarioTrace(lines);
    events, read, won := Play(42, lines);
  }

  function ScenarioLines(): seq<string> {
    ["17\n", "abc\n", "100\n", "42\n", "7\n"]
  }

  /** What each line of the scenario is taken for. */
  lemma ScenarioGuess(i: nat)
    requires i < 4
    ensures Guess(ScenarioLines()[i]) == [Some(17), None, Some(100), Some(42)][i]
  {
    var line := ScenarioLines()[i];
    if i == 1 {
      TrimStripsPadding([], "abc", "\n");
      assert line == [] + "abc" + "\n";
      assert !IsDigit("abc"[0]);
    } else {
      var n := [17, 0, 100, 42][i];
      assert line == Decimal(n) + "\n";
      GuessOfDecimalLine(n);
    }
  }

  /** Lines taken for 17, nothing, 100 and 42 stop at the fourth and print the scenario's transcript. */
  lemma ScenarioTrace(lines: seq<string>)
    requires |lines| >= 4
    requires Guess(lines[0]) == Some(17) && Guess(lines[1]) == None
    requires Guess(lines[2]) == Some(100) && Guess(lines[3]) == Some(42)
    ensures FirstWin(42, lines) == Some(3)
    ensures Transcript(42, lines[..4])
         == [Prompt, Echo(17), HintHigher, Prompt, Prompt, Echo(100), HintLower, Prompt, Echo(42), Correct]
  {
    ScenarioFirstWin(lines);
    IterationOfGuess(lines[0], 42, 17);
    IterationOfRejected(lines[1], 42);
    IterationOfGuess(lines[2], 42, 100);
    IterationOfGuess(lines[3], 42, 42);
    ScenarioTranscript(lines);
  }

  /** Only the fourth of those lines wins. */
  lemma ScenarioFirstWin(lines: seq<string>)
    requires |lines| >= 4
    requires Guess(lines[0]) == Some(17) && Guess(lines[1]) == None
    requires Guess(lines[2]) == Some(100) && Guess(lines[3]) == Some(42)
    ensures FirstWin(42, lines) == Some(3)
  {
    StepOutcome(lines[0], 42);
    StepOutcome(lines[1], 42);
    StepOutcome(lines[2], 42);
    StepOutcome(lines[3], 42);
    FirstWinAt(42, lines, 3);
  }

  /** The transcript of four lines is the concatenation of their four iterations. */
  lemma ScenarioTranscript(lines: seq<string>)
    requires |lines| >= 4
    requires Iteration(lines[0], 42) == [Prompt, Echo(17), HintHigher]
    requires Iteration(lines[1], 42) == [Prompt]
    requires Iteration(lines[2], 42) == [Prompt, Echo(100), HintLower]
    requires Iteration(lines[3], 42) == [Prompt, Echo(42), Correct]
    ensures Transcript(42, lines[..4])
         == [Prompt, Echo(17), HintHigher, Prompt, Prompt, Echo(100), HintLower, Prompt, Echo(42), Correct]
  {
    assert lines[..0] == [];
    TranscriptExtends(42, lines, 0);
    TranscriptExtends(42, lines, 1);
    TranscriptExtends(42, lines, 2);
    TranscriptExtends(42, lines, 3);
  }

  /** A line holding the decimal form of `n` and a newline is accepted as the guess `n`. */
  lemma GuessOfDecimalLine(n: u16)
    ensures Guess(Decimal(n) + "\n") == Some(n)
  {
    DecimalLineTrimmed(n);
    ParseDecimalRoundTrip(n);
  }

  /** Trimming such a line leaves exactly the digits. */
  lemma DecimalLineTrimmed(n: nat)
    ensures Trim(Decimal(n) + "\n") == Decimal(n)
  {
    var s := Decimal(n);
    assert IsDigit(s[0]) && IsDigit(s[|s| - 1]);
    TrimStripsPadding([], s, "\n");
    assert [] + s + "\n" == s + "\n";
  }

  /** Why each of a few typical bad lines is refused. */
  lemma RejectedLine(line: string)
    requires line in ["\n", "abc", "-5", "+", "99999"]
    ensures Guess(line) == None
  {
    if line == "\n" {
      TrimStripsPadding([], [], "\n");
      assert [] + [] + "\n" == "\n";
    } else {
      TrimStripsPadding([], line, []);
      assert [] + line + [] == line;
      if line == "99999" {
        assert "99999"[..4] == "9999" && "9999"[..3] == "999" && "999"[..2] == "99" && "99"[..1] == "9";
        ParseRejectsOverflow("99999");
      } else if line == "+" {
        assert "+"[1..] == [];
      } else {
        ParseAcceptsOnlyDigits(line);
      }
    }
  }

  /**
   * Lines that do not parse as a `u16` only re-prompt: the empty line, a word, a negative
   * number and a number above 65535; a lone sign is refused too.
   */
  lemma RejectedLines(secret: u16)
    ensures Step("\n", secret) == Retry
    ensures Step("abc", secret) == Retry
    ensures Step("-5", secret) == Retry
    ensures Step("+", secret) == Retry
    ensures Step("99999", secret) == Retry
  {
    RejectedLine("\n");
    RejectedLine("abc");
    RejectedLine("-5");
    RejectedLine("+");
    RejectedLine("99999");
  }
}
