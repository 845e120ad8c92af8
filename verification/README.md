# learning-rust, modelled in Dafny

A model of three small Rust programs from the `learning-rust` repository, with proofs of what
each one computes:

- **rectangles** (`projects/rectangels/src/main.rs`): a `Rectangle` with `i32` sides. Its area is
  computed three ways (method, two free functions) as `(a * b) as usize`. `can_hold` checks strict
  containment, dimension by dimension. `square` builds a square. Module `Rectangles`
  (`rectangles.dfy`).
- **guessing game** (`rust-projects/guessing_game/src/main.rs`): a loop that prompts, reads a line,
  trims it and parses it as `u16`.
  - If parsing fails, it silently starts over.
  - Otherwise it echoes the guess and compares it with the secret: "Menor que isso!" when the guess
    is too high, "Maior que isso!" when it is too low, and "Você acertou!" plus the end of the loop
    when it is equal.
  - Module `GuessingGame` (`guessing_game.dfy`). It has:
    - a pure step function (`Trim`, `ParseU16`, `Step`, `Iteration`);
    - a session specification (`Transcript`, `FirstWin`, tallies);
    - the `Play` method, whose `while` loop runs over a scripted sequence of input lines.
- **pattern matching** (`projects/patt_match/src/main.rs`): an `Http` enum mapped to a status code,
  an `if let 200` check, and two `while let Some(<pattern>) = responses.pop()` loops.
  - Module `PatternMatching` (`patt_match.dfy`).
  - The vector is a class `HttpVec` with a `seq` field. `Pop` shrinks it in place, and the two loop
    methods are proved against specification functions.
  - A pop that does not match ends the loop, but the popped element is gone all the same.
  - On the literal vector, the first loop ends by consuming one `Ok`. The second loop then pops the
    other `Ok` and stops at once, without printing anything. `LiteralTrace` states this. The comment
    on line 39 of the source suggests the second loop does run; the code does not bear that out.

Shared primitives live in `prims.dfy` (module `Prims`): `Option`, and `u16`, `i32` and `usize` as
subset types of `int`. `usize` is taken to be 64 bits wide.

Modelling notes:
- `as usize` on an `i32` is sign extension: the unique `usize` congruent to the value modulo 2^64.
- `str::trim` strips the characters with the Unicode White_Space property.
- `str::parse::<u16>` accepts an optional single leading `+` followed by one or more ASCII digits,
  with a value of at most 65535. Everything else is an error, including a lone `+`, any `-`, an
  empty string and overflow.
- Console output is modelled as a sequence of events:
  - `Prompt`, `Echo(g)`, `HintLower` ("Menor que isso!"), `HintHigher` ("Maior que isso!") and
    `Correct` in the game;
  - the printed values in the pattern-matching program.

## Model

| member | source | states |
|---|---|---|
| Rectangles.I32AsUsize | projects/rectangels/src/main.rs:9 | `as usize` keeps non-negative values and is congruent to its input modulo 2^64 |
| Rectangles.Rectangle.Area | projects/rectangels/src/main.rs:8-10 | for non-negative sides the area is width times height; in general it is that product reduced modulo 2^64 |
| Rectangles.Rectangle.CanHold | projects/rectangels/src/main.rs:12-14 | strictly wider and strictly taller; `CanHoldIsStrictPartialOrder`, `CanHoldHasLargerArea` and `SquareCanHoldIff` state what that means |
| Rectangles.Rectangle.Square | projects/rectangels/src/main.rs:16-21 | both sides of the result equal `size` |
| Rectangles.AreaWithVariables | projects/rectangels/src/main.rs:24-26 | the product of the arguments for non-negative sides; equals the method's area of the same rectangle |
| Rectangles.AreaWithTuple | projects/rectangels/src/main.rs:28-30 | the product of the tuple's components for non-negative sides; equals `area_with_variables` on them |
| Rectangles.AreaVariantsAgree | projects/rectangels/src/main.rs:8-30 | the three area computations agree, and swapping width and height does not change the area |
| Rectangles.CanHoldIsStrictPartialOrder | projects/rectangels/src/main.rs:12-14 | `can_hold` is irreflexive, asymmetric and transitive |
| Rectangles.CanHoldHasLargerArea | projects/rectangels/src/main.rs:8-14 | a rectangle that holds one with non-negative sides has a strictly larger area |
| Rectangles.ProductStrictlyMonotone | projects/rectangels/src/main.rs:8-14 | larger non-negative sides in both dimensions give a strictly larger area product |
| Rectangles.SquareArea | projects/rectangels/src/main.rs:16-21 | a square of side `s` has area `s * s`, whatever the sign of `s` |
| Rectangles.SquareCanHoldIff | projects/rectangels/src/main.rs:12-21 | one square holds another exactly when its side is longer |
| Rectangles.MainExamples | projects/rectangels/src/main.rs:33-70 | the values `main` prints: area 1500 by all three routes; 30x50 holds 10x40 but not 60x45; `square(50)` is 50x50 |
| GuessingGame.TrimStart | rust-projects/guessing_game/src/main.rs:19 | the leading half of `trim`; `TrimStartSplits` states that it drops exactly the leading whitespace |
| GuessingGame.TrimEnd | rust-projects/guessing_game/src/main.rs:19 | the trailing half of `trim`; `TrimEndSplits` states that it drops exactly the trailing whitespace |
| GuessingGame.Trim | rust-projects/guessing_game/src/main.rs:19 | `str::trim`; `TrimUnpadded` and `TrimStripsPadding` state that it removes exactly the whitespace at both ends |
| GuessingGame.TrimStartSplits | rust-projects/guessing_game/src/main.rs:19 | the leading trim is a suffix of its input; what it drops is whitespace; it does not start with whitespace |
| GuessingGame.TrimEndSplits | rust-projects/guessing_game/src/main.rs:19 | the trailing trim is a prefix of its input; what it drops is whitespace; it does not end with whitespace |
| GuessingGame.TrimUnpadded | rust-projects/guessing_game/src/main.rs:19 | `trim` returns a slice of its input with only whitespace outside it, neither starting nor ending with whitespace |
| GuessingGame.TrimStripsPadding | rust-projects/guessing_game/src/main.rs:19 | trimming whitespace padding around an unpadded text gives back exactly that text |
| GuessingGame.DigitChar | rust-projects/guessing_game/src/main.rs:24 | each digit value has an ASCII digit character with that value |
| GuessingGame.Decimal | rust-projects/guessing_game/src/main.rs:24 | the decimal rendering of a number is a non-empty string of digits, with no leading zero unless the number is 0 |
| GuessingGame.DecimalValueOfDecimal | rust-projects/guessing_game/src/main.rs:24 | reading back the decimal rendering of `n` gives `n` |
| GuessingGame.AccumulateDigits | rust-projects/guessing_game/src/main.rs:19-22 | the digit loop of the `u16` parse with its overflow check at every step; `AccumulateDigitsValue` states what it accepts and the value it gives |
| GuessingGame.AccumulateDigitsValue | rust-projects/guessing_game/src/main.rs:19-22 | digit accumulation with a per-step overflow check succeeds exactly on all-digit strings of value at most 65535, and then yields that value |
| GuessingGame.SignStripped | rust-projects/guessing_game/src/main.rs:19 | the text without one optional leading `+`, as the parse sets it aside; used by `ParseU16Value` |
| GuessingGame.ParseU16 | rust-projects/guessing_game/src/main.rs:19-22 | `parse::<u16>`; `ParseU16Value` gives its complete behaviour, and `ParseAcceptsOnlyDigits`, `ParseDecimalRoundTrip` and `ParseRejectsOverflow` give consequences of it |
| GuessingGame.ParseAcceptsOnlyDigits | rust-projects/guessing_game/src/main.rs:19-22 | parsing rejects the empty string and a leading `-`; any accepted string is digits with at most a leading `+` |
| GuessingGame.ParseU16Value | rust-projects/guessing_game/src/main.rs:19-22 | the complete behaviour of the parse: after one optional leading `+` is set aside, a non-empty digit string of value at most 65535 is accepted as exactly that value, leading zeros included; every other text is refused |
| GuessingGame.ParseLeadingZeros | rust-projects/guessing_game/src/main.rs:19-22 | "007" parses as 7 and "+0042" as 42 |
| GuessingGame.ParseDecimalRoundTrip | rust-projects/guessing_game/src/main.rs:19-24 | every `u16` printed in decimal parses back to itself, with or without a leading `+` |
| GuessingGame.ParseRejectsOverflow | rust-projects/guessing_game/src/main.rs:19-22 | a digit string whose value exceeds 65535 is rejected, with or without `+` |
| GuessingGame.Guess | rust-projects/guessing_game/src/main.rs:19-22 | the trimmed line parsed as `u16`; `GuessOfDecimalLine` and `RejectedLine` give accepted and refused lines |
| GuessingGame.Step | rust-projects/guessing_game/src/main.rs:19-33 | the decision for one line; `StepOutcome` states it outcome by outcome |
| GuessingGame.StepOutcome | rust-projects/guessing_game/src/main.rs:19-33 | one iteration retries exactly when the line does not parse; otherwise it carries the guess and is too high, too low or a win exactly when the guess is above, below or equal to the secret |
| GuessingGame.Iteration | rust-projects/guessing_game/src/main.rs:11-33 | every iteration starts with the prompt, and prints nothing more exactly when the line is rejected |
| GuessingGame.IterationOfRejected | rust-projects/guessing_game/src/main.rs:11-22 | a line that does not parse prints only the prompt before the loop starts over |
| GuessingGame.IterationOfGuess | rust-projects/guessing_game/src/main.rs:11-33 | an accepted guess prints the prompt, the echo of the guess, and "Menor que isso!" when it is above the secret, "Maior que isso!" when below, the win message when equal |
| GuessingGame.Transcript | rust-projects/guessing_game/src/main.rs:9-34 | what is printed while a sequence of lines is read; `TranscriptExtends` and `TranscriptTally` state its shape and counts, and `Play` produces it |
| GuessingGame.TranscriptExtends | rust-projects/guessing_game/src/main.rs:9-34 | the transcript of one more line is the previous transcript followed by that line's iteration |
| GuessingGame.FirstWin | rust-projects/guessing_game/src/main.rs:29-32 | the index found holds a winning line, and no earlier line wins; when there is none, no line wins |
| GuessingGame.FirstWinAt | rust-projects/guessing_game/src/main.rs:29-32 | a winning line with no earlier win is the first win |
| GuessingGame.TallyOfAppend | rust-projects/guessing_game/src/main.rs:9-34 | counting events distributes over concatenation |
| GuessingGame.IterationTally | rust-projects/guessing_game/src/main.rs:11-33 | one iteration prints one prompt, one echo when the line parses, and then exactly one hint or win message; a win exactly when the guess equals the secret |
| GuessingGame.TranscriptTally | rust-projects/guessing_game/src/main.rs:9-34 | over a session: one prompt per line read, one echo and one verdict per accepted guess, wins counted by `Wins` |
| GuessingGame.NoWins | rust-projects/guessing_game/src/main.rs:29-32 | lines none of which wins produce no win message |
| GuessingGame.Play | rust-projects/guessing_game/src/main.rs:7-34 | the loop stops right after the first winning line, or reads every line if none wins; its output is the transcript of the lines read, with one prompt per line, exactly one win when it won, and the win message last |
| GuessingGame.SessionWon | rust-projects/guessing_game/src/main.rs:29-32 | a session stopping at the first win has exactly one win message, and it is the last event |
| GuessingGame.SessionLost | rust-projects/guessing_game/src/main.rs:9-34 | with no winning line there is no first win and no win message |
| GuessingGame.ScenarioGuess | rust-projects/guessing_game/src/main.rs:19-22 | lines "17\n", "abc\n", "100\n" and "42\n" parse to 17, nothing, 100 and 42 |
| GuessingGame.ScenarioTrace | rust-projects/guessing_game/src/main.rs:9-34 | with secret 42 and lines read as 17, nothing, 100 and 42, the fourth line is the first win and the exact transcript of the four iterations is given |
| GuessingGame.ScenarioFirstWin | rust-projects/guessing_game/src/main.rs:26-32 | with secret 42 and those guesses, the fourth line is the first that wins |
| GuessingGame.ScenarioTranscript | rust-projects/guessing_game/src/main.rs:9-34 | the transcript of four lines is their four iterations in order |
| GuessingGame.Scenario | rust-projects/guessing_game/src/main.rs:9-34 | a session with secret 42 stops after four lines, and a fifth line is never read; its exact output is given |
| GuessingGame.GuessOfDecimalLine | rust-projects/guessing_game/src/main.rs:13-22 | a number typed in decimal and followed by a newline is read as that number |
| GuessingGame.DecimalLineTrimmed | rust-projects/guessing_game/src/main.rs:19 | trimming a decimal number followed by the newline that `read_line` keeps gives back exactly the digits |
| GuessingGame.RejectedLine | rust-projects/guessing_game/src/main.rs:19-22 | an empty line, letters, a negative number, a lone `+` and an out-of-range number are rejected |
| GuessingGame.RejectedLines | rust-projects/guessing_game/src/main.rs:19-22 | each of those lines makes the iteration start over silently, whatever the secret |
| PatternMatching.StatusCode | projects/patt_match/src/main.rs:13-18 | the `match` from a response to its code; `StatusCodeCases` states each arm |
| PatternMatching.StatusCodeCases | projects/patt_match/src/main.rs:13-18 | `Status(c)` maps to `c`, `Ok` to 200, `NotFound` to 404 and `ServerError` to 500; exactly `Ok` and `Status(200)` map to 200 |
| PatternMatching.Report200 | projects/patt_match/src/main.rs:20-22 | the only thing ever printed is 200, and it is printed (once) exactly for `Ok` and `Status(200)` |
| PatternMatching.Matches | projects/patt_match/src/main.rs:36-45 | the two `while let` patterns: `Http::Status(_)`, and `Http::NotFound` or `Http::ServerError`; the step lemmas and run lemmas use it |
| PatternMatching.MatchingRun | projects/patt_match/src/main.rs:36-45 | the run of matching responses at the back of the vector is no longer than the vector |
| PatternMatching.MatchingRunIsMaximal | projects/patt_match/src/main.rs:36-45 | every response in the run matches the loop's pattern, and the response just below the run, if any, does not |
| PatternMatching.AfterPopWhile | projects/patt_match/src/main.rs:36-45 | the vector a `while let ... pop()` loop leaves; `AfterPopWhileCut` states which prefix it is |
| PatternMatching.AfterPopWhileCut | projects/patt_match/src/main.rs:36-45 | a `while let ... pop()` loop removes the whole matching run plus the element that stopped it, or empties the vector when everything matches; it leaves a strictly shorter vector unless the vector was already empty |
| PatternMatching.StatusLines | projects/patt_match/src/main.rs:36-38 | the lines the first loop prints; `StatusLinesOfRun` states them line by line |
| PatternMatching.StatusLinesOfRun | projects/patt_match/src/main.rs:36-38 | the first loop prints one line per status in the run, from the top down, each with its code and the length left after its pop |
| PatternMatching.UnexpectedLines | projects/patt_match/src/main.rs:43-45 | the lines the second loop prints; `UnexpectedLinesOfRun` states them line by line |
| PatternMatching.UnexpectedLinesOfRun | projects/patt_match/src/main.rs:43-45 | the second loop prints one line per `NotFound`/`ServerError` in the run, each with the length left after its pop, counting down from one less than the length |
| PatternMatching.StatusPopStep | projects/patt_match/src/main.rs:36-38 | one pass of the first loop: a popped status is printed and the loop continues; any other popped response ends it and is lost |
| PatternMatching.UnexpectedPopStep | projects/patt_match/src/main.rs:43-45 | one pass of the second loop: a popped `NotFound` or `ServerError` is reported and the loop continues; anything else ends it and is lost |
| PatternMatching.HttpVec.constructor | projects/patt_match/src/main.rs:24-34 | the vector holds the given responses |
| PatternMatching.HttpVec.Pop | projects/patt_match/src/main.rs:36 | `Vec::pop`: `None` on an empty vector, otherwise the last element, removed from the vector |
| PatternMatching.PopStatusCodes | projects/patt_match/src/main.rs:36-38 | the first loop leaves the vector as `AfterPopWhile` describes and prints the lines `StatusLines` describes |
| PatternMatching.PopUnexpected | projects/patt_match/src/main.rs:43-45 | the second loop leaves the vector as `AfterPopWhile` describes and prints the lines `UnexpectedLines` describes |
| PatternMatching.InitialResponses | projects/patt_match/src/main.rs:24-34 | the vector literal of `main`, bottom first; `LiteralTrace` gives what the loops do to it |
| PatternMatching.LiteralTrace | projects/patt_match/src/main.rs:24-45 | on the literal vector, the first loop prints (201, 8), (100, 7), (503, 6), (500, 5) and leaves `NotFound, NotFound, ServerError, Ok`; the second loop then prints nothing and leaves `NotFound, NotFound, ServerError` |
| PatternMatching.SecondLoopWithoutOk | projects/patt_match/src/main.rs:43-45 | if the vector were `NotFound, NotFound, ServerError`, the second loop would print 2, 1, 0 and empty it |
| PatternMatching.Run | projects/patt_match/src/main.rs:10-45 | the whole `main`: `Status(404)` prints no 200 line, and the two loops print and leave exactly the trace above |

## Left out

- Random secret: the secret comes from the thread-local random generator (guessing game line 7). Here it is a parameter, and `Play` requires it to lie in 1..=500.
- Console input: reading stdin, and the panic when reading fails (`expect`), are not modelled. The lines typed are a finite scripted sequence.
- End of input: at end of input the real program reads an empty line, rejects it and prompts again, forever. The model stops when the scripted lines run out (`Play` returns `won == false`).
- Output formatting: the text of the `println!` calls and the `Debug` output of `Rectangle` are modelled as events or printed values, not as strings.
- Rectangles.Rectangle.Area: requires the `i32` product not to overflow. Rust panics on overflow in debug builds and wraps in release builds, and neither is modelled.
- Rectangles.AreaWithVariables: the same `i32` overflow restriction.
- Rectangles.AreaWithTuple: the same `i32` overflow restriction.
- Target width: `usize` is modelled as 64 bits only; 32-bit targets are not covered.
- `projects/variables/src/main.rs` is not part of this model. It shows variable bindings and shadowing, a binary literal, a tuple, an array, `f64` constants and an enum of `String`s, and is not one of the three programs.
