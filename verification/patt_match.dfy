/**
 * The pattern-matching exercise: an `Http` enum mapped to a numeric status code, and two
 * `while let Some(<pattern>) = responses.pop()` loops that shrink a vector of responses from the
 * back while its top matches. A pop that yields a non-matching response ends the loop, but that
 * response has been removed all the same.
 */
module PatternMatching {
  import opened Prims

  datatype Http = Status(code: u16) | Ok | NotFound | ServerError

  /** The `match` from a response to its status code. */
  function StatusCode(response: Http): u16 {
    match response
    case Status(code) => code
    case Ok => 200
    case NotFound => 404
    case ServerError => 500
  }

  /**
   * The mapping is total: the three named variants have their fixed codes and `Status(c)`
   * carries its own. Exactly `Ok` and `Status(200)` map to 200.
   */
  lemma StatusCodeCases(response: Http, c: u16)
    ensures StatusCode(Status(c)) == c
    ensures StatusCode(Ok) == 200 && StatusCode(NotFound) == 404 && StatusCode(ServerError) == 500
    ensures StatusCode(response) == 200 <==> response == Ok || response == Status(200)
  {
  }

  /** The `if let 200 = status` check: the code printed, if any (at most once). */
  function Report200(response: Http): (printed: seq<u16>)
    ensures printed == [] || printed == [200]
    ensures printed == [200] <==> response == Ok || response == Status(200)
  {
    if StatusCode(response) == 200 then [200] else []
  }

  // ---------------------------------------------------------------------------------------
  // The two pop loops, as functions of the vector they start from

  /** The pattern of each loop: `Http::Status(code)`, and `Http::NotFound | Http::ServerError`. */
  datatype Pattern = AnyStatus | NotFoundOrServerError

  predicate Matches(p: Pattern, response: Http) {
    match p
    case AnyStatus => response.Status?
    case NotFoundOrServerError => response == NotFound || response == ServerError
  }

  /** Number of responses at the top (back) of `s` that match `p`, before the first that does not. */
  function MatchingRun(p: Pattern, s: seq<Http>): (k: nat)
    ensures k <= |s|
  {
    if s == [] || !Matches(p, s[|s| - 1]) then 0 else 1 + MatchingRun(p, s[..|s| - 1])
  }

  /** The run is the longest stretch of matching responses at the back of the vector. */
  lemma {:induction false} MatchingRunIsMaximal(p: Pattern, s: seq<Http>)
    ensures forall i | |s| - MatchingRun(p, s) <= i < |s| :: Matches(p, s[i])
    ensures MatchingRun(p, s) < |s| ==> !Matches(p, s[|s| - 1 - MatchingRun(p, s)])
  {
    if s != [] && Matches(p, s[|s| - 1]) {
      var init := s[..|s| - 1];
      MatchingRunIsMaximal(p, init);
      assert forall i | |s| - MatchingRun(p, s) <= i < |s| - 1 :: s[i] == init[i];
    }
  }

  /**
   * The vector left by `while let Some(<p>) = v.pop() {}`: the loop pops matching responses and
   * also pops, and drops, the first response that does not match.
   */
  function AfterPopWhile(p: Pattern, s: seq<Http>): seq<Http> {
    if s == [] then []
    else if Matches(p, s[|s| - 1]) then AfterPopWhile(p, s[..|s| - 1])
    else s[..|s| - 1]
  }

  /**
   * What survives is exactly what lies below the matching run and the response that stopped
   * the loop; when the whole vector matches, nothing survives. Either way the loop leaves a
   * prefix of the vector, strictly shorter unless the vector was already empty.
   */
  lemma {:induction false} AfterPopWhileCut(p: Pattern, s: seq<Http>)
    ensures MatchingRun(p, s) == |s| ==> AfterPopWhile(p, s) == []
    ensures MatchingRun(p, s) < |s| ==> AfterPopWhile(p, s) == s[..|s| - MatchingRun(p, s) - 1]
    ensures s != [] ==> |AfterPopWhile(p, s)| < |s|
  {
    if s != [] && Matches(p, s[|s| - 1]) {
      var init := s[..|s| - 1];
      AfterPopWhileCut(p, init);
      if MatchingRun(p, init) < |init| {
        assert init[..|init| - MatchingRun(p, init) - 1] == s[..|s| - MatchingRun(p, s) - 1];
      }
    }
  }

  /** Lines printed by the first loop: each popped code with the length left after the pop. */
  function StatusLines(s: seq<Http>): seq<(u16, nat)> {
    if s == [] then []
    else
      match s[|s| - 1]
      case Status(code) => [(code, |s| - 1)] + StatusLines(s[..|s| - 1])
      case _ => []
  }

  /** Line `j` of `lines` reports the `j`-th response from the top of `s`: its code and the length left. */
  predicate StatusLineAt(s: seq<Http>, lines: seq<(u16, nat)>, j: int) {
    0 <= j < |lines| && j < |s| && s[|s| - 1 - j].Status? && lines[j] == (s[|s| - 1 - j].code, |s| - 1 - j)
  }

  /**
   * The first loop prints one line per status in the run at the back of the vector, from the
   * top down, each with its code and the length left after its pop.
   */
  lemma {:induction false} StatusLinesOfRun(s: seq<Http>)
    ensures |StatusLines(s)| == MatchingRun(AnyStatus, s)
    ensures forall j | 0 <= j < |StatusLines(s)| :: StatusLineAt(s, StatusLines(s), j)
  {
    if s != [] && s[|s| - 1].Status? {
      var init := s[..|s| - 1];
      StatusLinesOfRun(init);
      assert StatusLines(s) == [(s[|s| - 1].code, |s| - 1)] + StatusLines(init);
      assert MatchingRun(AnyStatus, s) == 1 + MatchingRun(AnyStatus, init);
      forall j | 0 <= j < |StatusLines(s)|
        ensures StatusLineAt(s, StatusLines(s), j)
      {
        if j > 0 {
          assert StatusLineAt(init, StatusLines(init), j - 1);
          assert s[|s| - 1 - j] == init[|init| - 1 - (j - 1)];
        }
      }
    } else {
      assert StatusLines(s) == [] && MatchingRun(AnyStatus, s) == 0;
    }
  }

  /** Lines printed by the second loop: the length left after each matching pop. */
  function UnexpectedLines(s: seq<Http>): seq<nat> {
    if s == [] || !Matches(NotFoundOrServerError, s[|s| - 1]) then []
    else [|s| - 1] + UnexpectedLines(s[..|s| - 1])
  }

  /**
   * The second loop prints one line per `NotFound` or `ServerError` in the run at the back of
   * the vector: the lengths left after the pops, counting down from `|s| - 1`.
   */
  lemma {:induction false} UnexpectedLinesOfRun(s: seq<Http>)
    ensures |UnexpectedLines(s)| == MatchingRun(NotFoundOrServerError, s)
    ensures forall j | 0 <= j < |UnexpectedLines(s)| :: UnexpectedLines(s)[j] == |s| - 1 - j
  {
    if s != [] && Matches(NotFoundOrServerError, s[|s| - 1]) {
      var init := s[..|s| - 1];
      UnexpectedLinesOfRun(init);
      assert forall j | 1 <= j < |UnexpectedLines(s)| :: UnexpectedLines(s)[j] == UnexpectedLines(init)[j - 1];
    }
  }

  // ---------------------------------------------------------------------------------------
  // The vector and the loops over it

  /** The `Vec<Http>` the loops pop from. */
  class HttpVec {
    var items: seq<Http>

    constructor (init: seq<Http>)
      ensures items == init
    {
      items := init;
    }

    /** `Vec::pop`: removes and returns the last element, or `None` when empty. */
    method Pop() returns (top: Option<Http>)
      modifies this
      ensures old(items) == [] ==> top == None && items == []
      ensures old(items) != [] ==> top == Some(old(items)[|old(items)| - 1]) && items == old(items)[..|old(items)| - 1]
    {
      if items == [] {
        top := None;
      } else {
        top := Some(items[|items| - 1]);
        items := items[..|items| - 1];
      }
    }
  }

  /** One pass of the first loop: a status is printed and the loop goes on; anything else stops it. */
  lemma StatusPopStep(s: seq<Http>)
    requires s != []
    ensures s[|s| - 1].Status? ==>
      StatusLines(s) == [(s[|s| - 1].code, |s| - 1)] + StatusLines(s[..|s| - 1]) &&
      AfterPopWhile(AnyStatus, s) == AfterPopWhile(AnyStatus, s[..|s| - 1])
    ensures !s[|s| - 1].Status? ==> StatusLines(s) == [] && AfterPopWhile(AnyStatus, s) == s[..|s| - 1]
  {
  }

  /** `while let Some(Http::Status(code)) = responses.pop() { println!(code, responses.len()) }` */
  method PopStatusCodes(responses: HttpVec) returns (printed: seq<(u16, nat)>)
    modifies responses
    ensures responses.items == AfterPopWhile(AnyStatus, old(responses.items))
    ensures printed == StatusLines(old(responses.items))
  {
    ghost var start := responses.items;
    printed := [];
    while true
      invariant AfterPopWhile(AnyStatus, responses.items) == AfterPopWhile(AnyStatus, start)
      invariant printed + StatusLines(responses.items) == StatusLines(start)
      decreases |responses.items|
    {
      ghost var before := responses.items;
      if before != [] {
        StatusPopStep(before);
      }
      var top := responses.Pop();
      if top.Some? && top.value.Status? {
        ghost var rest := StatusLines(responses.items);
        printed := printed + [(top.value.code, |responses.items|)];
        assert printed + rest == StatusLines(start);
      } else {
        break;
      }
    }
  }

  /** One pass of the second loop: `NotFound` or `ServerError` goes on, anything else stops it. */
  lemma UnexpectedPopStep(s: seq<Http>)
    requires s != []
    ensures Matches(NotFoundOrServerError, s[|s| - 1]) ==>
      UnexpectedLines(s) == [|s| - 1] + UnexpectedLines(s[..|s| - 1]) &&
      AfterPopWhile(NotFoundOrServerError, s) == AfterPopWhile(NotFoundOrServerError, s[..|s| - 1])
    ensures !Matches(NotFoundOrServerError, s[|s| - 1]) ==>
      UnexpectedLines(s) == [] && AfterPopWhile(NotFoundOrServerError, s) == s[..|s| - 1]
  {
  }

  /** `while let Some(Http::NotFound | Http::ServerError) = responses.pop() { println!(responses.len()) }` */
  method PopUnexpected(responses: HttpVec) returns (printed: seq<nat>)
    modifies responses
    ensures responses.items == AfterPopWhile(NotFoundOrServerError, old(responses.items))
    ensures printed == UnexpectedLines(old(responses.items))
  {
    ghost var start := responses.items;
    printed := [];
    while true
      invariant AfterPopWhile(NotFoundOrServerError, responses.items) == AfterPopWhile(NotFoundOrServerError, start)
      invariant printed + UnexpectedLines(responses.items) == UnexpectedLines(start)
      decreases |responses.items|
    {
      ghost var before := responses.items;
      if before != [] {
        UnexpectedPopStep(before);
      }
      var top := responses.Pop();
      if top.Some? && Matches(NotFoundOrServerError, top.value) {
        ghost var rest := UnexpectedLines(responses.items);
        printed := printed + [|responses.items|];
        assert printed + rest == UnexpectedLines(start);
      } else {
        break;
      }
    }
  }

  /** The vector literal of `main`, bottom first. */
  function InitialResponses(): seq<Http> {
    [NotFound, NotFound, ServerError, Ok, Ok, Status(500), Status(503), Status(100), Status(201)]
  }

  /**
   * The trace on the literal vector. The first loop prints 201, 100, 503 and 500 with 8, 7, 6
   * and 5 left, then pops one `Ok`; the second loop then pops the other `Ok` at once, prints
   * nothing and leaves `NotFound, NotFound, ServerError`.
   */
  lemma LiteralTrace()
    ensures StatusLines(InitialResponses()) == [(201, 8), (100, 7), (503, 6), (500, 5)]
    ensures AfterPopWhile(AnyStatus, InitialResponses()) == [NotFound, NotFound, ServerError, Ok]
    ensures UnexpectedLines([NotFound, NotFound, ServerError, Ok]) == []
    ensures AfterPopWhile(NotFoundOrServerError, [NotFound, NotFound, ServerError, Ok]) == [NotFound, NotFound, ServerError]
  {
    var base := [NotFound, NotFound, ServerError, Ok, Ok];
    var s5 := base + [Status(500)];
    var s6 := s5 + [Status(503)];
    var s7 := s6 + [Status(100)];
    var s := s7 + [Status(201)];
    assert s == InitialResponses();
    assert s[..8] == s7 && s7[..7] == s6 && s6[..6] == s5 && s5[..5] == base;
    assert StatusLines(base) == [] && AfterPopWhile(AnyStatus, base) == base[..4];
    assert StatusLines(s5) == [(500, 5)] && AfterPopWhile(AnyStatus, s5) == base[..4];
    assert StatusLines(s6) == [(503, 6), (500, 5)] && AfterPopWhile(AnyStatus, s6) == base[..4];
    assert StatusLines(s7) == [(100, 7), (503, 6), (500, 5)] && AfterPopWhile(AnyStatus, s7) == base[..4];
    assert base[..4] == [NotFound, NotFound, ServerError, Ok];
    assert [NotFound, NotFound, ServerError, Ok][..3] == [NotFound, NotFound, ServerError];
  }

  /** Had only one `Ok` stood in the way, the second loop would have reported all three entries. */
  lemma SecondLoopWithoutOk()
    ensures UnexpectedLines([NotFound, NotFound, ServerError]) == [2, 1, 0]
    ensures AfterPopWhile(NotFoundOrServerError, [NotFound, NotFound, ServerError]) == []
  {
    var s := [NotFound, NotFound, ServerError];
    assert s[..2] == [NotFound, NotFound] && s[..2][..1] == [NotFound] && s[..2][..1][..0] == [];
    assert UnexpectedLines([NotFound]) == [0] && AfterPopWhile(NotFoundOrServerError, [NotFound]) == [];
    assert UnexpectedLines([NotFound, NotFound]) == [1, 0];
    assert AfterPopWhile(NotFoundOrServerError, [NotFound, NotFound]) == [];
  }

  /**
   * The body of `main`: `Status(404)` is not reported by the `if let 200` check, and the two
   * loops leave the trace described by `LiteralTrace`.
   */
  method Run() returns (report: seq<u16>, statusLines: seq<(u16, nat)>, unexpected: seq<nat>, remaining: seq<Http>)
    ensures report == []
    ensures statusLines == [(201, 8), (100, 7), (503, 6), (500, 5)]
    ensures unexpected == []
    ensures remaining == [NotFound, NotFound, ServerError]
  {
    report := Report200(Status(404));
    var responses := new HttpVec(InitialResponses());
    statusLines := PopStatusCodes(responses);
    unexpected := PopUnexpected(responses);
    remaining := responses.items;
    LiteralTrace();
  }
}
