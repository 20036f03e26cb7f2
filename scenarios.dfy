/** Concrete runs of ListAllTasks' enumeration: the requests it makes, the records it sends and
    the error it returns, for a few characteristic server behaviours. */
module Scenarios {
  import opened Wrappers
  import opened Errors
  import opened Strings
  import opened Request
  import opened Tasks
  import opened Enumeration
  import opened EnumerationProperties
  import opened EnumerationRuns
  import opened TaskStream

  /** A 500 response makes ListTasks fail with a transient error; the scenarios below take any
      transient error `e` in its place. */
  lemma ServerErrorIsTransient<B, T>(body: B, decode: B -> DecodedTasks<T>)
    ensures ListTasks(Delivered(Response(500, body)), decode) == Failure(BadResponseCode(500))
    ensures Transient(BadResponseCode(500))
  {
    ListTasksStatus(500, body, decode);
  }

  /** Pages of 10, 10 and 5 records and then an empty page: every record is sent, in order, the
      requests ask for offsets 0, 10, 20 and 25, and the run returns nil. */
  lemma Pagination(p1: seq<int>, p2: seq<int>, p3: seq<int>)
    requires |p1| == 10 && |p2| == 10 && |p3| == 5
    ensures Enumerate(Env([Success(p1), Success(p2), Success(p3), Success([])], [], Canceled, Transient))
         == Machine(Stopped(None), 4, 25, p1 + p2 + p3,
                    [Fetch(10, 0), Fetch(10, 10), Fetch(10, 20), Fetch(10, 25)])
  {
    var pages: seq<PageResult<int>> := [Success(p1), Success(p2), Success(p3), Success([])];
    var env := Env(pages, [], Canceled, Transient);
    Completes(env, 3);
    assert pages[..0] == [];
    AllRecordsNext(pages, 0);
    AllRecordsNext(pages, 1);
    AllRecordsNext(pages, 2);
    assert AllRecords(pages[..3]) == p1 + p2 + p3;
    RequestsAt(pages, 4);
  }

  /** Two transient failures (500 responses, say) and then a page of three: two back-offs, the same offset asked for three
      times, the records sent, and then the next offset. */
  lemma RetryThenPage(e: Error, p: seq<int>)
    requires Transient(e) && |p| == 3
    ensures Enumerate(Env([Failure(e), Failure(e), Success(p), Success([])], [], Canceled, Transient))
         == Machine(Stopped(None), 4, 5, p,
                    [Fetch(10, 0), Wait, Fetch(10, 0), Wait, Fetch(10, 0), Fetch(10, 3)])
  {
    var env := Env([Failure(e), Failure(e), Success(p), Success([])], [], Canceled, Transient);
    Recovers(Start(), env, 0, 2, p);
    var m := Machine(Fetching(3, 0), 3, 5, p, RetryRun(0, 2) + [Fetch(10, 0)]);
    EmptyPageStops(m, env, 3, 0);
  }

  /** A 403 response is not retried: one request, nothing sent, the error wrapped once. */
  lemma ForbiddenIsFatal()
    ensures Enumerate<int>(Env([Failure(BadResponseCode(403))], [], Canceled, Transient))
         == Machine(Stopped(Some(ListingFailed(BadResponseCode(403)))), 1, 0, [], [Fetch(10, 0)])
  {
    var env: Env<int> := Env([Failure(BadResponseCode(403))], [], Canceled, Transient);
    BadResponseCodeTransient(403);
    FatalErrorStops(Start(), env, 0, 0, BadResponseCode(403));
  }

  /** A 503 is not retried either: only an error text containing "500" is. */
  lemma ServiceUnavailableIsFatal()
    ensures Enumerate<int>(Env([Failure(BadResponseCode(503))], [], Canceled, Transient))
         == Machine(Stopped(Some(ListingFailed(BadResponseCode(503)))), 1, 0, [], [Fetch(10, 0)])
  {
    var env: Env<int> := Env([Failure(BadResponseCode(503))], [], Canceled, Transient);
    BadResponseCodeTransient(503);
    FirstPageFatal(env, BadResponseCode(503));
  }

  lemma UnauthorizedPage<B, T>(body: B, decode: B -> DecodedTasks<T>)
    ensures ListTasks(Delivered(Response(401, body)), decode) == Failure(NotAuthorized)
  {
    ListTasksStatus(401, body, decode);
  }

  lemma UnauthorizedText()
    ensures Text(ListingFailed(NotAuthorized)) == "error listing task page: not authorized"
  {
    assert Text(ListingFailed(NotAuthorized)) == "error listing task page: " + "not authorized";
  }

  /** A 401 response ends ListAllTasks after one request, without a back-off and with nothing
      sent, with "error listing task page: not authorized", an error for which
      errors.Is(err, ErrNotAuthorized) holds. */
  lemma UnauthorizedIsFatal<B, T>(body: B, decode: B -> DecodedTasks<T>, ctxDone: seq<bool>, ctxErr: ContextError)
    ensures var f := Enumerate(EnvOf([Delivered(Response(401, body))], decode, ctxDone, ctxErr));
      && f == Machine(Stopped(Some(ListingFailed(NotAuthorized))), 1, 0, [], [Fetch(10, 0)])
      && Is(f.phase.err.value, NotAuthorized)
      && Text(f.phase.err.value) == "error listing task page: not authorized"
  {
    UnauthorizedRun(body, decode, ctxDone, ctxErr);
    UnauthorizedText();
  }

  lemma FirstPageFatal<T>(env: Env<T>, e: Error)
    requires |env.pages| > 0 && env.pages[0] == Failure(e) && !env.transient(e)
    ensures Enumerate(env) == Machine(Stopped(Some(ListingFailed(e))), 1, 0, [], [Fetch(10, 0)])
  {
    FatalErrorStops(Start(), env, 0, 0, e);
  }

  lemma UnauthorizedRun<B, T>(body: B, decode: B -> DecodedTasks<T>, ctxDone: seq<bool>, ctxErr: ContextError)
    ensures Enumerate(EnvOf([Delivered(Response(401, body))], decode, ctxDone, ctxErr))
         == Machine(Stopped(Some(ListingFailed(NotAuthorized))), 1, 0, [], [Fetch(10, 0)])
  {
    var responses := [Delivered(Response(401, body))];
    var env := EnvOf(responses, decode, ctxDone, ctxErr);
    UnauthorizedPage(body, decode);
    PagesAt(responses, decode, 0);
    NotAuthorizedNotTransient();
    FirstPageFatal(env, NotAuthorized);
  }

  /** Four transient failures in a row: three back-offs, four requests for offset 0, and then "max
      retries exceeded" wrapping the last error. */
  lemma FourTransientFailuresGiveUp(e: Error)
    requires Transient(e)
    ensures var f := Enumerate<int>(Env([Failure(e), Failure(e), Failure(e),
                                         Failure(e)], [], Canceled, Transient));
      && f == Machine(Stopped(Some(MaxRetriesExceeded(e))), 4, 3, [],
                      [Fetch(10, 0), Wait, Fetch(10, 0), Wait, Fetch(10, 0), Wait, Fetch(10, 0)])
      && Is(f.phase.err.value, e)
  {
    var env: Env<int> := Env([Failure(e), Failure(e), Failure(e),
                         Failure(e)], [], Canceled, Transient);
    GivesUp(Start(), env, 0);
    ThreeRetriesThenFetch(0);
  }

  lemma ThreeRetriesThenFetch(off: nat)
    ensures [] + RetryRun(off, MaxRetries) + [Fetch(ResultsPerPage, off)]
         == [Fetch(10, off), Wait, Fetch(10, off), Wait, Fetch(10, off), Wait, Fetch(10, off)]
  {
    assert RetryRun(off, 1) == [Fetch(10, off), Wait];
    assert RetryRun(off, 2) == [Fetch(10, off), Wait, Fetch(10, off), Wait];
  }

  /** Three transient failures, a page of two, then three more and an empty page: the retry
      budget is per offset, so the second run of failures is retried in full and the listing
      still ends normally. */
  lemma RetryBudgetIsPerOffset<T>(env: Env<T>, p: seq<T>)
    requires |env.pages| == 8 && TransientFailures(env, 0, 3) && env.pages[3] == Success(p) && |p| == 2
    requires TransientFailures(env, 4, 3) && env.pages[7] == Success([])
    requires LiveFor(env, 0, 8)
    ensures Enumerate(env)
         == Machine(Stopped(None), 8, 8, p,
                    RetryRun(0, 3) + [Fetch(10, 0)] + RetryRun(2, 3) + [Fetch(10, 2)])
  {
    BudgetFirstOffset(env, p);
    BudgetSecondOffset(env, p);
  }

  lemma BudgetFirstOffset<T>(env: Env<T>, p: seq<T>)
    requires |env.pages| == 8 && TransientFailures(env, 0, 3) && env.pages[3] == Success(p) && |p| == 2
    requires LiveFor(env, 0, 8)
    ensures Enumerate(env) == Run(Machine(Fetching(2, 0), 4, 5, p, RetryRun(0, 3) + [Fetch(10, 0)]), env)
  {
    Recovers(Start(), env, 0, 3, p);
    assert [] + p == p;
    assert [] + RetryRun(0, 3) == RetryRun(0, 3);
  }

  lemma BudgetSecondOffset<T>(env: Env<T>, p: seq<T>)
    requires |env.pages| == 8 && TransientFailures(env, 4, 3) && env.pages[7] == Success([])
    requires LiveFor(env, 0, 8)
    ensures Run(Machine(Fetching(2, 0), 4, 5, p, RetryRun(0, 3) + [Fetch(10, 0)]), env)
         == Machine(Stopped(None), 8, 8, p, RetryRun(0, 3) + [Fetch(10, 0)] + RetryRun(2, 3) + [Fetch(10, 2)])
  {
    var m1 := Machine(Fetching(2, 0), 4, 5, p, RetryRun(0, 3) + [Fetch(10, 0)]);
    assert LiveFor(env, 5, 3);
    RetriesThenEmpty(m1, env, 2, 3);
  }

  /** A deadline that expires during the back-off after a transient failure: the run returns the context's error
      after one request, and nothing is sent. */
  lemma DeadlineDuringBackOff(e: Error, p: seq<int>)
    requires Transient(e)
    ensures var f := Enumerate(Env([Failure(e), Success(p)], [true], DeadlineExceeded, Transient));
      && f == Machine(Stopped(Some(Context(DeadlineExceeded))), 1, 1, [], [Fetch(10, 0)])
      && Text(f.phase.err.value) == "context deadline exceeded"
  {
    var env := Env([Failure(e), Success(p)], [true], DeadlineExceeded, Transient);
    CancelledInBackOff(Start(), env, 0, 0, e);
  }

  /** A context cancelled while the first request is in flight: the HTTP call fails with the
      `*url.Error` `Get "<url>": context canceled` (or `... deadline exceeded`). When the URL holds
      no "500", that error is not retried but wrapped as a listing error, and errors.Is still finds
      the context's error in it. */
  lemma CancelledDuringFetch<B, T>(client: Client, c: ContextError, decode: B -> DecodedTasks<T>, ctxDone: seq<bool>)
    requires !Contains(ListURL(client, ResultsPerPage, 0), "500")
    ensures var err := UrlError("Get", ListURL(client, ResultsPerPage, 0), Context(c));
      var f := Enumerate(EnvOf([TransportError(err)], decode, ctxDone, c));
      && f == Machine(Stopped(Some(ListingFailed(err))), 1, 0, [], [Fetch(10, 0)])
      && Is(f.phase.err.value, Context(c))
  {
    var err := UrlError("Get", ListURL(client, ResultsPerPage, 0), Context(c));
    var responses: seq<Exchange<B>> := [TransportError(err)];
    var env := EnvOf(responses, decode, ctxDone, c);
    PagesAt(responses, decode, 0);
    CancelledRequestTransient(ListURL(client, ResultsPerPage, 0), c);
    FirstPageFatal(env, err);
    assert Is(Context(c), Context(c));
    assert Is(ListingFailed(err), Context(c));
  }

  /** A context cancelled while the request for offset 500 is in flight: "500" is in the URL, so
      the `*url.Error` counts as transient and the run backs off; the back-off sees the context
      done and the run returns the context's error itself, not wrapped, with no further request. */
  lemma CancelledFetchAtOffset500<B, T>(m: Machine<T>, responses: seq<Exchange<B>>, decode: B -> DecodedTasks<T>,
                                        ctxDone: seq<bool>, c: ContextError, client: Client, a: nat)
    requires m.phase == Fetching(500, a) && a < MaxRetries && m.fetches < |responses|
    requires responses[m.fetches] == TransportError(UrlError("Get", ListURL(client, ResultsPerPage, 500), Context(c)))
    requires m.selects < |ctxDone| && ctxDone[m.selects]
    ensures Run(m, EnvOf(responses, decode, ctxDone, c))
         == m.(fetches := m.fetches + 1, selects := m.selects + 1, log := m.log + [Fetch(ResultsPerPage, 500)],
               phase := Stopped(Some(Context(c))))
  {
    var err := UrlError("Get", ListURL(client, ResultsPerPage, 500), Context(c));
    var env := EnvOf(responses, decode, ctxDone, c);
    PagesAt(responses, decode, m.fetches);
    CancelledAtOffset500IsTransient(client, c);
    CancelledInBackOff(m, env, 500, a, err);
  }

  /** A context cancelled while a page is being sent: the records sent before it stay sent, the
      rest of the page is dropped, and the run returns the context's error. */
  lemma CancelledMidPage(a: int, b: int, c: int)
    ensures Enumerate(Env([Success([a, b, c]), Success([])], [false, true], Canceled, Transient))
         == Machine(Stopped(Some(Context(Canceled))), 1, 2, [a], [Fetch(10, 0)])
  {
    var env := Env([Success([a, b, c]), Success([])], [false, true], Canceled, Transient);
    var m0 := Start();
    RunStep(m0, env);
    var m1 := Step(m0, env);
    assert m1 == Machine(Delivering(0, [a, b, c], 0), 1, 0, [], [Fetch(10, 0)]);
    RunStep(m1, env);
    var m2 := Step(m1, env);
    assert m2 == Machine(Delivering(0, [a, b, c], 1), 1, 1, [a], [Fetch(10, 0)]);
    RunStep(m2, env);
    RunHalted(Step(m2, env), env);
  }
}
