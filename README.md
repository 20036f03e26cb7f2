# go-cuckoo task enumeration, in Dafny

A model of the core of go-cuckoo, a Go client for the Cuckoo sandbox's REST API. The core is the
paginated task enumerator `Client.ListAllTasks`. It repeatedly asks the single-page lister
`Client.ListTasks` for ten tasks at the current offset. It sends every task it gets on the caller's
channel and moves the offset on by the page size. It retries a failed page up to three times, with
a two-second back-off, when the error text contains "500". It stops on an empty page, on any other
error, or when the context is done, and it closes the channel on every return. The model also
covers the authenticated request executor `Client.MakeRequest`, the priority default and status
mapping of `Client.TasksReschedule`, and the lookup key and status mapping of `Client.FilesView` and
`Client.FilesGet`.

How the model is laid out:

- `wrappers.dfy`, `strings.dfy`, `decimal.dfy`: `Option`/`Result`, substring search (Go's
  `strings.Contains`), and decimal formatting and parsing (Go's `%d`).
- `errors.dfy`: Go error values. `Text` is `err.Error()`, `Is` is `errors.Is`, and `Wrapped` is a
  `fmt.Errorf` with `%w`.
- `request.dfy`: `MakeRequest` as a method that adds the bearer header to an `HttpRequest` object
  and classifies what the transport returned.
- `files.dfy`: `FilesView` and `FilesGet` as functions of the server's answer.
- `tasks.dfy`: `ListTasks`, the "500" retry test, the list and reschedule URLs, and
  `TasksReschedule`.
- `enumeration.dfy`: `ListAllTasks` as a reference state machine (`Step`, `Run`, `Enumerate`) with
  the phases Fetching, Waiting, Delivering and Stopped. It runs over two oracles:
  - the result of each successive page fetch;
  - whether the context is seen done at each successive `select`.
- `enumeration_properties.dfy`: an invariant that every step preserves, and from it what any run
  guarantees. It covers the records sent, the requests made, the retry bound, the four ways a run
  ends, and cancellation.
- `enumeration_runs.dfy`: the converses, saying which page results lead to each outcome.
- `task_stream.dfy`: `ListAllTasks` as the imperative loop it is in Go. The tasks channel is a
  `Channel` object whose `Send` and `Close` change its state. The loop is proved to send exactly
  the records, make exactly the requests and return exactly the error of the reference machine,
  and to close the channel on every return.
- `scenarios.dfy`: concrete runs. They cover pagination, retries, the per-offset retry budget,
  giving up, fatal statuses (401, 403, 503), and cancellation during a fetch, a back-off or a send.

Three behaviours of the code that are easy to miss:

- Only an error whose text contains "500" is retried. A 502 or 503 is fatal
  (`Tasks.BadResponseCodeTransient`, `Scenarios.ServiceUnavailableIsFatal`). Conversely, any error
  whose text happens to contain "500" is retried, such as a transport error naming port 5000 or a
  request for offset 500 (`Tasks.AnyTextWith500IsTransient`).
- After a page of N records the next request is for offset + N, not offset + 10. After two failures
  and a page of three, the next offset is 3 (`Scenarios.RetryThenPage`).
- A cancellation while a request is in flight reaches the enumerator as the HTTP call's error. That
  is a `*url.Error` whose text is `Get "<url>": context canceled` (`Request.UrlError`), so the "500"
  test reads the URL too. When the URL holds no "500", the error is not retried. It is returned
  wrapped as "error listing task page: ...", and errors.Is finds the context's error in it
  (`Scenarios.CancelledDuringFetch`). When the URL holds "500", as the request for offset 500 does,
  the error is retried. The back-off then sees the context done and returns `ctx.Err()` unwrapped
  (`Scenarios.CancelledFetchAtOffset500`). A cancellation seen in a back-off or a send also returns
  `ctx.Err()` unwrapped.

## Model

| member | source | states |
|---|---|---|
| Errors.BadResponseCodeCarriesStatus | tasks.go:121-123 | the text of a bad-response-code error starts with "bad response code: " followed by the decimal status, which reads back to the code |
| Request.UrlError | request.go:17-19 | the error of a failed `Client.Do` reads `<op> "<url>": <cause>`, and errors.Is finds in it everything it finds in the cause |
| Request.Classify | request.go:17-27 | a transport error gives no response and that error; a delivered response is returned, with ErrNotAuthorized exactly when the status is 401 and with no error otherwise |
| Request.HeaderAdd | request.go:15 | `Header.Add` appends the value to the key's list and leaves every other key as it was |
| Request.BearerTokenCarriesKey | request.go:15 | the Authorization value is "Bearer " followed by the API key, which can be read back from it |
| Request.MakeRequest | request.go:14-28 | the request gains the bearer header and nothing else; the results are those of Classify on the transport's answer |
| Request.MakeRequestAuthorizes | request.go:15 | after MakeRequest, the last Authorization value is "Bearer " + key and every other header is unchanged |
| Files.LookupOf | files.go:34-43 | FilesView looks up by MD5 when it is set, else by SHA256 when it is set, else by the ID in decimal, which reads back to the ID |
| Files.ViewURL | files.go:45 | the view URL for each of the three lookup kinds |
| Files.FilesView | files.go:50-73 | FilesView succeeds exactly on a delivered 200 whose body decodes; on a delivered 200 the result is the decoder's, success or error; a transport error is returned unchanged |
| Files.FilesViewStatus | files.go:54-63 | a 401 gives ErrNotAuthorized, 404 "file not found", 400 "invalid lookup term", and any other non-200 code "bad response code: <code>" |
| Files.FilesGet | files.go:83-96 | FilesGet succeeds exactly on a delivered 200, and then returns the body itself |
| Files.FilesViewAndGetAgree | files.go:87-94 | outside 200 and 400, FilesView and FilesGet fail with the same error |
| Files.FilesViewAndGetDifferOn400 | files.go:57-58 | a 400 is "invalid lookup term" for FilesView but "bad response code: 400" for FilesGet |
| Tasks.ListTasks | tasks.go:117-133 | ListTasks succeeds exactly on a delivered 200 whose body decodes, and then returns the decoded `tasks` list, or no tasks when the member is absent; a decoding error on a 200 is returned as it is; a transport error is returned unchanged |
| Tasks.ListTasksStatus | tasks.go:121-123 | a non-200 three-digit status fails with ErrNotAuthorized for 401 and with "bad response code: <code>" otherwise, and the failure is transient exactly when the code is 500 |
| Tasks.ListTasksTransportError | tasks.go:117-120 | a transport error, including the `*url.Error` of a cancelled request, is returned unchanged |
| Tasks.ListTasksAbsentMember | tasks.go:125-133 | a 200 whose body has no `tasks` member is an empty page |
| Tasks.ListURL | tasks.go:111 | the list URL is `<BaseURL>/tasks/list/<limit>/`, followed by the offset in decimal, which reads back to the offset |
| Tasks.ListURLInjective | tasks.go:111 | two requests of one page size have the same URL exactly when they ask for the same offset |
| Tasks.BadResponseCodeTransient | tasks.go:70 | for three-digit codes, a bad-response-code error contains "500" exactly when the code is 500 |
| Tasks.NotAuthorizedNotTransient | tasks.go:70 | ErrNotAuthorized is not retried |
| Tasks.ContextErrorNotTransient | tasks.go:70 | neither "context canceled" nor "context deadline exceeded" is retried |
| Tasks.CancelledRequestTransient | tasks.go:70 | the error of a request cancelled in flight is retried exactly when its URL contains "500" |
| Tasks.ListURLContains500 | tasks.go:111 | an offset whose decimal form contains "500" puts "500" in the list URL, whatever the base URL |
| Tasks.CancelledAtOffset500IsTransient | tasks.go:68-70 | a cancelled request for offset 500 is retried |
| Tasks.AnyTextWith500IsTransient | tasks.go:70 | any error whose text contains "500" is retried, whatever produced it |
| Tasks.EffectivePriority | tasks.go:193-195 | a priority of -1 becomes 1, and any other priority is kept; the result is never -1 |
| Tasks.EffectivePriorityIdempotent | tasks.go:193-195 | applying the default twice is the same as applying it once |
| Tasks.RescheduleURL | tasks.go:197 | the reschedule URL ends with the defaulted priority, which reads back and is never -1 |
| Tasks.TasksReschedule | tasks.go:202-226 | TasksReschedule returns nil exactly on a delivered 200 whose status member decodes to "OK"; a 404 gives ErrTaskNotFound |
| Decimal.ParseFormat | tasks.go:122 | `%d` formatting of an int reads back to that int |
| Enumeration.Run | tasks.go:67-103 | stepping the enumerator from any well-formed state ends in a state that has returned or has used up the page results |
| EnumerationProperties.StepPreservesInv | tasks.go:67-103 | every step keeps the run invariant: sent records, requests, retry counts and selects agree with the page results consumed |
| EnumerationProperties.EnumerateInv | tasks.go:61-104 | a whole run ends in a state satisfying the invariant |
| EnumerationProperties.RequestsAt | tasks.go:102 | the i-th request of an uninterrupted listing asks for ten records at the number of records in the pages before it |
| EnumerationProperties.EnumerateDelivers | tasks.go:93-102 | the records sent are a prefix of the records of the pages fetched, in order; they are all of them unless the context cut the run short; every page before the last was sent in full |
| EnumerationProperties.EnumerateRequests | tasks.go:68 | the i-th page request asks for ten records at the offset equal to the number of records in the earlier pages, so each offset moves on by the size of the page just sent |
| EnumerationProperties.EnumerateStopsOnEmptyPage | tasks.go:85-88 | a run returns nil exactly when the last page fetched was empty, and every earlier page was a transient failure or a non-empty page |
| EnumerationProperties.EnumerateFatal | tasks.go:83 | a run returns "error listing task page" wrapping e exactly when the last page failed with e and e is not transient |
| EnumerationProperties.EnumerateRetries | tasks.go:70-81 | no offset is requested more than four times. A run that gives up wraps the last transient error, after three fetch-and-wait rounds and a fourth fetch of the same offset. A run that stopped on a transient error without being cancelled gave up |
| EnumerationProperties.EnumerateCancellation | tasks.go:75-98 | a run returns ctx.Err() exactly when its last select saw the context done, and every earlier select saw it live; there is one select per record sent and per back-off, plus the one that saw the cancellation |
| EnumerationProperties.EnumerateOutcome | tasks.go:61-104 | a run returns nil, ctx.Err(), a listing error or a max-retries error about the last page, or it has used up the page results |
| EnumerationRuns.DeliverRest | tasks.go:93-100 | with the context live, the rest of a page is sent in order, one select per record, and the offset moves on by the page size with a fresh retry count |
| EnumerationRuns.FetchAndDeliver | tasks.go:68-102 | a non-empty page fetched while the context stays live is sent in full |
| EnumerationRuns.RetryRound | tasks.go:70-81 | a transient failure within the budget costs one back-off and one more request for the same offset |
| EnumerationRuns.RetryRounds | tasks.go:70-81 | r transient failures within the budget are r fetch-and-wait rounds for the same offset |
| EnumerationRuns.GivesUp | tasks.go:71-73 | four transient failures for one offset end the run with "max retries exceeded" wrapping the fourth error, after three back-offs |
| EnumerationRuns.Recovers | tasks.go:90 | up to three transient failures followed by a page send that page, and the retry count starts afresh at the next offset |
| EnumerationRuns.RetriesThenEmpty | tasks.go:85-88 | up to three transient failures followed by an empty page return nil |
| EnumerationRuns.EmptyPageStops | tasks.go:85-88 | an empty page ends the run with a nil error |
| EnumerationRuns.FatalErrorStops | tasks.go:83 | a non-transient error ends the run at once, wrapped as a listing error |
| EnumerationRuns.CancelledInBackOff | tasks.go:75-77 | a context seen done in the back-off returns ctx.Err() without another request |
| EnumerationRuns.Completes | tasks.go:61-104 | with the context never done, n non-empty pages and then an empty one: each page is requested once, in order, every record is sent, and the run returns nil |
| TaskStream.Channel.Send | tasks.go:98 | a send on an open channel appends the task to what was sent |
| TaskStream.Channel.Close | tasks.go:62 | closing an open channel keeps what was sent |
| TaskStream.PagesAt | tasks.go:68 | the k-th page result is ListTasks of the k-th server answer |
| TaskStream.FetchPage | tasks.go:68 | one ListTasks call gives the next page result, and the reference machine takes its fetch step |
| TaskStream.BackOff | tasks.go:75-79 | the back-off select returns done exactly when the context is seen done, and moves the reference machine the same way |
| TaskStream.SendPage | tasks.go:93-100 | the inner loop sends the page's records in order until the context is seen done, leaving the channel open, as the reference machine does |
| TaskStream.ListAllTasks | tasks.go:61-104 | the loop makes exactly the reference run's requests and back-offs, sends exactly its records, returns its error, and closes the channel exactly when it returns |
| Scenarios.ServerErrorIsTransient | tasks.go:121-123 | a 500 response makes ListTasks fail with "bad response code: 500", which is transient |
| Scenarios.Pagination | tasks.go:61-104 | pages of 10, 10, 5 and 0 records: 25 records are sent, the offsets are 0, 10, 20 and 25, and the run returns nil |
| Scenarios.RetryThenPage | tasks.go:70-90 | two transient failures and then a page of three: two back-offs, three requests for offset 0, the records sent, and then offset 3 |
| Scenarios.ForbiddenIsFatal | tasks.go:83 | a 403 is not retried: one request, nothing sent, the error wrapped once |
| Scenarios.ServiceUnavailableIsFatal | tasks.go:70 | a 503 is not retried either |
| Scenarios.UnauthorizedPage | request.go:23-25 | a 401 response makes ListTasks fail with ErrNotAuthorized |
| Scenarios.UnauthorizedIsFatal | tasks.go:83 | a 401 ends the listing after one request with "error listing task page: not authorized", and errors.Is finds ErrNotAuthorized in it |
| Scenarios.FirstPageFatal | tasks.go:83 | a non-transient error on the first page ends the run after one request |
| Scenarios.FourTransientFailuresGiveUp | tasks.go:71-73 | four transient failures: three back-offs, four requests for offset 0, and "max retries exceeded" wrapping the error, which errors.Is finds |
| Scenarios.RetryBudgetIsPerOffset | tasks.go:90 | three failures, a page, then three more failures: the budget is per offset, so the listing still ends normally |
| Scenarios.DeadlineDuringBackOff | tasks.go:75-77 | a deadline expiring in the back-off returns "context deadline exceeded" after one request, with nothing sent |
| Scenarios.CancelledDuringFetch | tasks.go:68-83 | a cancellation during the first HTTP call, whose URL holds no "500", ends the run after one request with the `*url.Error` wrapped as a listing error, in which errors.Is finds the context's error |
| Scenarios.CancelledFetchAtOffset500 | tasks.go:68-81 | a cancellation during the request for offset 500 is retried; the back-off sees the context done and the run returns the context's error unwrapped, with no further request |
| Scenarios.CancelledMidPage | tasks.go:93-100 | a cancellation while a page is being sent keeps the records already sent and drops the rest |

## Left out

- HTTP and JSON: the transport's answer to each request is an input (`Exchange`: a response with a status and a body, or a transport error). Decoding a body is a function parameter. The model does not open connections or parse JSON.
- Request construction: `http.NewRequestWithContext` can fail only on a malformed method or URL. The model starts after the request has been built, so that error path is not modelled.
- Goroutines and channel blocking: the tasks channel is the record of what was sent. Whether the context is seen done at each select is an input, which also covers Go's random choice when both cases of a select are ready. Blocking and backpressure are not modelled.
- The two-second timer: a completed back-off is a `Wait` action in the log, and no time passes.
- The end of the server's answers: the page results are a finite sequence. A run that uses them all up without returning reports `Running`, with the channel still open.
- Enumeration.Env: the retry test is a field of the environment, so the machine's lemmas hold for any classifier. ListAllTasks instantiates it with `Tasks.Transient` (`TaskStream.EnvOf`).
- Errors.Is: compares error values structurally. Go compares sentinels by identity, so two separate `fmt.Errorf("file not found")` values are equal here but not in Go.
- Integer width: offsets, codes and priorities are unbounded integers. Go's `int` is 64 bits, and its overflow on `offset += len(tasks)` is not modelled.
- Header canonicalization: `Header.Add` canonicalizes the key, and "Authorization" is already canonical, so the model uses the key as written.
- The `Task`, `Sample` and response-body types: tasks are a type parameter, and a decoded sample is an opaque value.
- TaskStream.Channel.Send, TaskStream.Channel.Close, TaskStream.ListAllTasks: they require an open channel. Go panics on a send to or a close of a closed channel, and that panic is not modelled.
- Request.UrlError: quotes the URL with plain quotes. Go's `%q` would also escape quotes and control characters in the URL.
- The context oracle: once the context is seen done it need not stay done in the oracle. The lemmas hold for every oracle, so they cover the monotone ones that a real context gives.
- The other endpoints of the client (task creation, view and deletion, reports, machines, pcap, memory, VPN, status) are not part of this model.
