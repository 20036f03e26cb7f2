/** Runs of the enumerator that are known to go through: a page delivered while the context stays
    live, a transient error retried, a listing that ends with an empty page. These are the
    converses of the guarantees in EnumerationProperties: they say when each outcome happens. */
module EnumerationRuns {
  import opened Wrappers
  import opened Errors
  import opened Tasks
  import opened Enumeration
  import opened EnumerationProperties

  /** The context is seen not done at the `n` selects from the `k`-th on. */
  predicate LiveFor<T>(env: Env<T>, k: nat, n: nat) {
    forall j :: k <= j < k + n ==> !DoneAt(env, j)
  }

  /** With the context live, the rest of a page is sent in full, one select per record, and the
      run moves on to the next offset with a fresh retry budget. */
  lemma {:induction false} DeliverRest<T>(m: Machine<T>, env: Env<T>, off: nat, page: seq<T>, k: nat)
    requires WellFormed(m, env) && m.phase == Delivering(off, page, k)
    requires LiveFor(env, m.selects, |page| - k)
    ensures Run(m, env) == Run(Machine(Fetching(off + |page|, 0), m.fetches, m.selects + (|page| - k),
                                       m.delivered + page[k..], m.log), env)
    decreases |page| - k
  {
    RunStep(m, env);
    if k == |page| {
      assert m.delivered + page[k..] == m.delivered;
    } else {
      var s := Step(m, env);
      assert s == m.(selects := m.selects + 1, delivered := m.delivered + [page[k]], phase := Delivering(off, page, k + 1));
      DeliverRest(s, env, off, page, k + 1);
      assert m.delivered + [page[k]] + page[k + 1..] == m.delivered + page[k..];
    }
  }

  /** A non-empty page, fetched while the context stays live, is sent in full. */
  lemma FetchAndDeliver<T>(m: Machine<T>, env: Env<T>, off: nat, a: nat, tasks: seq<T>)
    requires WellFormed(m, env) && m.phase == Fetching(off, a) && m.fetches < |env.pages|
    requires env.pages[m.fetches] == Success(tasks) && |tasks| > 0
    requires LiveFor(env, m.selects, |tasks|)
    ensures Run(m, env) == Run(Machine(Fetching(off + |tasks|, 0), m.fetches + 1, m.selects + |tasks|,
                                       m.delivered + tasks, m.log + [Fetch(ResultsPerPage, off)]), env)
  {
    RunStep(m, env);
    var s := Step(m, env);
    DeliverRest(s, env, off, tasks, 0);
    assert tasks[0..] == tasks;
  }

  /** The `r` page results from the `k`-th on are all transient failures. */
  predicate TransientFailures<T>(env: Env<T>, k: nat, r: nat)
    requires k + r <= |env.pages|
  {
    forall j :: k <= j < k + r ==> env.pages[j].Failure? && env.transient(env.pages[j].error)
  }

  /** One transient failure within the retry budget: a back-off, then the same offset again. */
  lemma RetryRound<T>(m: Machine<T>, env: Env<T>, off: nat, a: nat)
    requires WellFormed(m, env) && m.phase == Fetching(off, a) && a < MaxRetries
    requires m.fetches < |env.pages| && env.pages[m.fetches].Failure? && env.transient(env.pages[m.fetches].error)
    requires !DoneAt(env, m.selects)
    ensures Run(m, env) == Run(Machine(Fetching(off, a + 1), m.fetches + 1, m.selects + 1, m.delivered,
                                       m.log + [Fetch(ResultsPerPage, off), Wait]), env)
  {
    RunStep(m, env);
    var q := Step(m, env);
    assert q == m.(fetches := m.fetches + 1, log := m.log + [Fetch(ResultsPerPage, off)], phase := Waiting(off, a));
    RunStep(q, env);
    assert m.log + [Fetch(ResultsPerPage, off), Wait] == q.log + [Wait];
  }

  /** Transient failures within the retry budget are each followed by a back-off and a new
      request for the same offset. */
  lemma {:induction false} RetryRounds<T>(m: Machine<T>, env: Env<T>, off: nat, a: nat, r: nat)
    requires WellFormed(m, env) && m.phase == Fetching(off, a) && a + r <= MaxRetries
    requires m.fetches + r <= |env.pages| && TransientFailures(env, m.fetches, r)
    requires LiveFor(env, m.selects, r)
    ensures Run(m, env) == Run(Machine(Fetching(off, a + r), m.fetches + r, m.selects + r, m.delivered,
                                       m.log + RetryRun(off, r)), env)
    decreases r
  {
    if r == 0 {
      assert m.log + RetryRun(off, 0) == m.log;
    } else {
      LastRound(env, m.fetches, m.selects, r);
      RetryRounds(m, env, off, a, r - 1);
      OneMoreRound(m, env, off, a, r);
    }
  }

  /** The inductive step of RetryRounds: `r - 1` rounds and then one more make `r`. */
  lemma OneMoreRound<T>(m: Machine<T>, env: Env<T>, off: nat, a: nat, r: nat)
    requires WellFormed(m, env) && m.phase == Fetching(off, a) && 0 < r && a + r <= MaxRetries
    requires m.fetches + r <= |env.pages|
    requires env.pages[m.fetches + r - 1].Failure? && env.transient(env.pages[m.fetches + r - 1].error)
    requires !DoneAt(env, m.selects + r - 1)
    requires Run(m, env) == Run(Machine(Fetching(off, a + r - 1), m.fetches + r - 1, m.selects + r - 1, m.delivered,
                                        m.log + RetryRun(off, r - 1)), env)
    ensures Run(m, env) == Run(Machine(Fetching(off, a + r), m.fetches + r, m.selects + r, m.delivered,
                                       m.log + RetryRun(off, r)), env)
  {
    var p := Machine(Fetching(off, a + r - 1), m.fetches + r - 1, m.selects + r - 1, m.delivered,
                     m.log + RetryRun(off, r - 1));
    RetryRound(p, env, off, a + r - 1);
    RetryRunGrows(m.log, off, r - 1);
  }

  /** Splits the last of `r` rounds off the transient failures and the live selects. */
  lemma LastRound<T>(env: Env<T>, k: nat, s: nat, r: nat)
    requires 0 < r && k + r <= |env.pages| && TransientFailures(env, k, r) && LiveFor(env, s, r)
    ensures TransientFailures(env, k, r - 1) && LiveFor(env, s, r - 1)
    ensures env.pages[k + r - 1].Failure? && env.transient(env.pages[k + r - 1].error)
    ensures !DoneAt(env, s + r - 1)
  {
  }

  lemma RetryRunGrows(log: seq<Action>, off: nat, r: nat)
    ensures log + RetryRun(off, r + 1) == (log + RetryRun(off, r)) + [Fetch(ResultsPerPage, off), Wait]
  {
  }

  /** Four transient failures in a row for one offset, with the context live, end the run with
      "max retries exceeded" wrapping the fourth error. */
  lemma GivesUp<T>(m: Machine<T>, env: Env<T>, off: nat)
    requires WellFormed(m, env) && m.phase == Fetching(off, 0)
    requires m.fetches + MaxRetries + 1 <= |env.pages| && TransientFailures(env, m.fetches, MaxRetries + 1)
    requires LiveFor(env, m.selects, MaxRetries)
    ensures Run(m, env) == Machine(Stopped(Some(MaxRetriesExceeded(env.pages[m.fetches + MaxRetries].error))),
                                   m.fetches + MaxRetries + 1, m.selects + MaxRetries, m.delivered,
                                   m.log + RetryRun(off, MaxRetries) + [Fetch(ResultsPerPage, off)])
  {
    RetryRounds(m, env, off, 0, MaxRetries);
    var p := Machine(Fetching(off, MaxRetries), m.fetches + MaxRetries, m.selects + MaxRetries, m.delivered,
                     m.log + RetryRun(off, MaxRetries));
    RunStep(p, env);
    RunHalted(Step(p, env), env);
  }

  /** Up to three transient failures followed by a non-empty page: the page is sent in full and
      the retry budget starts afresh at the next offset. */
  lemma Recovers<T>(m: Machine<T>, env: Env<T>, off: nat, r: nat, tasks: seq<T>)
    requires WellFormed(m, env) && m.phase == Fetching(off, 0) && r <= MaxRetries
    requires m.fetches + r < |env.pages| && TransientFailures(env, m.fetches, r)
    requires env.pages[m.fetches + r] == Success(tasks) && |tasks| > 0
    requires LiveFor(env, m.selects, r + |tasks|)
    ensures Run(m, env) == Run(Machine(Fetching(off + |tasks|, 0), m.fetches + r + 1, m.selects + r + |tasks|,
                                       m.delivered + tasks,
                                       m.log + RetryRun(off, r) + [Fetch(ResultsPerPage, off)]), env)
  {
    RetryRounds(m, env, off, 0, r);
    var p := Machine(Fetching(off, r), m.fetches + r, m.selects + r, m.delivered, m.log + RetryRun(off, r));
    FetchAndDeliver(p, env, off, r, tasks);
  }

  /** Up to three transient failures followed by an empty page: the run returns nil after the
      back-offs, having asked for the same offset each time. */
  lemma RetriesThenEmpty<T>(m: Machine<T>, env: Env<T>, off: nat, r: nat)
    requires WellFormed(m, env) && m.phase == Fetching(off, 0) && r <= MaxRetries
    requires m.fetches + r < |env.pages| && TransientFailures(env, m.fetches, r)
    requires env.pages[m.fetches + r] == Success([])
    requires LiveFor(env, m.selects, r)
    ensures Run(m, env) == m.(fetches := m.fetches + r + 1, selects := m.selects + r,
                              log := m.log + RetryRun(off, r) + [Fetch(ResultsPerPage, off)], phase := Stopped(None))
  {
    RetryRounds(m, env, off, 0, r);
    var p := Machine(Fetching(off, r), m.fetches + r, m.selects + r, m.delivered, m.log + RetryRun(off, r));
    EmptyPageStops(p, env, off, r);
  }

  /** An empty page ends the run with a nil error. */
  lemma EmptyPageStops<T>(m: Machine<T>, env: Env<T>, off: nat, a: nat)
    requires WellFormed(m, env) && m.phase == Fetching(off, a) && m.fetches < |env.pages|
    requires env.pages[m.fetches] == Success([])
    ensures Run(m, env) == m.(fetches := m.fetches + 1, log := m.log + [Fetch(ResultsPerPage, off)], phase := Stopped(None))
  {
    RunStep(m, env);
    RunHalted(Step(m, env), env);
  }

  /** An error that is not transient ends the run at once, wrapped as a listing error. */
  lemma FatalErrorStops<T>(m: Machine<T>, env: Env<T>, off: nat, a: nat, e: Error)
    requires WellFormed(m, env) && m.phase == Fetching(off, a) && m.fetches < |env.pages|
    requires env.pages[m.fetches] == Failure(e) && !env.transient(e)
    ensures Run(m, env) == m.(fetches := m.fetches + 1, log := m.log + [Fetch(ResultsPerPage, off)],
                              phase := Stopped(Some(ListingFailed(e))))
  {
    RunStep(m, env);
    RunHalted(Step(m, env), env);
  }

  /** A context seen done during the back-off ends the run with the context's error, before any
      further request. */
  lemma CancelledInBackOff<T>(m: Machine<T>, env: Env<T>, off: nat, a: nat, e: Error)
    requires WellFormed(m, env) && m.phase == Fetching(off, a) && a < MaxRetries && m.fetches < |env.pages|
    requires env.pages[m.fetches] == Failure(e) && env.transient(e) && DoneAt(env, m.selects)
    ensures Run(m, env) == m.(fetches := m.fetches + 1, selects := m.selects + 1, log := m.log + [Fetch(ResultsPerPage, off)],
                              phase := Stopped(Some(Context(env.ctxErr))))
  {
    RunStep(m, env);
    var q := Step(m, env);
    RunStep(q, env);
    RunHalted(Step(q, env), env);
  }

  /** The machine about to fetch the `i`-th page, every earlier page having been sent in full. */
  function Before<T>(env: Env<T>, i: nat): Machine<T>
    requires i <= |env.pages|
  {
    var sent := AllRecords(env.pages[..i]);
    Machine(Fetching(|sent|, 0), i, |sent|, sent, Requests(env.pages, i))
  }

  /** An empty page at `n` ends the run with a nil error. */
  lemma StopsOnEmpty<T>(env: Env<T>, n: nat)
    requires n < |env.pages| && env.pages[n] == Success([])
    ensures Run(Before(env, n), env) ==
            Machine(Stopped(None), n + 1, |AllRecords(env.pages[..n])|, AllRecords(env.pages[..n]),
                    Requests(env.pages, n + 1))
  {
    var m := Before(env, n);
    EmptyPageStops(m, env, m.phase.offset, 0);
  }

  /** A non-empty page at `i`, with the context live, leads to the machine about to fetch `i + 1`. */
  lemma BeforeNext<T>(env: Env<T>, i: nat)
    requires i < |env.pages| && env.pages[i].Success? && |env.pages[i].value| > 0
    requires forall k :: !DoneAt(env, k)
    ensures Run(Before(env, i), env) == Run(Before(env, i + 1), env)
  {
    var m := Before(env, i);
    var tasks := env.pages[i].value;
    FetchAndDeliver(m, env, m.phase.offset, 0, tasks);
    AllRecordsNext(env.pages, i);
  }

  lemma {:induction false} CompletesFrom<T>(env: Env<T>, n: nat, i: nat)
    requires i <= n < |env.pages|
    requires forall j :: 0 <= j < n ==> env.pages[j].Success? && |env.pages[j].value| > 0
    requires env.pages[n] == Success([])
    requires forall k :: !DoneAt(env, k)
    ensures Run(Before(env, i), env) ==
            Machine(Stopped(None), n + 1, |AllRecords(env.pages[..n])|, AllRecords(env.pages[..n]),
                    Requests(env.pages, n + 1))
    decreases n - i
  {
    if i == n {
      StopsOnEmpty(env, n);
    } else {
      BeforeNext(env, i);
      CompletesFrom(env, n, i + 1);
    }
  }

  /** With the context never done, a listing whose first `n` pages are non-empty and whose next
      page is empty returns nil after requesting each page once, in order, and sending every
      record of those pages. */
  lemma Completes<T>(env: Env<T>, n: nat)
    requires n < |env.pages|
    requires forall j :: 0 <= j < n ==> env.pages[j].Success? && |env.pages[j].value| > 0
    requires env.pages[n] == Success([])
    requires forall k :: !DoneAt(env, k)
    ensures Enumerate(env) ==
            Machine(Stopped(None), n + 1, |AllRecords(env.pages[..n])|, AllRecords(env.pages[..n]),
                    Requests(env.pages, n + 1))
  {
    assert env.pages[..0] == [];
    assert Before(env, 0) == Start();
    CompletesFrom(env, n, 0);
  }
}
