/** What every run of the enumeration state machine guarantees, proved through an invariant that
    each step preserves. */
module EnumerationProperties {
  import opened Wrappers
  import opened Errors
  import opened Tasks
  import opened Enumeration

  /** The requests a run makes for its first `n` fetches: limit 10 at the offset equal to the number
      of records in the successful pages before it. */
  function Requests<T>(pages: seq<PageResult<T>>, n: nat): seq<Action>
    requires n <= |pages|
  {
    if n == 0 then [] else Requests(pages, n - 1) + [Fetch(ResultsPerPage, |AllRecords(pages[..n - 1])|)]
  }

  /** The log ends with `n` pairs of a fetch of `off` followed by a back-off. */
  predicate EndsWithRetries(log: seq<Action>, off: nat, n: nat)
    decreases n
  {
    n == 0 ||
    (&& |log| >= 2 && log[|log| - 2] == Fetch(ResultsPerPage, off) && log[|log| - 1] == Wait
     && EndsWithRetries(log[..|log| - 2], off, n - 1))
  }

  lemma {:induction false} EndsWithRetryRun(log: seq<Action>, off: nat, n: nat)
    requires EndsWithRetries(log, off, n)
    ensures EndsWith(log, RetryRun(off, n))
    decreases n
  {
    if n > 0 {
      var init := log[..|log| - 2];
      EndsWithRetryRun(init, off, n - 1);
      var k := |RetryRun(off, n - 1)|;
      assert log == init + [Fetch(ResultsPerPage, off), Wait];
      assert log[|log| - (k + 2)..] == init[|init| - k..] + [Fetch(ResultsPerPage, off), Wait];
    }
  }

  /** The bookkeeping every state keeps: requests made so far, at most four fetches per offset,
      and every page result before the last one let the enumerator go on. */
  ghost predicate Common<T>(m: Machine<T>, env: Env<T>) {
    && WellFormed(m, env)
    && Fetches(m.log) == Requests(env.pages, m.fetches)
    && (forall o: nat :: FetchCount(m.log, o) <= MaxRetries + 1)
    && (forall i {:trigger Continues(env.pages[i], env.transient)} :: 0 <= i < m.fetches - 1 ==> Continues(env.pages[i], env.transient))
  }

  /** Every select but the last saw the context not done; the last saw it done exactly when the
      run was cancelled; each sent record and each back-off took one select. */
  ghost predicate SelectInv<T>(m: Machine<T>, env: Env<T>) {
    && (forall k :: 0 <= k < m.selects - 1 ==> !DoneAt(env, k))
    && (m.selects > 0 ==> (DoneAt(env, m.selects - 1) <==> Cancelled(m, env)))
    && m.selects == |m.delivered| + WaitCount(m.log) + (if Cancelled(m, env) then 1 else 0)
  }

  ghost predicate FetchingInv<T>(m: Machine<T>, env: Env<T>, off: nat, a: nat)
    requires m.fetches <= |env.pages|
  {
    && m.delivered == AllRecords(env.pages[..m.fetches])
    && off == |m.delivered|
    && a <= MaxRetries
    && FetchCount(m.log, off) == a
    && (forall o: nat :: o > off ==> FetchCount(m.log, o) == 0)
    && EndsWithRetries(m.log, off, a)
    && (m.fetches > 0 ==> Continues(env.pages[m.fetches - 1], env.transient))
  }

  ghost predicate WaitingInv<T>(m: Machine<T>, env: Env<T>, off: nat, a: nat)
    requires m.fetches <= |env.pages|
  {
    && m.fetches > 0 && env.pages[m.fetches - 1].Failure? && env.transient(env.pages[m.fetches - 1].error)
    && m.delivered == AllRecords(env.pages[..m.fetches])
    && off == |m.delivered|
    && a < MaxRetries
    && FetchCount(m.log, off) == a + 1
    && (forall o: nat :: o > off ==> FetchCount(m.log, o) == 0)
    && |m.log| > 0 && m.log[|m.log| - 1] == Fetch(ResultsPerPage, off)
    && EndsWithRetries(m.log[..|m.log| - 1], off, a)
  }

  ghost predicate DeliveringInv<T>(m: Machine<T>, env: Env<T>, off: nat, page: seq<T>, k: nat)
    requires m.fetches <= |env.pages|
  {
    && m.fetches > 0 && env.pages[m.fetches - 1] == Success(page) && 0 < |page| && k <= |page|
    && off == |AllRecords(env.pages[..m.fetches - 1])|
    && m.delivered == AllRecords(env.pages[..m.fetches - 1]) + page[..k]
    && (forall o: nat :: o > off ==> FetchCount(m.log, o) == 0)
  }

  /** How a run can have returned: an empty page (nil), a fatal error, exhausted retries, or the
      context. */
  ghost predicate StoppedInv<T>(m: Machine<T>, env: Env<T>, err: Option<Error>)
    requires m.fetches <= |env.pages|
  {
    && m.fetches > 0
    && var last := env.pages[m.fetches - 1];
       if err == None then
         && last.Success? && |last.value| == 0
         && m.delivered == AllRecords(env.pages[..m.fetches])
       else if err == Some(Context(env.ctxErr)) then
         && Continues(last, env.transient)
         && AllRecords(env.pages[..m.fetches - 1]) <= m.delivered <= AllRecords(env.pages[..m.fetches])
       else
         && last.Failure?
         && m.delivered == AllRecords(env.pages[..m.fetches])
         && var off := |m.delivered|;
            || (err == Some(ListingFailed(last.error)) && !env.transient(last.error))
            || (&& err == Some(MaxRetriesExceeded(last.error)) && env.transient(last.error)
                && |m.log| > 0 && m.log[|m.log| - 1] == Fetch(ResultsPerPage, off)
                && EndsWithRetries(m.log[..|m.log| - 1], off, MaxRetries)
                && FetchCount(m.log, off) == MaxRetries + 1)
  }

  ghost predicate PhaseInv<T>(m: Machine<T>, env: Env<T>)
    requires m.fetches <= |env.pages|
  {
    match m.phase
    case Fetching(off, a) => FetchingInv(m, env, off, a)
    case Waiting(off, a) => WaitingInv(m, env, off, a)
    case Delivering(off, page, k) => DeliveringInv(m, env, off, page, k)
    case Stopped(err) => StoppedInv(m, env, err)
  }

  /** The invariant of a run. */
  ghost predicate Inv<T>(m: Machine<T>, env: Env<T>) {
    Common(m, env) && SelectInv(m, env) && PhaseInv(m, env)
  }

  // ---------------------------------------------------------------------------------------------
  // Helpers

  lemma AllRecordsNext<T>(pages: seq<PageResult<T>>, n: nat)
    requires n < |pages|
    ensures AllRecords(pages[..n + 1]) == AllRecords(pages[..n]) + Records(pages[n])
  {
    assert pages[..n + 1][..n] == pages[..n];
  }

  lemma LogAppend(log: seq<Action>, x: Action)
    ensures Fetches(log + [x]) == Fetches(log) + (if x.Fetch? then [x] else [])
    ensures WaitCount(log + [x]) == WaitCount(log) + (if x.Wait? then 1 else 0)
    ensures forall o: nat :: FetchCount(log + [x], o) == FetchCount(log, o) + (if x == Fetch(ResultsPerPage, o) then 1 else 0)
  {
    assert (log + [x])[..|log|] == log;
  }

  // ---------------------------------------------------------------------------------------------
  // Preservation

  lemma StartInv<T>(env: Env<T>)
    ensures Inv(Start(), env)
  {
    assert env.pages[..0] == [];
  }

  /** A fetch keeps the bookkeeping, whatever phase it leads to. */
  lemma CommonAfterFetch<T>(m: Machine<T>, env: Env<T>, off: nat, a: nat, p: Phase<T>)
    requires Common(m, env) && m.phase == Fetching(off, a) && FetchingInv(m, env, off, a)
    requires m.fetches < |env.pages|
    requires p.Delivering? ==> p.next <= |p.page|
    ensures Common(m.(fetches := m.fetches + 1, log := m.log + [Fetch(ResultsPerPage, off)], phase := p), env)
  {
    var x := Fetch(ResultsPerPage, off);
    LogAppend(m.log, x);
    var r := m.(fetches := m.fetches + 1, log := m.log + [x], phase := p);
    assert Requests(env.pages, r.fetches) == Requests(env.pages, m.fetches) + [x];
    forall o: nat ensures FetchCount(r.log, o) <= MaxRetries + 1 {
      if o == off {
        assert FetchCount(r.log, o) == a + 1;
      } else {
        assert FetchCount(r.log, o) == FetchCount(m.log, o);
      }
    }
  }

  /** A fetch takes no select, sends nothing and does not wait. */
  lemma SelectsAfterFetch<T>(m: Machine<T>, env: Env<T>, off: nat, a: nat, p: Phase<T>)
    requires SelectInv(m, env) && m.phase == Fetching(off, a)
    requires p != Stopped(Some(Context(env.ctxErr)))
    ensures SelectInv(m.(fetches := m.fetches + 1, log := m.log + [Fetch(ResultsPerPage, off)], phase := p), env)
  {
    LogAppend(m.log, Fetch(ResultsPerPage, off));
  }

  // One lemma per transition; the successor state is written out.

  lemma FetchFatalInv<T>(m: Machine<T>, env: Env<T>, off: nat, a: nat, e: Error)
    requires Common(m, env) && SelectInv(m, env) && m.phase == Fetching(off, a) && FetchingInv(m, env, off, a)
    requires m.fetches < |env.pages| && env.pages[m.fetches] == Failure(e) && !env.transient(e)
    ensures Inv(m.(fetches := m.fetches + 1, log := m.log + [Fetch(ResultsPerPage, off)],
                   phase := Stopped(Some(ListingFailed(e)))), env)
  {
    var p := Stopped(Some(ListingFailed(e)));
    var r := m.(fetches := m.fetches + 1, log := m.log + [Fetch(ResultsPerPage, off)], phase := p);
    CommonAfterFetch(m, env, off, a, p);
    SelectsAfterFetch(m, env, off, a, p);
    FetchFatalStopped(m, env, off, a, e);
  }

  lemma FetchFatalStopped<T>(m: Machine<T>, env: Env<T>, off: nat, a: nat, e: Error)
    requires m.fetches < |env.pages| && FetchingInv(m, env, off, a)
    requires env.pages[m.fetches] == Failure(e) && !env.transient(e)
    ensures StoppedInv(m.(fetches := m.fetches + 1, log := m.log + [Fetch(ResultsPerPage, off)],
                          phase := Stopped(Some(ListingFailed(e)))), env, Some(ListingFailed(e)))
  {
    AllRecordsNext(env.pages, m.fetches);
  }

  lemma FetchExhaustedInv<T>(m: Machine<T>, env: Env<T>, off: nat, a: nat, e: Error)
    requires Common(m, env) && SelectInv(m, env) && m.phase == Fetching(off, a) && FetchingInv(m, env, off, a)
    requires m.fetches < |env.pages| && env.pages[m.fetches] == Failure(e) && env.transient(e) && a >= MaxRetries
    ensures Inv(m.(fetches := m.fetches + 1, log := m.log + [Fetch(ResultsPerPage, off)],
                   phase := Stopped(Some(MaxRetriesExceeded(e)))), env)
  {
    var x := Fetch(ResultsPerPage, off);
    var p := Stopped(Some(MaxRetriesExceeded(e)));
    var r := m.(fetches := m.fetches + 1, log := m.log + [x], phase := p);
    CommonAfterFetch(m, env, off, a, p);
    SelectsAfterFetch(m, env, off, a, p);
    AllRecordsNext(env.pages, m.fetches);
    LogAppend(m.log, x);
    assert r.log[..|r.log| - 1] == m.log;
    assert StoppedInv(r, env, Some(MaxRetriesExceeded(e)));
  }

  lemma FetchRetryInv<T>(m: Machine<T>, env: Env<T>, off: nat, a: nat, e: Error)
    requires Common(m, env) && SelectInv(m, env) && m.phase == Fetching(off, a) && FetchingInv(m, env, off, a)
    requires m.fetches < |env.pages| && env.pages[m.fetches] == Failure(e) && env.transient(e) && a < MaxRetries
    ensures Inv(m.(fetches := m.fetches + 1, log := m.log + [Fetch(ResultsPerPage, off)],
                   phase := Waiting(off, a)), env)
  {
    var x := Fetch(ResultsPerPage, off);
    var p := Waiting(off, a);
    var r := m.(fetches := m.fetches + 1, log := m.log + [x], phase := p);
    CommonAfterFetch(m, env, off, a, p);
    SelectsAfterFetch(m, env, off, a, p);
    AllRecordsNext(env.pages, m.fetches);
    LogAppend(m.log, x);
    assert r.log[..|r.log| - 1] == m.log;
    assert WaitingInv(r, env, off, a);
  }

  lemma FetchEmptyInv<T>(m: Machine<T>, env: Env<T>, off: nat, a: nat)
    requires Common(m, env) && SelectInv(m, env) && m.phase == Fetching(off, a) && FetchingInv(m, env, off, a)
    requires m.fetches < |env.pages| && env.pages[m.fetches].Success? && |env.pages[m.fetches].value| == 0
    ensures Inv(m.(fetches := m.fetches + 1, log := m.log + [Fetch(ResultsPerPage, off)],
                   phase := Stopped(None)), env)
  {
    var p := Stopped(None);
    var r := m.(fetches := m.fetches + 1, log := m.log + [Fetch(ResultsPerPage, off)], phase := p);
    CommonAfterFetch(m, env, off, a, p);
    SelectsAfterFetch(m, env, off, a, p);
    AllRecordsNext(env.pages, m.fetches);
    assert env.pages[m.fetches].value == [];
    assert StoppedInv(r, env, None);
  }

  lemma FetchPageInv<T>(m: Machine<T>, env: Env<T>, off: nat, a: nat, tasks: seq<T>)
    requires Common(m, env) && SelectInv(m, env) && m.phase == Fetching(off, a) && FetchingInv(m, env, off, a)
    requires m.fetches < |env.pages| && env.pages[m.fetches] == Success(tasks) && |tasks| > 0
    ensures Inv(m.(fetches := m.fetches + 1, log := m.log + [Fetch(ResultsPerPage, off)],
                   phase := Delivering(off, tasks, 0)), env)
  {
    var x := Fetch(ResultsPerPage, off);
    var p := Delivering(off, tasks, 0);
    var r := m.(fetches := m.fetches + 1, log := m.log + [x], phase := p);
    CommonAfterFetch(m, env, off, a, p);
    SelectsAfterFetch(m, env, off, a, p);
    LogAppend(m.log, x);
    assert env.pages[..m.fetches + 1][..m.fetches] == env.pages[..m.fetches];
    assert tasks[..0] == [];
    assert DeliveringInv(r, env, off, tasks, 0);
  }

  lemma WaitCancelledInv<T>(m: Machine<T>, env: Env<T>, off: nat, a: nat)
    requires Common(m, env) && SelectInv(m, env) && m.phase == Waiting(off, a) && WaitingInv(m, env, off, a)
    requires DoneAt(env, m.selects)
    ensures Inv(m.(selects := m.selects + 1, phase := Stopped(Some(Context(env.ctxErr)))), env)
  {
    var r := m.(selects := m.selects + 1, phase := Stopped(Some(Context(env.ctxErr))));
    assert Common(r, env);
    assert SelectInv(r, env);
    WaitCancelledStopped(m, env, off, a);
  }

  lemma WaitCancelledStopped<T>(m: Machine<T>, env: Env<T>, off: nat, a: nat)
    requires m.fetches <= |env.pages| && WaitingInv(m, env, off, a)
    ensures StoppedInv(m.(selects := m.selects + 1, phase := Stopped(Some(Context(env.ctxErr)))), env, Some(Context(env.ctxErr)))
  {
    var f := m.fetches;
    AllRecordsNext(env.pages, f - 1);
    assert env.pages[..f - 1 + 1] == env.pages[..f];
  }

  lemma WaitElapsedInv<T>(m: Machine<T>, env: Env<T>, off: nat, a: nat)
    requires Common(m, env) && SelectInv(m, env) && m.phase == Waiting(off, a) && WaitingInv(m, env, off, a)
    requires !DoneAt(env, m.selects)
    ensures Inv(m.(selects := m.selects + 1, log := m.log + [Wait], phase := Fetching(off, a + 1)), env)
  {
    var r := m.(selects := m.selects + 1, log := m.log + [Wait], phase := Fetching(off, a + 1));
    WaitElapsedCommon(m, env, off, a);
    WaitElapsedFetching(m, env, off, a);
  }

  lemma WaitElapsedCommon<T>(m: Machine<T>, env: Env<T>, off: nat, a: nat)
    requires Common(m, env) && SelectInv(m, env) && m.phase == Waiting(off, a) && WaitingInv(m, env, off, a)
    requires !DoneAt(env, m.selects)
    ensures Common(m.(selects := m.selects + 1, log := m.log + [Wait], phase := Fetching(off, a + 1)), env)
    ensures SelectInv(m.(selects := m.selects + 1, log := m.log + [Wait], phase := Fetching(off, a + 1)), env)
  {
    LogAppend(m.log, Wait);
  }

  lemma WaitElapsedFetching<T>(m: Machine<T>, env: Env<T>, off: nat, a: nat)
    requires m.fetches <= |env.pages| && WaitingInv(m, env, off, a)
    ensures FetchingInv(m.(selects := m.selects + 1, log := m.log + [Wait], phase := Fetching(off, a + 1)), env, off, a + 1)
  {
    var r := m.(selects := m.selects + 1, log := m.log + [Wait], phase := Fetching(off, a + 1));
    LogAppend(m.log, Wait);
    assert r.log[..|r.log| - 2] == m.log[..|m.log| - 1];
  }

  lemma PageDoneInv<T>(m: Machine<T>, env: Env<T>, off: nat, page: seq<T>)
    requires Common(m, env) && SelectInv(m, env)
    requires m.phase == Delivering(off, page, |page|) && DeliveringInv(m, env, off, page, |page|)
    ensures Inv(m.(phase := Fetching(off + |page|, 0)), env)
  {
    var r := m.(phase := Fetching(off + |page|, 0));
    assert Common(r, env);
    assert SelectInv(r, env);
    PageDoneFetching(m, env, off, page);
  }

  lemma PageDoneFetching<T>(m: Machine<T>, env: Env<T>, off: nat, page: seq<T>)
    requires m.fetches <= |env.pages| && DeliveringInv(m, env, off, page, |page|)
    ensures FetchingInv(m.(phase := Fetching(off + |page|, 0)), env, off + |page|, 0)
  {
    var f := m.fetches;
    AllRecordsNext(env.pages, f - 1);
    assert env.pages[..f - 1 + 1] == env.pages[..f];
    assert page[..|page|] == page;
    assert FetchCount(m.log, off + |page|) == 0;
  }

  lemma SendCancelledInv<T>(m: Machine<T>, env: Env<T>, off: nat, page: seq<T>, k: nat)
    requires Common(m, env) && SelectInv(m, env)
    requires m.phase == Delivering(off, page, k) && DeliveringInv(m, env, off, page, k) && k < |page|
    requires DoneAt(env, m.selects)
    ensures Inv(m.(selects := m.selects + 1, phase := Stopped(Some(Context(env.ctxErr)))), env)
  {
    var r := m.(selects := m.selects + 1, phase := Stopped(Some(Context(env.ctxErr))));
    assert Common(r, env);
    assert SelectInv(r, env);
    SendCancelledStopped(m, env, off, page, k);
  }

  lemma SendCancelledStopped<T>(m: Machine<T>, env: Env<T>, off: nat, page: seq<T>, k: nat)
    requires m.fetches <= |env.pages| && DeliveringInv(m, env, off, page, k)
    ensures StoppedInv(m.(selects := m.selects + 1, phase := Stopped(Some(Context(env.ctxErr)))), env, Some(Context(env.ctxErr)))
  {
    var f := m.fetches;
    var before := AllRecords(env.pages[..f - 1]);
    AllRecordsNext(env.pages, f - 1);
    assert env.pages[..f - 1 + 1] == env.pages[..f];
    assert before + page[..k] <= before + page;
  }

  lemma SendInv<T>(m: Machine<T>, env: Env<T>, off: nat, page: seq<T>, k: nat)
    requires Common(m, env) && SelectInv(m, env)
    requires m.phase == Delivering(off, page, k) && DeliveringInv(m, env, off, page, k) && k < |page|
    requires !DoneAt(env, m.selects)
    ensures Inv(m.(selects := m.selects + 1, delivered := m.delivered + [page[k]], phase := Delivering(off, page, k + 1)), env)
  {
    var r := m.(selects := m.selects + 1, delivered := m.delivered + [page[k]], phase := Delivering(off, page, k + 1));
    assert Common(r, env);
    assert SelectInv(r, env);
    assert page[..k + 1] == page[..k] + [page[k]];
    assert DeliveringInv(r, env, off, page, k + 1);
  }

  lemma FetchPreservesInv<T>(m: Machine<T>, env: Env<T>, off: nat, a: nat)
    requires Common(m, env) && SelectInv(m, env) && m.phase == Fetching(off, a) && FetchingInv(m, env, off, a)
    requires m.fetches < |env.pages|
    ensures Inv(Step(m, env), env)
  {
    match env.pages[m.fetches]
    case Failure(e) =>
      if !env.transient(e) {
        FetchFatalInv(m, env, off, a, e);
      } else if a >= MaxRetries {
        FetchExhaustedInv(m, env, off, a, e);
      } else {
        FetchRetryInv(m, env, off, a, e);
      }
    case Success(tasks) =>
      if |tasks| == 0 {
        FetchEmptyInv(m, env, off, a);
      } else {
        FetchPageInv(m, env, off, a, tasks);
      }
  }

  lemma WaitPreservesInv<T>(m: Machine<T>, env: Env<T>, off: nat, a: nat)
    requires Common(m, env) && SelectInv(m, env) && m.phase == Waiting(off, a) && WaitingInv(m, env, off, a)
    ensures Inv(Step(m, env), env)
  {
    if DoneAt(env, m.selects) {
      WaitCancelledInv(m, env, off, a);
    } else {
      WaitElapsedInv(m, env, off, a);
    }
  }

  lemma DeliverPreservesInv<T>(m: Machine<T>, env: Env<T>, off: nat, page: seq<T>, k: nat)
    requires Common(m, env) && SelectInv(m, env)
    requires m.phase == Delivering(off, page, k) && DeliveringInv(m, env, off, page, k)
    ensures Inv(Step(m, env), env)
  {
    if k == |page| {
      assert Step(m, env) == m.(phase := Fetching(off + |page|, 0));
      PageDoneInv(m, env, off, page);
    } else if DoneAt(env, m.selects) {
      assert Step(m, env) == m.(selects := m.selects + 1, phase := Stopped(Some(Context(env.ctxErr))));
      SendCancelledInv(m, env, off, page, k);
    } else {
      assert Step(m, env) == m.(selects := m.selects + 1, delivered := m.delivered + [page[k]], phase := Delivering(off, page, k + 1));
      SendInv(m, env, off, page, k);
    }
  }

  lemma StepPreservesInv<T>(m: Machine<T>, env: Env<T>)
    requires Inv(m, env) && !Halted(m, env)
    ensures Inv(Step(m, env), env)
  {
    match m.phase
    case Fetching(off, a) => FetchPreservesInv(m, env, off, a);
    case Waiting(off, a) => WaitPreservesInv(m, env, off, a);
    case Delivering(off, page, k) => DeliverPreservesInv(m, env, off, page, k);
  }

  lemma {:induction false} RunPreservesInv<T>(m: Machine<T>, env: Env<T>)
    requires Inv(m, env)
    ensures Inv(Run(m, env), env)
    decreases |env.pages| - m.fetches, Rank(m.phase)
  {
    if !Halted(m, env) {
      var s := Step(m, env);
      StepDecreases(m, env);
      StepPreservesInv(m, env);
      RunPreservesInv(s, env);
    }
  }

  lemma EnumerateInv<T>(env: Env<T>)
    ensures Inv(Enumerate(env), env) && Halted(Enumerate(env), env)
  {
    StartInv(env);
    RunPreservesInv(Start(), env);
  }

  // ---------------------------------------------------------------------------------------------
  // What a run guarantees

  lemma {:induction false} RequestsAt<T>(pages: seq<PageResult<T>>, n: nat)
    requires n <= |pages|
    ensures |Requests(pages, n)| == n
    ensures forall i :: 0 <= i < n ==> Requests(pages, n)[i] == Fetch(ResultsPerPage, |AllRecords(pages[..i])|)
  {
    if n > 0 {
      RequestsAt(pages, n - 1);
    }
  }

  lemma EndsWithRetriesThenFetch(log: seq<Action>, off: nat, n: nat)
    requires |log| > 0 && log[|log| - 1] == Fetch(ResultsPerPage, off)
    requires EndsWithRetries(log[..|log| - 1], off, n)
    ensures EndsWith(log, RetryRun(off, n) + [Fetch(ResultsPerPage, off)])
  {
    var init := log[..|log| - 1];
    EndsWithRetryRun(init, off, n);
    var k := |RetryRun(off, n)|;
    assert log == init + [Fetch(ResultsPerPage, off)];
    assert log[|log| - (k + 1)..] == init[|init| - k..] + [Fetch(ResultsPerPage, off)];
  }

  /** The records sent are those of the pages fetched, in order: all of them unless the context
      cut the run short, and in that case at least those of every page before the last. */
  lemma EnumerateDelivers<T>(env: Env<T>)
    ensures var f := Enumerate(env);
      && f.fetches <= |env.pages|
      && f.delivered <= AllRecords(env.pages[..f.fetches])
      && (!Cancelled(f, env) ==> f.delivered == AllRecords(env.pages[..f.fetches]))
      && (f.fetches > 0 ==> AllRecords(env.pages[..f.fetches - 1]) <= f.delivered)
  {
    var f := Enumerate(env);
    EnumerateInv(env);
    if f.fetches > 0 && !Cancelled(f, env) {
      AllRecordsNext(env.pages, f.fetches - 1);
      assert env.pages[..f.fetches - 1 + 1] == env.pages[..f.fetches];
    }
  }

  /** The i-th request asks for ten records at the offset equal to the number of records in the
      pages before it, so each offset moves on by exactly the size of the page just sent. */
  lemma EnumerateRequests<T>(env: Env<T>)
    ensures var f := Enumerate(env);
      && |Fetches(f.log)| == f.fetches
      && (forall i :: 0 <= i < f.fetches ==>
            Fetches(f.log)[i] == Fetch(ResultsPerPage, |AllRecords(env.pages[..i])|))
      && (forall i :: 0 <= i < f.fetches - 1 ==>
            Fetches(f.log)[i + 1].offset == Fetches(f.log)[i].offset + |Records(env.pages[i])|)
  {
    var f := Enumerate(env);
    EnumerateInv(env);
    RequestsAt(env.pages, f.fetches);
    forall i | 0 <= i < f.fetches - 1
      ensures Fetches(f.log)[i + 1].offset == Fetches(f.log)[i].offset + |Records(env.pages[i])|
    {
      AllRecordsNext(env.pages, i);
    }
  }

  /** A run returns nil exactly when the last page it fetched was empty; every page before the
      last was either a transient failure or a non-empty page. */
  lemma EnumerateStopsOnEmptyPage<T>(env: Env<T>)
    ensures var f := Enumerate(env);
      && (f.phase == Stopped(None) <==> (f.fetches > 0 && env.pages[f.fetches - 1] == Success([])))
      && (forall i :: 0 <= i < f.fetches - 1 ==> Continues(env.pages[i], env.transient))
  {
    var f := Enumerate(env);
    EnumerateInv(env);
    if f.phase == Stopped(None) {
      assert env.pages[f.fetches - 1].value == [];
    }
  }

  /** A run fails with "error listing task page" exactly when the last page it fetched failed
      with an error that is not transient, and it wraps that very error. */
  lemma EnumerateFatal<T>(env: Env<T>, e: Error)
    ensures var f := Enumerate(env);
      f.phase == Stopped(Some(ListingFailed(e))) <==>
      (f.fetches > 0 && env.pages[f.fetches - 1] == Failure(e) && !env.transient(e))
  {
    EnumerateInv(env);
  }

  /** No offset is requested more than four times. A run that gives up wraps the last transient
      error, and its log ends with three fetch-and-wait rounds and a fourth fetch of the same
      offset. Conversely a run that stopped on a transient error without being cancelled gave
      up on retries. */
  lemma EnumerateRetries<T>(env: Env<T>, e: Error)
    ensures var f := Enumerate(env);
      && (forall o: nat :: FetchCount(f.log, o) <= MaxRetries + 1)
      && (f.phase == Stopped(Some(MaxRetriesExceeded(e))) ==>
            && f.fetches > 0 && env.pages[f.fetches - 1] == Failure(e) && env.transient(e)
            && EndsWith(f.log, RetryRun(|f.delivered|, MaxRetries) + [Fetch(ResultsPerPage, |f.delivered|)])
            && FetchCount(f.log, |f.delivered|) == MaxRetries + 1)
      && (f.phase.Stopped? && !Cancelled(f, env) && f.fetches > 0
          && env.pages[f.fetches - 1] == Failure(e) && env.transient(e) ==>
            f.phase == Stopped(Some(MaxRetriesExceeded(e))))
  {
    var f := Enumerate(env);
    EnumerateInv(env);
    if f.phase == Stopped(Some(MaxRetriesExceeded(e))) {
      EndsWithRetriesThenFetch(f.log, |f.delivered|, MaxRetries);
    }
  }

  /** A run is cancelled exactly when the last select it made saw the context done; every select
      before it saw the context not done; and it made one select per record sent and per
      back-off, plus the one that saw the cancellation. */
  lemma EnumerateCancellation<T>(env: Env<T>)
    ensures var f := Enumerate(env);
      && (Cancelled(f, env) <==> (f.selects > 0 && DoneAt(env, f.selects - 1)))
      && (forall k :: 0 <= k < f.selects - 1 ==> !DoneAt(env, k))
      && f.selects == |f.delivered| + WaitCount(f.log) + (if Cancelled(f, env) then 1 else 0)
  {
    EnumerateInv(env);
  }

  /** A run ends in one of four ways, each about the last page fetched, or it has consumed every
      page result there is. */
  lemma EnumerateOutcome<T>(env: Env<T>)
    ensures var f := Enumerate(env);
      || (f.phase.Fetching? && f.fetches == |env.pages|)
      || (&& f.phase.Stopped? && f.fetches > 0
          && var last := env.pages[f.fetches - 1];
             || f.phase.err == None
             || f.phase.err == Some(Context(env.ctxErr))
             || (last.Failure? && f.phase.err == Some(ListingFailed(last.error)))
             || (last.Failure? && f.phase.err == Some(MaxRetriesExceeded(last.error))))
  {
    EnumerateInv(env);
  }
}
