/** ListAllTasks (tasks.go) as the loop it is: pages are fetched one after the other, each record
    is sent on the tasks channel, transient failures are retried after a back-off, and the
    channel is closed on every return. The loop is proved to do exactly what the reference
    state machine in module Enumeration does. */
module TaskStream {
  import opened Wrappers
  import opened Errors
  import opened Request
  import opened Tasks
  import opened Enumeration

  /** The tasks channel: what has been sent on it, in order, and whether it is closed. Sending on
      or closing a closed channel panics in Go, so both require an open channel. */
  class Channel<T> {
    var sent: seq<T>
    var closed: bool

    constructor ()
      ensures sent == [] && !closed
    {
      sent := [];
      closed := false;
    }

    method Send(x: T)
      requires !closed
      modifies this
      ensures sent == old(sent) + [x] && !closed
    {
      sent := sent + [x];
    }

    method Close()
      requires !closed
      modifies this
      ensures closed && sent == old(sent)
    {
      closed := true;
    }
  }

  /** What ListTasks makes of each successive server exchange. */
  function Pages<B, T>(responses: seq<Exchange<B>>, decode: B -> DecodedTasks<T>): (pages: seq<PageResult<T>>)
    ensures |pages| == |responses|
  {
    if |responses| == 0 then []
    else Pages(responses[..|responses| - 1], decode) + [ListTasks(responses[|responses| - 1], decode)]
  }

  lemma {:induction false} PagesAt<B, T>(responses: seq<Exchange<B>>, decode: B -> DecodedTasks<T>, k: nat)
    requires k < |responses|
    ensures Pages(responses, decode)[k] == ListTasks(responses[k], decode)
  {
    var n := |responses| - 1;
    if k < n {
      PagesAt(responses[..n], decode, k);
    }
  }

  /** The environment of a run of ListAllTasks: its retry test is the "500" substring test. */
  function EnvOf<B, T>(responses: seq<Exchange<B>>, decode: B -> DecodedTasks<T>, ctxDone: seq<bool>,
                       ctxErr: ContextError): Env<T>
  {
    Env(Pages(responses, decode), ctxDone, ctxErr, Transient)
  }

  /** One ListTasks call, on the `k`-th server exchange. `m` is the reference machine about to
      fetch, and `next` the one after the fetch, in whichever phase the page result leads to. */
  method FetchPage<B, T>(responses: seq<Exchange<B>>, decode: B -> DecodedTasks<T>, k: nat,
                         ghost env: Env<T>, ghost m: Machine<T>)
    returns (page: PageResult<T>, ghost next: Machine<T>)
    requires k < |responses| && env.pages == Pages(responses, decode)
    requires WellFormed(m, env) && m.phase.Fetching? && m.fetches == k
    ensures page == env.pages[k]
    ensures WellFormed(next, env) && Run(next, env) == Run(m, env)
    ensures next == m.(fetches := k + 1, log := m.log + [Fetch(ResultsPerPage, m.phase.offset)], phase := next.phase)
    ensures page.Failure? && !env.transient(page.error) ==> next.phase == Stopped(Some(ListingFailed(page.error)))
    ensures page.Failure? && env.transient(page.error) && m.phase.attempt >= MaxRetries
            ==> next.phase == Stopped(Some(MaxRetriesExceeded(page.error)))
    ensures page.Failure? && env.transient(page.error) && m.phase.attempt < MaxRetries
            ==> next.phase == Waiting(m.phase.offset, m.phase.attempt)
    ensures page.Success? && |page.value| == 0 ==> next.phase == Stopped(None)
    ensures page.Success? && |page.value| > 0 ==> next.phase == Delivering(m.phase.offset, page.value, 0)
  {
    page := ListTasks(responses[k], decode);
    PagesAt(responses, decode, k);
    next := FetchStep(m, env);
  }

  /** Whether ListAllTasks has returned, and with which error; Running when the server exchanges
      given ran out before it returned. */
  datatype Status = Running | Returned(err: Option<Error>)

  function StatusOf<T>(m: Machine<T>): Status {
    if m.phase.Stopped? then Returned(m.phase.err) else Running
  }

  /** The back-off select after a transient error: the context seen done ends the run, otherwise
      two seconds pass. `m` is the reference machine waiting, `next` the one after the select. */
  method BackOff<T>(ctxDone: seq<bool>, selectNo: nat, ghost env: Env<T>, ghost m: Machine<T>)
    returns (done: bool, selects: nat, ghost next: Machine<T>)
    requires env.ctxDone == ctxDone && WellFormed(m, env) && m.phase.Waiting? && m.selects == selectNo
    ensures WellFormed(next, env) && Run(next, env) == Run(m, env)
    ensures selects == selectNo + 1 && done == DoneAt(env, selectNo)
    ensures done ==> next == m.(selects := selects, phase := Stopped(Some(Context(env.ctxErr))))
    ensures !done ==> next == m.(selects := selects, log := m.log + [Wait],
                                 phase := Fetching(m.phase.offset, m.phase.attempt + 1))
  {
    RunStep(m, env);
    next := Step(m, env);
    done := selectNo < |ctxDone| && ctxDone[selectNo];
    selects := selectNo + 1;
  }

  /** The inner loop of ListAllTasks: each record of a non-empty page is sent in a select against
      the context, and the loop returns early when the context is seen done. `m` is the reference
      machine about to deliver the page, and `next` the one after the loop. */
  method SendPage<T>(ch: Channel<T>, tasks: seq<T>, ctxDone: seq<bool>, selectNo: nat,
                     ghost env: Env<T>, ghost m: Machine<T>)
    returns (cancelled: bool, selects: nat, ghost sent: seq<T>, ghost next: Machine<T>)
    requires !ch.closed && env.ctxDone == ctxDone
    requires WellFormed(m, env) && m.phase.Delivering? && m.phase.page == tasks && m.phase.next == 0
    requires m.selects == selectNo
    modifies ch
    ensures WellFormed(next, env) && Run(next, env) == Run(m, env)
    ensures !ch.closed && ch.sent == old(ch.sent) + sent
    ensures next == m.(selects := selects, delivered := m.delivered + sent, phase := next.phase)
    ensures cancelled ==> next.phase == Stopped(Some(Context(env.ctxErr)))
    ensures !cancelled ==> next.phase == Fetching(m.phase.offset + |tasks|, 0)
  {
    var i := 0;
    selects := selectNo;
    sent := [];
    next := m;
    while i < |tasks|
      invariant i <= |tasks|
      invariant next == m.(selects := selects, delivered := m.delivered + sent, phase := Delivering(m.phase.offset, tasks, i))
      invariant WellFormed(next, env) && Run(next, env) == Run(m, env)
      invariant !ch.closed && ch.sent == old(ch.sent) + sent
    {
      RunStep(next, env);
      next := Step(next, env);
      var done := selects < |ctxDone| && ctxDone[selects];
      selects := selects + 1;
      if done {
        return true, selects, sent, next;
      }
      ch.Send(tasks[i]);
      sent := sent + [tasks[i]];
      i := i + 1;
    }
    RunStep(next, env);
    next := Step(next, env);
    cancelled := false;
  }

  lemma AppendAssoc<T>(a: seq<T>, b: seq<T>, c: seq<T>)
    ensures (a + b) + c == a + (b + c)
  {
  }

  /** Sends every task to `ch`, fetching page after page from `responses` (the server's answer to
      each successive ListTasks request) and consulting `ctxDone` at each select; `log` is the
      requests and back-offs made. */
  method ListAllTasks<B, T>(ch: Channel<T>, responses: seq<Exchange<B>>, decode: B -> DecodedTasks<T>,
                            ctxDone: seq<bool>, ctxErr: ContextError)
    returns (status: Status, log: seq<Action>)
    requires !ch.closed
    modifies ch
    ensures var f := Enumerate(EnvOf(responses, decode, ctxDone, ctxErr));
      && status == StatusOf(f)
      && log == f.log
      && ch.sent == old(ch.sent) + f.delivered
      && ch.closed == status.Returned?
  {
    ghost var env := EnvOf(responses, decode, ctxDone, ctxErr);
    ghost var delivered: seq<T> := [];
    // The reference machine, kept in step with the loop.
    ghost var mc: Machine<T> := Start();
    var offset: nat := 0;
    var retryCount: nat := 0;
    var fetchNo: nat := 0;
    var selectNo: nat := 0;
    log := [];
    while fetchNo < |responses|
      invariant mc == Machine(Fetching(offset, retryCount), fetchNo, selectNo, delivered, log)
      invariant WellFormed(mc, env) && Run(mc, env) == Enumerate(env)
      invariant !ch.closed && ch.sent == old(ch.sent) + delivered
      decreases |responses| - fetchNo
    {
      var page;
      page, mc := FetchPage(responses, decode, fetchNo, env, mc);
      fetchNo := fetchNo + 1;
      log := log + [Fetch(ResultsPerPage, offset)];
      if page.Failure? {
        var err := page.error;
        if Transient(err) {
          if retryCount >= MaxRetries {
            RunHalted(mc, env);
            ch.Close();
            return Returned(Some(MaxRetriesExceeded(err))), log;
          }
          var done;
          done, selectNo, mc := BackOff(ctxDone, selectNo, env, mc);
          if done {
            ch.Close();
            return Returned(Some(Context(ctxErr))), log;
          }
          log := log + [Wait];
          retryCount := retryCount + 1;
          assert mc.log == log;
          continue;
        }
        RunHalted(mc, env);
        ch.Close();
        return Returned(Some(ListingFailed(err))), log;
      }
      var tasks := page.value;
      if |tasks| == 0 {
        RunHalted(mc, env);
        ch.Close();
        return Returned(None), log;
      }
      retryCount := 0;
      assert mc == Machine(Delivering(offset, tasks, 0), fetchNo, selectNo, delivered, log);
      var cancelled;
      ghost var sent;
      cancelled, selectNo, sent, mc := SendPage(ch, tasks, ctxDone, selectNo, env, mc);
      AppendAssoc(old(ch.sent), delivered, sent);
      delivered := delivered + sent;
      if cancelled {
        RunHalted(mc, env);
        ch.Close();
        return Returned(Some(Context(ctxErr))), log;
      }
      offset := offset + |tasks|;
    }
    status := Running;
  }
}
