/** ListAllTasks (tasks.go) as a state machine over an oracle of page results and an oracle of
    context cancellations. This is the reference definition the imperative enumerator is proved
    against; the lemmas below state what it guarantees. */
module Enumeration {
  import opened Wrappers
  import opened Errors
  import opened Tasks

  /** How many times one offset is retried after its first failed fetch. */
  const MaxRetries: nat := 3

  /** The result of one ListTasks call. */
  type PageResult<T> = Result<seq<T>, Error>

  /** The enumerator's visible actions besides sending: a page request (limit, offset), and a
      completed two-second back-off. */
  datatype Action = Fetch(limit: nat, offset: nat) | Wait

  datatype Phase<T> =
    | Fetching(offset: nat, attempt: nat)               // about to call ListTasks; attempt = retryCount
    | Waiting(offset: nat, attempt: nat)                // in the back-off select after a transient error
    | Delivering(offset: nat, page: seq<T>, next: nat)  // sending page[next..] on the channel
    | Stopped(err: Option<Error>)                       // returned; None is a nil error

  /** The state of one run: the phase, how much of each oracle has been consumed, the records
      sent on the channel, and the actions taken. */
  datatype Machine<T> = Machine(phase: Phase<T>, fetches: nat, selects: nat, delivered: seq<T>, log: seq<Action>)

  /** The environment of one run: the result of each successive fetch; whether the context is
      observed done at each successive select (beyond the end: not done); `ctx.Err()`; and which
      errors are retried (ListAllTasks uses Tasks.Transient). */
  datatype Env<T> = Env(pages: seq<PageResult<T>>, ctxDone: seq<bool>, ctxErr: ContextError,
                        transient: Error -> bool)

  function MaxRetriesExceeded(e: Error): Error {
    Wrapped("max retries exceeded: ", e)
  }

  function ListingFailed(e: Error): Error {
    Wrapped("error listing task page: ", e)
  }

  function Start<T>(): Machine<T> {
    Machine(Fetching(0, 0), 0, 0, [], [])
  }

  predicate DoneAt<T>(env: Env<T>, k: nat) {
    k < |env.ctxDone| && env.ctxDone[k]
  }

  predicate WellFormed<T>(m: Machine<T>, env: Env<T>) {
    m.fetches <= |env.pages| && (m.phase.Delivering? ==> m.phase.next <= |m.phase.page|)
  }

  /** The run has returned, or it needs a fetch result the oracle does not have. */
  predicate Halted<T>(m: Machine<T>, env: Env<T>) {
    m.phase.Stopped? || (m.phase.Fetching? && m.fetches >= |env.pages|)
  }

  /** One step of the enumerator. */
  function Step<T>(m: Machine<T>, env: Env<T>): (r: Machine<T>)
    requires WellFormed(m, env) && !Halted(m, env)
    ensures WellFormed(r, env)
  {
    match m.phase
    case Fetching(off, attempt) =>
      var fetched := m.(fetches := m.fetches + 1, log := m.log + [Fetch(ResultsPerPage, off)]);
      (match env.pages[m.fetches]
       case Failure(e) =>
         if !env.transient(e) then fetched.(phase := Stopped(Some(ListingFailed(e))))
         else if attempt >= MaxRetries then fetched.(phase := Stopped(Some(MaxRetriesExceeded(e))))
         else fetched.(phase := Waiting(off, attempt))
       case Success(tasks) =>
         if |tasks| == 0 then fetched.(phase := Stopped(None))
         else fetched.(phase := Delivering(off, tasks, 0)))
    case Waiting(off, attempt) =>
      if DoneAt(env, m.selects) then m.(selects := m.selects + 1, phase := Stopped(Some(Context(env.ctxErr))))
      else m.(selects := m.selects + 1, log := m.log + [Wait], phase := Fetching(off, attempt + 1))
    case Delivering(off, page, next) =>
      if next == |page| then m.(phase := Fetching(off + |page|, 0))
      else if DoneAt(env, m.selects) then m.(selects := m.selects + 1, phase := Stopped(Some(Context(env.ctxErr))))
      else m.(selects := m.selects + 1, delivered := m.delivered + [page[next]], phase := Delivering(off, page, next + 1))
  }

  function Rank<T>(p: Phase<T>): nat {
    match p
    case Fetching(_, _) => 0
    case Waiting(_, _) => 1
    case Delivering(_, page, next) => if next <= |page| then |page| - next + 1 else 0
    case Stopped(_) => 0
  }

  /** Each step consumes a page or moves the current phase closer to its end. */
  lemma StepDecreases<T>(m: Machine<T>, env: Env<T>)
    requires WellFormed(m, env) && !Halted(m, env)
    ensures var r := Step(m, env);
      || r.fetches > m.fetches
      || (r.fetches == m.fetches && Rank(r.phase) < Rank(m.phase))
  {
  }

  /** Steps until the run halts. */
  function Run<T>(m: Machine<T>, env: Env<T>): (r: Machine<T>)
    requires WellFormed(m, env)
    ensures WellFormed(r, env) && Halted(r, env)
    decreases |env.pages| - m.fetches, Rank(m.phase)
  {
    if Halted(m, env) then m else Run(Step(m, env), env)
  }

  /** A run continues from a step's successor. */
  lemma RunStep<T>(m: Machine<T>, env: Env<T>)
    requires WellFormed(m, env) && !Halted(m, env)
    ensures Run(m, env) == Run(Step(m, env), env)
  {
  }

  /** The fetch step, case by case: the request is logged, and the page result decides the phase. */
  lemma FetchStep<T>(m: Machine<T>, env: Env<T>) returns (next: Machine<T>)
    requires WellFormed(m, env) && m.phase.Fetching? && m.fetches < |env.pages|
    ensures WellFormed(next, env) && Run(next, env) == Run(m, env)
    ensures next == m.(fetches := m.fetches + 1, log := m.log + [Fetch(ResultsPerPage, m.phase.offset)], phase := next.phase)
    ensures var p := env.pages[m.fetches];
      && (p.Failure? && !env.transient(p.error) ==> next.phase == Stopped(Some(ListingFailed(p.error))))
      && (p.Failure? && env.transient(p.error) && m.phase.attempt >= MaxRetries
          ==> next.phase == Stopped(Some(MaxRetriesExceeded(p.error))))
      && (p.Failure? && env.transient(p.error) && m.phase.attempt < MaxRetries
          ==> next.phase == Waiting(m.phase.offset, m.phase.attempt))
      && (p.Success? && |p.value| == 0 ==> next.phase == Stopped(None))
      && (p.Success? && |p.value| > 0 ==> next.phase == Delivering(m.phase.offset, p.value, 0))
  {
    next := Step(m, env);
  }

  /** A run that has halted stays where it is. */
  lemma RunHalted<T>(m: Machine<T>, env: Env<T>)
    requires WellFormed(m, env) && Halted(m, env)
    ensures Run(m, env) == m
  {
  }

  /** A whole run of ListAllTasks. */
  function Enumerate<T>(env: Env<T>): Machine<T> {
    Run(Start(), env)
  }

  // ---------------------------------------------------------------------------------------------
  // Specification functions

  /** The records of one page result; a failed fetch contributes none. */
  function Records<T>(p: PageResult<T>): seq<T> {
    if p.Success? then p.value else []
  }

  /** The records of all successful pages, in fetch order, each in server order. */
  function AllRecords<T>(pages: seq<PageResult<T>>): seq<T> {
    if |pages| == 0 then [] else AllRecords(pages[..|pages| - 1]) + Records(pages[|pages| - 1])
  }

  /** The fetch requests of a log, in order. */
  function Fetches(log: seq<Action>): seq<Action> {
    if |log| == 0 then []
    else Fetches(log[..|log| - 1]) + (if log[|log| - 1].Fetch? then [log[|log| - 1]] else [])
  }

  /** How many fetches of the log asked for `offset`. */
  function FetchCount(log: seq<Action>, offset: nat): nat {
    if |log| == 0 then 0
    else FetchCount(log[..|log| - 1], offset) + (if log[|log| - 1] == Fetch(ResultsPerPage, offset) then 1 else 0)
  }

  function WaitCount(log: seq<Action>): nat {
    if |log| == 0 then 0 else WaitCount(log[..|log| - 1]) + (if log[|log| - 1].Wait? then 1 else 0)
  }

  /** `n` failed fetches of `offset`, each followed by a back-off. */
  function RetryRun(offset: nat, n: nat): seq<Action> {
    if n == 0 then [] else RetryRun(offset, n - 1) + [Fetch(ResultsPerPage, offset), Wait]
  }

  predicate EndsWith(log: seq<Action>, suffix: seq<Action>) {
    |suffix| <= |log| && log[|log| - |suffix|..] == suffix
  }

  /** A page result after which the enumerator goes on: a transient error or a non-empty page. */
  predicate Continues<T>(p: PageResult<T>, transient: Error -> bool) {
    if p.Failure? then transient(p.error) else |p.value| > 0
  }

  predicate Cancelled<T>(m: Machine<T>, env: Env<T>) {
    m.phase == Stopped(Some(Context(env.ctxErr)))
  }
}
