/** The single-page task lister, the retry test on error text, and TasksReschedule (tasks.go). */
module Tasks {
  import opened Wrappers
  import opened Strings
  import opened Decimal
  import opened Errors
  import opened Request

  /** `resultsPerPage`: the page size ListAllTasks asks for. */
  const ResultsPerPage: nat := 10

  /** What the JSON decoder made of a `{"tasks": [...]}` body: the `tasks` member, None when the
      member is absent or null (a nil slice), or a decode error. */
  type DecodedTasks<T> = Result<Option<seq<T>>, Error>

  /** ListTasks after the request: classify, check for 200, decode. A nil slice is an empty page. */
  function ListTasks<B, T>(x: Exchange<B>, decode: B -> DecodedTasks<T>): (r: Result<seq<T>, Error>)
    ensures r.Success? <==> x.Delivered? && x.response.statusCode == StatusOK && decode(x.response.body).Success?
    ensures r.Success? ==> r.value == (match decode(x.response.body).value case None => [] case Some(ts) => ts)
    ensures x.Delivered? && x.response.statusCode == StatusOK && decode(x.response.body).Failure?
            ==> r == Failure(decode(x.response.body).error)
    ensures x.TransportError? ==> r == Failure(x.err)
  {
    match Classify(x)
    case Failed(e) => Failure(e)
    case Unauthorized(_) => Failure(NotAuthorized)
    case Passed(resp) =>
      if resp.statusCode != StatusOK then Failure(BadResponseCode(resp.statusCode))
      else match decode(resp.body)
        case Failure(e) => Failure(e)
        case Success(None) => Success([])
        case Success(Some(tasks)) => Success(tasks)
  }

  /** ListTasks' request URL, `<BaseURL>/tasks/list/<limit>/<offset>`: the offset reads back from
      what follows the limit. */
  function ListURL(c: Client, limit: nat, offset: nat): (url: string)
    ensures var prefix := c.baseURL + "/tasks/list/" + Format(limit) + "/";
      && |prefix| <= |url| && url[..|prefix|] == prefix
      && IsDecimal(url[|prefix|..]) && Parse(url[|prefix|..]) == offset
  {
    var prefix := c.baseURL + "/tasks/list/" + Format(limit) + "/";
    var url := prefix + Format(offset);
    assert url[|prefix|..] == Format(offset);
    ParseFormat(offset);
    url
  }

  /** Pages of one size at different offsets are asked for at different URLs. */
  lemma ListURLInjective(c: Client, limit: nat, o1: nat, o2: nat)
    ensures ListURL(c, limit, o1) == ListURL(c, limit, o2) <==> o1 == o2
  {
    var prefix := c.baseURL + "/tasks/list/" + Format(limit) + "/";
    if ListURL(c, limit, o1) == ListURL(c, limit, o2) {
      assert ListURL(c, limit, o1)[|prefix|..] == ListURL(c, limit, o2)[|prefix|..];
    }
  }

  /** ListAllTasks' test for a temporary failure: the error text contains "500". */
  predicate Transient(e: Error) {
    Contains(Text(e), "500")
  }

  /** Among three-digit status codes, only 500 makes a bad-response-code error transient:
      503, 502, 403 and the rest are not retried. */
  lemma {:induction false} BadResponseCodeTransient(code: int)
    requires 100 <= code <= 999
    ensures Transient(BadResponseCode(code)) <==> code == 500
  {
    ThreeDigits(code);
    var digits := Format(code);
    ContainsSkipsPrefix(BadResponseCodePrefix, digits, "500");
    ContainsSameLength(digits, "500");
    assert Format(500) == "500";
    if digits == "500" {
      FormatInjective(code, 500);
    }
  }

  /** The sentinel for a 401 is not transient. */
  lemma NotAuthorizedNotTransient()
    ensures !Transient(NotAuthorized)
  {
    ContainsSkipsPrefix(Text(NotAuthorized), "", "500");
    assert Text(NotAuthorized) + "" == Text(NotAuthorized);
  }

  /** Neither of the context's errors is transient. */
  lemma ContextErrorNotTransient(c: ContextError)
    ensures !Transient(Context(c))
  {
    ContainsSkipsPrefix(Text(Context(c)), "", "500");
    assert Text(Context(c)) + "" == Text(Context(c));
  }

  /** A list request cancelled in flight fails with `Get "<url>": <ctx.Err()>`, which is retried
      exactly when the URL contains "500". */
  lemma CancelledRequestTransient(url: string, k: ContextError)
    ensures Transient(UrlError("Get", url, Context(k))) <==> Contains(url, "500")
  {
    var head := "Get \"";
    var tail := "\": " + Text(Context(k));
    assert Text(UrlError("Get", url, Context(k))) == head + (url + tail);
    ContainsSkipsPrefix(head, url + tail, "500");
    CauseHasNo5(k);
    ContainsSkipsSuffix(url, tail, "500");
  }

  lemma CauseHasNo5(k: ContextError)
    ensures var tail := "\": " + Text(Context(k));
      && tail[0] !in "500" && forall i :: 0 <= i < |tail| ==> tail[i] != '5'
  {
    var cause := Text(Context(k));
    var tail := "\": " + cause;
    ContextTextHasNo5(k);
    forall i | 0 <= i < |tail|
      ensures tail[i] != '5'
    {
      if 3 <= i {
        assert tail[i] == cause[i - 3];
      }
    }
  }

  lemma ContextTextHasNo5(k: ContextError)
    ensures forall i :: 0 <= i < |Text(Context(k))| ==> Text(Context(k))[i] != '5'
  {
    if k == Canceled {
      assert Text(Context(k)) == "context canceled";
    } else {
      assert Text(Context(k)) == "context deadline exceeded";
    }
  }

  /** An offset whose decimal form holds "500" puts "500" in the list URL, whatever the base URL. */
  lemma ListURLContains500(c: Client, limit: nat, offset: nat)
    requires Contains(Format(offset), "500")
    ensures Contains(ListURL(c, limit, offset), "500")
  {
    var prefix := c.baseURL + "/tasks/list/" + Format(limit) + "/";
    assert ListURL(c, limit, offset) == prefix + Format(offset);
    ContainsInSuffix(prefix, Format(offset), "500");
  }

  /** So a request for offset 500 that is cancelled in flight is retried. */
  lemma CancelledAtOffset500IsTransient(c: Client, k: ContextError)
    ensures Transient(UrlError("Get", ListURL(c, ResultsPerPage, 500), Context(k)))
  {
    assert Format(500) == "500";
    ContainsInfix("", "500", "");
    assert "" + "500" + "" == "500";
    ListURLContains500(c, ResultsPerPage, 500);
    CancelledRequestTransient(ListURL(c, ResultsPerPage, 500), k);
  }

  /** Any error whose text has "500" somewhere in it is retried, whatever its origin
      (a transport error naming port 5000 or offset 500 in its URL, a decode error, ...). */
  lemma AnyTextWith500IsTransient(p: string, q: string)
    ensures Transient(Foreign(p + "500" + q))
    ensures Transient(Errorf(p + "500" + q))
  {
    ContainsInfix(p, "500", q);
  }

  /** For a delivered response, ListTasks fails exactly when the status is not 200 or the body does
      not decode; for a non-200 three-digit status the failure is transient exactly when it is 500. */
  lemma ListTasksStatus<B, T>(code: int, body: B, decode: B -> DecodedTasks<T>)
    requires 100 <= code <= 999 && code != StatusOK
    ensures var r := ListTasks(Delivered(Response(code, body)), decode);
      && r.Failure?
      && r.error == (if code == StatusUnauthorized then NotAuthorized else BadResponseCode(code))
      && (Transient(r.error) <==> code == 500)
  {
    if code == StatusUnauthorized {
      NotAuthorizedNotTransient();
    } else {
      BadResponseCodeTransient(code);
    }
  }

  /** A transport error, including the `*url.Error` of a cancelled request, passes through unchanged. */
  lemma ListTasksTransportError<B, T>(e: Error, decode: B -> DecodedTasks<T>)
    ensures ListTasks(TransportError(e), decode) == Failure(e)
  {
  }

  /** A 200 whose body has no `tasks` member is an empty page. */
  lemma ListTasksAbsentMember<B, T>(body: B, decode: B -> DecodedTasks<T>)
    requires decode(body) == Success(None)
    ensures ListTasks(Delivered(Response(StatusOK, body)), decode) == Success([])
  {
  }

  /** TasksReschedule's priority: -1 asks for the default priority 1; anything else is sent as is. */
  function EffectivePriority(priority: int): (r: int)
    ensures r != -1
    ensures priority != -1 ==> r == priority
    ensures priority == -1 ==> r == 1
  {
    if priority == -1 then 1 else priority
  }

  /** Applying the default twice changes nothing. */
  lemma EffectivePriorityIdempotent(priority: int)
    ensures EffectivePriority(EffectivePriority(priority)) == EffectivePriority(priority)
  {
  }

  /** `<BaseURL>/tasks/reschedule/<taskID>/<priority>` with the defaulted priority. */
  function RescheduleURL(c: Client, taskID: int, priority: int): (url: string)
    ensures var prefix := c.baseURL + "/tasks/reschedule/" + Format(taskID) + "/";
      && |prefix| <= |url| && url[..|prefix|] == prefix
      && IsDecimal(url[|prefix|..]) && Parse(url[|prefix|..]) == EffectivePriority(priority)
      && Parse(url[|prefix|..]) != -1
  {
    var prefix := c.baseURL + "/tasks/reschedule/" + Format(taskID) + "/";
    var url := prefix + Format(EffectivePriority(priority));
    assert url[|prefix|..] == Format(EffectivePriority(priority));
    ParseFormat(EffectivePriority(priority));
    url
  }

  /** TasksReschedule after the request: `decode` reads the `status` member of the body. */
  function TasksReschedule<B>(x: Exchange<B>, decode: B -> Result<string, Error>): (r: Option<Error>)
    ensures r == None <==> x.Delivered? && x.response.statusCode == StatusOK && decode(x.response.body) == Success("OK")
    ensures x.Delivered? && x.response.statusCode == StatusNotFound ==> r == Some(TaskNotFound)
  {
    match Classify(x)
    case Failed(e) => Some(e)
    case Unauthorized(_) => Some(NotAuthorized)
    case Passed(resp) =>
      if resp.statusCode == StatusNotFound then Some(TaskNotFound)
      else if resp.statusCode != StatusOK then Some(BadResponseCode(resp.statusCode))
      else match decode(resp.body)
        case Failure(e) => Some(e)
        case Success(status) =>
          if status != "OK" then Some(Errorf("bad returned status: " + status)) else None
  }
}
